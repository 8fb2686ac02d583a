/** The two-step configuration flow that asks for the integration's name and
    then for its API settings (examples/config-flow-with-api-key.py). */
module ConfigFlow {
  import opened AssistantData

  const UserStep := "user"
  const ApiStep := "api"

  /** Defaults declared by the two form schemas. */
  const UserDefaults: map<string, Value> := map["name" := Str("AI Assistant"), "update_interval" := Int(30)]
  const ApiDefaults: map<string, Value> := map["api_provider" := Str("openai"), "model" := Str("gpt-3.5-turbo")]

  /** What `validate_input` can raise. `Unexpected` is any other exception
      (here: the KeyError of a missing name). */
  datatype FlowError = CannotConnect | InvalidApiKey | Unexpected

  datatype Validation = Validated(title: Value) | Rejected(error: FlowError)

  /** What a flow step hands back to the framework. */
  datatype FlowResult =
    | ShowForm(stepId: string, errors: map<string, string>)
    | CreateEntry(title: Value, data: map<string, Value>)
    | Aborted             // `_abort_if_unique_id_configured` stopped the flow
    | KeyErrorRaised(key: string)

  predicate IsProvider(input: map<string, Value>, provider: string)
  {
    Get(input, "api_provider") == Some(Str(provider))
  }

  /** `validate_input`: an "openai" provider without a truthy key is an
      invalid key; otherwise the title is the name, whose absence raises. */
  function ValidateInput(data: map<string, Value>): (r: Validation)
    ensures r == Rejected(InvalidApiKey) <==> IsProvider(data, "openai") && !Truthy(Get(data, "api_key"))
    ensures r.Validated? <==> !(IsProvider(data, "openai") && !Truthy(Get(data, "api_key"))) && "name" in data
    ensures r.Validated? ==> r.title == data["name"]
    ensures r != Rejected(CannotConnect)
  {
    if IsProvider(data, "openai") && !Truthy(Get(data, "api_key")) then Rejected(InvalidApiKey)
    else if "name" !in data then Rejected(Unexpected)
    else Validated(data["name"])
  }

  /** The `errors["base"]` code the user step shows for each failure. */
  function UserErrorCode(e: FlowError): string
  {
    match e
    case CannotConnect => "cannot_connect"
    case InvalidApiKey => "invalid_api_key"
    case Unexpected => "unknown"
  }

  /** Each failure shows its own code. */
  lemma UserErrorCodesDistinct(e1: FlowError, e2: FlowError)
    requires e1 != e2
    ensures UserErrorCode(e1) != UserErrorCode(e2)
  {
  }

  /** A key value that `len` can measure and that is shorter than ten. */
  predicate ShortKey(key: Option<Value>)
  {
    key.Some? && key.value.Str? && |key.value.s| < 10
  }

  /** A truthy key that is not text: `len` of it raises TypeError. */
  predicate UnmeasurableKey(key: Option<Value>)
  {
    Truthy(key) && !key.value.Str?
  }

  /** The error map of the API step. An "openai" key that is missing, empty
      or shorter than ten characters is rejected; a "custom" provider needs
      a URL; a key `len` cannot measure ends the checks with a generic
      error. */
  function ApiErrors(input: map<string, Value>): (errors: map<string, string>)
    ensures "api_key" in errors <==>
              IsProvider(input, "openai") && (!Truthy(Get(input, "api_key")) || ShortKey(Get(input, "api_key")))
    ensures "api_key" in errors ==> errors["api_key"] == "invalid_api_key"
    ensures "api_url" in errors <==> IsProvider(input, "custom") && !Truthy(Get(input, "api_url"))
    ensures "api_url" in errors ==> errors["api_url"] == "required"
    ensures "base" in errors <==> IsProvider(input, "openai") && UnmeasurableKey(Get(input, "api_key"))
    ensures "base" in errors ==> errors == map["base" := "unknown"]
    ensures errors.Keys <= {"api_key", "api_url", "base"}
  {
    var key := Get(input, "api_key");
    if IsProvider(input, "openai") then
      if !Truthy(key) || ShortKey(key) then map["api_key" := "invalid_api_key"]
      else if UnmeasurableKey(key) then map["base" := "unknown"]
      else map[]
    else if IsProvider(input, "custom") && !Truthy(Get(input, "api_url")) then
      map["api_url" := "required"]
    else
      map[]
  }

  /** `{**user_data, **user_input}`: every key of either, the second winning. */
  function Merge(first: map<string, Value>, second: map<string, Value>): (m: map<string, Value>)
    ensures m.Keys == first.Keys + second.Keys
    ensures forall k :: k in second ==> m[k] == second[k]
    ensures forall k :: k in first && k !in second ==> m[k] == first[k]
  {
    first + second
  }

  /** With the API schema's defaults filled in, an API step that names no
      provider is checked exactly as one that names "openai". */
  lemma DefaultProviderIsOpenAi(input: map<string, Value>)
    requires "api_provider" !in input
    ensures ApiErrors(Merge(ApiDefaults, input)) == ApiErrors(input["api_provider" := Str("openai")])
  {
  }

  /** In particular an empty key with no provider named is rejected. */
  lemma DefaultProviderChecksKey(input: map<string, Value>)
    requires "api_provider" !in input && Get(input, "api_key") == Some(Str(""))
    ensures ApiErrors(Merge(ApiDefaults, input)) == map["api_key" := "invalid_api_key"]
  {
    DefaultProviderIsOpenAi(input);
  }

  /** With the user schema's defaults filled in, a user step that gives no
      name validates with the default title. */
  lemma DefaultNameTitlesEntry(input: map<string, Value>)
    requires "name" !in input && !(IsProvider(input, "openai") && !Truthy(Get(input, "api_key")))
    ensures ValidateInput(Merge(UserDefaults, input)) == Validated(Str("AI Assistant"))
  {
    assert Get(Merge(UserDefaults, input), "api_provider") == Get(input, "api_provider");
    assert Get(Merge(UserDefaults, input), "api_key") == Get(input, "api_key");
  }

  class Flow {
    /** `self.user_data`: the input of the user step once it validated. */
    var userData: map<string, Value>

    constructor ()
      ensures userData == map[]
    {
      userData := map[];
    }

    /** `async_step_user`. Without input the form is shown. Valid input is
        kept and the API form follows; otherwise the user form comes back
        with the failure's code under "base" and nothing is kept. */
    method StepUser(input: Option<map<string, Value>>) returns (r: FlowResult)
      modifies this`userData
      ensures input.None? ==> r == ShowForm(UserStep, map[]) && userData == old(userData)
      ensures input.Some? && ValidateInput(input.value).Validated? ==>
                r == ShowForm(ApiStep, map[]) && userData == input.value
      ensures input.Some? && ValidateInput(input.value).Rejected? ==>
                r == ShowForm(UserStep, map["base" := UserErrorCode(ValidateInput(input.value).error)])
                && userData == old(userData)
    {
      if input.None? {
        return ShowForm(UserStep, map[]);
      }
      var errors: map<string, string> := map[];
      var info := ValidateInput(input.value);
      match info {
        case Validated(_) =>
          userData := input.value;
        case Rejected(e) =>
          errors := errors["base" := UserErrorCode(e)];
          assert "base" in errors;
      }
      if errors == map[] {
        r := StepApi(None, false);
        return;
      }
      r := ShowForm(UserStep, errors);
    }

    /** `async_step_api`. `alreadyConfigured` is whether an entry with the
        integration's unique id exists. An entry is created only when the
        error map is empty, from the merged data and titled with its name. */
    method StepApi(input: Option<map<string, Value>>, alreadyConfigured: bool) returns (r: FlowResult)
      ensures input.None? ==> r == ShowForm(ApiStep, map[])
      ensures input.Some? && ApiErrors(input.value) != map[] ==> r == ShowForm(ApiStep, ApiErrors(input.value))
      ensures input.Some? && ApiErrors(input.value) == map[] ==>
                var combined := Merge(userData, input.value);
                r == (if alreadyConfigured then Aborted
                      else if "name" in combined then CreateEntry(combined["name"], combined)
                      else KeyErrorRaised("name"))
      ensures r.CreateEntry? ==> input.Some? && ApiErrors(input.value) == map[] && r.data == Merge(userData, input.value)
    {
      if input.None? {
        return ShowForm(ApiStep, map[]);
      }
      var errors := ApiErrors(input.value);
      if errors != map[] {
        return ShowForm(ApiStep, errors);
      }
      var combined := Merge(userData, input.value);
      if alreadyConfigured {
        return Aborted;
      }
      if "name" !in combined {
        return KeyErrorRaised("name");
      }
      r := CreateEntry(combined["name"], combined);
    }
  }
}
