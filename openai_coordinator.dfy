/** The coordinator variant that answers questions through a chat-completion
    client (examples/openai-integration-example.py). The client call itself
    is abstract: the caller supplies what it produced. */
module OpenAiCoordinator {
  import opened AssistantData

  const DefaultModel := "gpt-3.5-turbo"
  const DefaultSystemPrompt :=
    "You are a helpful assistant integrated with Home Assistant. "
    + "Provide concise and useful responses about home automation."
  /** Returned by `AskQuestion` when no API key was configured. */
  const NoApiKeyWarning := "\U{26A0}\U{FE0F} API key non configurata. Configura l'API key nelle impostazioni."
  /** Put in front of the exception text when the client call fails. */
  const ErrorPrefix := "Errore: "

  /** The settings a configured client is built with. */
  datatype ClientConfig = ClientConfig(model: Value, systemPrompt: Value)

  /** What one chat-completion call produced: the reply text, or the text of
      the exception it raised. */
  datatype Outcome = Success(text: string) | Failure(message: string)

  /** The state after one question, and the text handed back to the caller. */
  datatype Reply = Reply(state: State, answer: string)

  /** The client set up from the entry data: present exactly when the entry
      holds a truthy API key, with the model and system prompt falling back
      to their defaults. */
  function ConfigureClient(entryData: map<string, Value>): (c: Option<ClientConfig>)
    ensures c.Some? <==> Truthy(Get(entryData, "api_key"))
    ensures c.Some? ==> c.value.model == (if "model" in entryData then entryData["model"] else Str(DefaultModel))
    ensures c.Some? ==>
              c.value.systemPrompt == GetOr(entryData, "system_prompt", Str(DefaultSystemPrompt))
  {
    if Truthy(Get(entryData, "api_key")) then
      Some(ClientConfig(GetOr(entryData, "model", Str(DefaultModel)),
                        GetOr(entryData, "system_prompt", Str(DefaultSystemPrompt))))
    else
      None
  }

  /** One question asked of a configured client, as a function of the state
      before it and the call's outcome. */
  function Ask(s: State, o: Outcome): (r: Reply)
    ensures r.state.status != Thinking
    ensures r.state.available == s.available
    ensures r.state.lastResponse == r.answer
    ensures r.state.conversationCount == s.conversationCount + (if o.Success? then 1 else 0)
    ensures o.Success? ==> r.answer == o.text && r.state.status == Online
    ensures o.Failure? ==> r.answer == ErrorPrefix + o.message && r.state.status == Error
  {
    match o
    case Success(text) => Reply(State(Online, text, s.conversationCount + 1, s.available), text)
    case Failure(message) =>
      var errorMsg := ErrorPrefix + message;
      Reply(s.(status := Error, lastResponse := errorMsg), errorMsg)
  }

  /** The number of successful outcomes in a run of questions. */
  function Successes(outcomes: seq<Outcome>): nat
  {
    if outcomes == [] then 0 else (if outcomes[0].Success? then 1 else 0) + Successes(outcomes[1..])
  }

  /** The state after a run of questions asked one after the other. The
      count only grows, by the number of successful calls, and the status is
      left at the verdict of the last call, never at Thinking. */
  function AskAll(s: State, outcomes: seq<Outcome>): (r: State)
    ensures r.conversationCount == s.conversationCount + Successes(outcomes)
    ensures r.conversationCount >= s.conversationCount
    ensures r.available == s.available
    ensures outcomes != [] ==> r.status == (if outcomes[|outcomes| - 1].Success? then Online else Error)
    ensures outcomes == [] ==> r == s
    decreases |outcomes|
  {
    if outcomes == [] then s else AskAll(Ask(s, outcomes[0]).state, outcomes[1..])
  }

  /** Asking one more question after a run is the run extended by that
      outcome, so the states reached by repeated `AskQuestion` calls are
      exactly those `AskAll` describes. */
  lemma {:induction false} AskAllThenAsk(s: State, outcomes: seq<Outcome>, o: Outcome)
    ensures AskAll(s, outcomes + [o]) == Ask(AskAll(s, outcomes), o).state
    decreases |outcomes|
  {
    if outcomes == [] {
      assert outcomes + [o] == [o];
    } else {
      assert (outcomes + [o])[1..] == outcomes[1..] + [o];
      AskAllThenAsk(Ask(s, outcomes[0]).state, outcomes[1..], o);
    }
  }

  class Coordinator {
    const entry: ConfigEntry
    /** `self.client`; None when no API key was configured. */
    const client: Option<ClientConfig>
    var status: Status
    var lastResponse: string
    var conversationCount: nat
    var available: bool
    /** The fields as they stood at each listener notification, oldest
        first. The sensors that listen read `data`, not these fields. */
    var notified: seq<State>

    function Fields(): State
      reads this
    {
      State(status, lastResponse, conversationCount, available)
    }

    /** Between calls the status is never Thinking. */
    predicate Valid()
      reads this
    {
      status != Thinking
    }

    constructor (entry: ConfigEntry)
      ensures Valid()
      ensures this.entry == entry && client == ConfigureClient(entry.data)
      ensures Fields() == InitialState && notified == []
    {
      this.entry := entry;
      client := ConfigureClient(entry.data);
      conversationCount := 0;
      lastResponse := "Ready";
      status := Online;
      available := true;
      notified := [];
    }

    /** `_async_update_data`: a copy of the fields, reporting availability
        only when a client is configured. */
    function UpdateData(now: string): (d: map<string, Value>)
      reads this
      ensures d.Keys == {StatusKey, LastResponseKey, CountKey, AvailableKey, LastUpdateKey}
      ensures d[StatusKey] == Str(status.Name()) && d[LastResponseKey] == Str(lastResponse)
      ensures d[CountKey] == Int(conversationCount) && d[LastUpdateKey] == Str(now)
      ensures d[AvailableKey] == Bool(available && client.Some?)
    {
      Snapshot(Fields(), available && client.Some?, now)
    }

    /** `async_update_listeners`, logged with the fields at that moment. */
    method NotifyListeners()
      modifies this`notified
      ensures notified == old(notified) + [Fields()]
    {
      notified := notified + [Fields()];
    }

    /** `ask_question`. `call` stands for the chat-completion request made
        with the client's settings and the question. Without a client the
        warning is returned and nothing changes; otherwise a notification is
        issued with the status set to Thinking, before the call, and another
        after the fields take their final values. */
    method AskQuestion(question: string, call: (ClientConfig, string) -> Outcome) returns (answer: string)
      requires Valid()
      modifies this`status, this`lastResponse, this`conversationCount, this`notified
      ensures Valid()
      ensures client.None? ==> answer == NoApiKeyWarning && Fields() == old(Fields()) && notified == old(notified)
      ensures client.Some? ==>
                var r := Ask(old(Fields()), call(client.value, question));
                Fields() == r.state && answer == r.answer
                && notified == old(notified) + [old(Fields()).(status := Thinking), r.state]
    {
      if client.None? {
        return NoApiKeyWarning;
      }
      status := Thinking;
      NotifyListeners();
      var outcome := call(client.value, question);
      match outcome
      case Success(response) =>
        conversationCount := conversationCount + 1;
        lastResponse := response;
        status := Online;
        NotifyListeners();
        answer := response;
      case Failure(message) =>
        var errorMsg := ErrorPrefix + message;
        status := Error;
        lastResponse := errorMsg;
        NotifyListeners();
        answer := errorMsg;
    }
  }
}
