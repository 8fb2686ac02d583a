/** Entry setup and unload, and the two service handlers
    (custom_components/ai_assistant/__init__.py). The integration's services
    drive the simulated coordinator. */
module Integration {
  import opened AssistantData
  import SimCoordinator
  import SensorPlatform

  const Domain := "ai_assistant"
  const ResponseEventType := "ai_assistant_response"
  /** The simulated answer is this text followed by the question. */
  const AnswerPrefix := "Risposta alla domanda: "
  /** What a reset leaves as the last response. */
  const ResetMarker := "Reset"

  /** The event fired after a question is answered. */
  datatype Event = Event(eventType: string, question: string, response: string)

  /** The question of a service call; a call without one asks the empty string. */
  function QuestionOf(callData: map<string, string>): string
  {
    GetOr(callData, "question", "")
  }

  /** The simulated answer to a question. */
  function SimulatedAnswer(question: string): string
  {
    AnswerPrefix + question
  }

  /** The question a simulated answer replies to, when the text is one. */
  function QuestionOfAnswer(response: string): (q: Option<string>)
    ensures q.Some? <==> |AnswerPrefix| <= |response| && response[..|AnswerPrefix|] == AnswerPrefix
    ensures q.Some? ==> SimulatedAnswer(q.value) == response
  {
    if |AnswerPrefix| <= |response| && response[..|AnswerPrefix|] == AnswerPrefix then
      assert response == response[..|AnswerPrefix|] + response[|AnswerPrefix|..];
      Some(response[|AnswerPrefix|..])
    else
      None
  }

  /** The answer carries its question: the fired event's response determines
      the question it was given for. */
  lemma AnswerRoundTrip(question: string)
    ensures QuestionOfAnswer(SimulatedAnswer(question)) == Some(question)
  {
  }

  /** `handle_ask_question`: answer with the simulated response, record it on
      the coordinator, and return the event that is fired. */
  method HandleAskQuestion(c: SimCoordinator.Coordinator, callData: map<string, string>) returns (ev: Event)
    modifies c
    ensures ev == Event(ResponseEventType, QuestionOf(callData), SimulatedAnswer(QuestionOf(callData)))
    ensures c.Fields() == SimCoordinator.Updated(old(c.Fields()), ev.response)
    ensures c.conversationCount == old(c.conversationCount) + 1 && c.lastResponse == ev.response
    ensures c.notified == old(c.notified) + [c.Fields()]
    ensures c.data == old(c.data)
  {
    var question := QuestionOf(callData);
    var response := SimulatedAnswer(question);
    c.UpdateConversation(response);
    ev := Event(ResponseEventType, question, response);
  }

  /** `handle_reset`: zero the count, mark the response, then refresh. */
  method HandleReset(c: SimCoordinator.Coordinator, now: string)
    modifies c
    ensures c.conversationCount == 0 && c.lastResponse == ResetMarker
    ensures c.status == old(c.status) && c.available == old(c.available)
    ensures c.data == c.UpdateData(now)
    ensures c.notified == old(c.notified) + [c.Fields()]
  {
    c.conversationCount := 0;
    c.lastResponse := ResetMarker;
    c.Refresh(now);
  }

  /** The sensors lag behind a question: `HandleAskQuestion` leaves `data`
      as the last refresh made it, and on that dictionary the sensors still
      show the count and response from before the question. */
  lemma SensorsLagBehindQuestion(st: State, available: bool, now: string, callData: map<string, string>)
    ensures var shown := Snapshot(st, available, now);
            var after := SimCoordinator.Updated(st, SimulatedAnswer(QuestionOf(callData)));
            && SensorPlatform.NativeValue(CountKey, shown) == Int(st.conversationCount)
            && SensorPlatform.NativeValue(CountKey, shown) != Int(after.conversationCount)
            && SensorPlatform.NativeValue(LastResponseKey, shown) == Str(st.lastResponse)
  {
  }

  /** The outcome of `async_unload_entry`: the platform unload result, or the
      KeyError raised when the entry to drop is not registered. */
  datatype UnloadResult = Unloaded(ok: bool) | KeyErrorRaised

  /** The parts of the framework's state this integration touches. */
  class Hass {
    /** `hass.data[DOMAIN]`, None while the domain key is absent. */
    var domainData: Option<map<string, SimCoordinator.Coordinator>>
    /** The coordinator captured by the currently registered service handlers. */
    var serviceTarget: Option<SimCoordinator.Coordinator>

    constructor ()
      ensures domainData == None && serviceTarget == None
    {
      domainData := None;
      serviceTarget := None;
    }

    /** The entry-id map of the domain, empty while it is absent. */
    function Entries(): map<string, SimCoordinator.Coordinator>
      reads this
    {
      if domainData.Some? then domainData.value else map[]
    }

    /** The coordinators the registered service handlers may change. */
    function ServiceFrame(): set<SimCoordinator.Coordinator>
      reads this
    {
      if serviceTarget.Some? then {serviceTarget.value} else {}
    }

    /** A call of the `ask_question` service: the handler registered by the
        latest setup runs on the coordinator it captured. Before any setup
        the service does not exist and nothing happens. */
    method CallAskQuestion(callData: map<string, string>) returns (ev: Option<Event>)
      modifies ServiceFrame()
      ensures serviceTarget.None? ==> ev == None
      ensures serviceTarget.Some? ==>
                var c := serviceTarget.value;
                && ev == Some(Event(ResponseEventType, QuestionOf(callData), SimulatedAnswer(QuestionOf(callData))))
                && c.Fields() == SimCoordinator.Updated(old(c.Fields()), ev.value.response)
                && c.notified == old(c.notified) + [c.Fields()]
                && c.data == old(c.data)
    {
      if serviceTarget.None? {
        return None;
      }
      var e := HandleAskQuestion(serviceTarget.value, callData);
      ev := Some(e);
    }

    /** A call of the `reset` service, dispatched like `CallAskQuestion`. */
    method CallReset(now: string) returns (handled: bool)
      modifies ServiceFrame()
      ensures handled == serviceTarget.Some?
      ensures serviceTarget.Some? ==>
                var c := serviceTarget.value;
                && c.conversationCount == 0 && c.lastResponse == ResetMarker
                && c.status == old(c.status) && c.available == old(c.available)
                && c.data == c.UpdateData(now)
                && c.notified == old(c.notified) + [c.Fields()]
    {
      if serviceTarget.None? {
        return false;
      }
      HandleReset(serviceTarget.value, now);
      handled := true;
    }

    /** `async_setup_entry`: build the coordinator, refresh it once, register
        it under the entry id next to the entries already there, and point
        the services at it. Always succeeds. */
    method SetupEntry(entry: ConfigEntry, now: string) returns (ok: bool)
      modifies this
      ensures ok
      ensures domainData.Some? && entry.entryId in domainData.value
      ensures domainData == Some(old(Entries())[entry.entryId := domainData.value[entry.entryId]])
      ensures var c := domainData.value[entry.entryId];
              && fresh(c) && c.entry == entry && c.Fields() == InitialState
              && c.data == c.UpdateData(now) && c.notified == [InitialState]
              && serviceTarget == Some(c)
    {
      var c := new SimCoordinator.Coordinator(entry);
      c.Refresh(now);
      if domainData.None? {
        domainData := Some(map[]);
      }
      domainData := Some(domainData.value[entry.entryId := c]);
      serviceTarget := Some(c);
      ok := true;
    }

    /** `async_unload_entry`: `platformsUnloaded` is what unloading the
        platforms reported. Only on success is the entry dropped; its
        absence then raises KeyError. */
    method UnloadEntry(entry: ConfigEntry, platformsUnloaded: bool) returns (r: UnloadResult)
      modifies this`domainData
      ensures !platformsUnloaded ==> r == Unloaded(false) && domainData == old(domainData)
      ensures platformsUnloaded && entry.entryId in old(Entries()) ==>
                r == Unloaded(true) && domainData == Some(old(Entries()) - {entry.entryId})
      ensures platformsUnloaded && entry.entryId !in old(Entries()) ==>
                r == KeyErrorRaised && domainData == old(domainData)
    {
      if !platformsUnloaded {
        return Unloaded(false);
      }
      if domainData.None? || entry.entryId !in domainData.value {
        return KeyErrorRaised;
      }
      domainData := Some(domainData.value - {entry.entryId});
      r := Unloaded(true);
    }
  }
}
