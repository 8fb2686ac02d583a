/** The simulated coordinator
    (home-assistant-integration/custom_components/ai_assistant/coordinator.py):
    it holds the conversation state and is told the responses from outside. */
module SimCoordinator {
  import opened AssistantData

  /** What `update_conversation` makes of the fields. */
  function Updated(s: State, response: string): State
  {
    s.(conversationCount := s.conversationCount + 1, lastResponse := response)
  }

  /** The state after a run of `update_conversation` calls: the count grows
      by one per call, the last response is the last one given, and status
      and availability are untouched. */
  function AfterUpdates(s: State, responses: seq<string>): (r: State)
    ensures r.conversationCount == s.conversationCount + |responses|
    ensures r.lastResponse == if responses == [] then s.lastResponse else responses[|responses| - 1]
    ensures r.status == s.status && r.available == s.available
    decreases |responses|
  {
    if responses == [] then s else AfterUpdates(Updated(s, responses[0]), responses[1..])
  }

  class Coordinator {
    const entry: ConfigEntry
    var status: Status
    var lastResponse: string
    var conversationCount: nat
    var available: bool
    /** `coordinator.data`: the dictionary of the latest refresh; empty
        before the first one. */
    var data: map<string, Value>
    /** The fields as they stood at each listener notification, oldest
        first. The sensors that listen read `data`, not these fields. */
    var notified: seq<State>

    function Fields(): State
      reads this
    {
      State(status, lastResponse, conversationCount, available)
    }

    constructor (entry: ConfigEntry)
      ensures this.entry == entry
      ensures Fields() == InitialState && data == map[] && notified == []
    {
      this.entry := entry;
      conversationCount := 0;
      lastResponse := "Ready";
      status := Online;
      available := true;
      data := map[];
      notified := [];
    }

    /** `_async_update_data`: a verbatim copy of the four fields, stamped
        with the refresh time. */
    function UpdateData(now: string): (d: map<string, Value>)
      reads this
      ensures d.Keys == {StatusKey, LastResponseKey, CountKey, AvailableKey, LastUpdateKey}
      ensures d[StatusKey] == Str(status.Name()) && d[LastResponseKey] == Str(lastResponse)
      ensures d[CountKey] == Int(conversationCount) && d[AvailableKey] == Bool(available)
      ensures d[LastUpdateKey] == Str(now)
    {
      Snapshot(Fields(), available, now)
    }

    /** `async_update_listeners`, logged with the fields at that moment. */
    method NotifyListeners()
      modifies this`notified
      ensures notified == old(notified) + [Fields()]
    {
      notified := notified + [Fields()];
    }

    /** One refresh by the framework: `data` becomes the fresh snapshot and
        the listeners are told. */
    method Refresh(now: string)
      modifies this`data, this`notified
      ensures data == UpdateData(now)
      ensures notified == old(notified) + [Fields()]
    {
      data := UpdateData(now);
      NotifyListeners();
    }

    /** `update_conversation`: count up by one, store the response, and only
        then issue the notification. `data` is not touched. */
    method UpdateConversation(response: string)
      modifies this`conversationCount, this`lastResponse, this`notified
      ensures Fields() == Updated(old(Fields()), response)
      ensures conversationCount == old(conversationCount) + 1 && lastResponse == response
      ensures notified == old(notified) + [Fields()]
    {
      conversationCount := conversationCount + 1;
      lastResponse := response;
      NotifyListeners();
    }
  }

  /** One more update after a run is the run extended by that response. */
  lemma AfterUpdatesThenUpdate(s: State, responses: seq<string>, response: string)
    ensures AfterUpdates(s, responses + [response]) == Updated(AfterUpdates(s, responses), response)
  {
  }
}
