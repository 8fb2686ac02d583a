/** The sensor platform (custom_components/ai_assistant/sensor.py): three
    sensors per entry, each reading one key of the coordinator's data. */
module SensorPlatform {
  import opened AssistantData

  /** A sensor entity description; icon and unit are presentation only. */
  datatype Description = Description(key: string, name: string, icon: string, unit: Option<string>)

  /** `SENSOR_DESCRIPTIONS`. */
  const Descriptions: seq<Description> := [
    Description(StatusKey, "Status", "mdi:robot", None),
    Description(CountKey, "Conversation Count", "mdi:message-text", Some("conversations")),
    Description(LastResponseKey, "Last Response", "mdi:comment-text", None)
  ]

  /** An `AIAssistantSensor` of one entry. */
  datatype AssistantSensor = AssistantSensor(description: Description, uniqueId: string, name: string)

  function UniqueId(entryId: string, d: Description): string
  {
    entryId + "_" + d.key
  }

  /** `AIAssistantSensor.__init__`: the id joins the entry id and the key,
      the name prefixes the description's name. */
  function NewSensor(entryId: string, d: Description): (s: AssistantSensor)
    ensures s.description == d
    ensures s.uniqueId == entryId + "_" + d.key
    ensures s.name == "AI Assistant " + d.name
  {
    AssistantSensor(d, UniqueId(entryId, d), "AI Assistant " + d.name)
  }

  /** Unique ids are unique across entries: an id names one entry and one
      description (the three keys end in different letters, so the key, and
      with it the entry id, can be read back from the id). */
  lemma UniqueIdInjective(e1: string, d1: Description, e2: string, d2: Description)
    requires d1 in Descriptions && d2 in Descriptions
    requires UniqueId(e1, d1) == UniqueId(e2, d2)
    ensures e1 == e2 && d1 == d2
  {
    var u := UniqueId(e1, d1);
    assert u[|u| - 1] == d1.key[|d1.key| - 1];
    assert u[|u| - 1] == d2.key[|d2.key| - 1];
    assert d1 == d2;
    assert e1 == u[..|e1|];
    assert e2 == u[..|e2|];
  }

  /** The sensor platform's setup: one sensor per description, in order,
      with pairwise distinct unique ids. */
  function PlatformSensors(entryId: string): (r: seq<AssistantSensor>)
    ensures |r| == |Descriptions|
    ensures forall i :: 0 <= i < |r| ==> r[i] == NewSensor(entryId, Descriptions[i])
    ensures forall i, j :: 0 <= i < |r| && 0 <= j < |r| && i != j ==> r[i].uniqueId != r[j].uniqueId
  {
    var r := seq(|Descriptions|, i requires 0 <= i < |Descriptions| => NewSensor(entryId, Descriptions[i]));
    assert forall i, j :: 0 <= i < |r| && 0 <= j < |r| && i != j ==> r[i].uniqueId != r[j].uniqueId by {
      forall i, j | 0 <= i < |r| && 0 <= j < |r| && r[i].uniqueId == r[j].uniqueId
        ensures i == j
      {
        UniqueIdInjective(entryId, Descriptions[i], entryId, Descriptions[j]);
      }
    }
    r
  }

  /** `native_value`: the key's entry of the data, a fixed default when the
      entry is absent, and "unknown" for a key the platform does not know. */
  function NativeValue(key: string, data: map<string, Value>): (v: Value)
    ensures key == StatusKey ==> v == (if StatusKey in data then data[StatusKey] else Str("unknown"))
    ensures key == CountKey ==> v == (if CountKey in data then data[CountKey] else Int(0))
    ensures key == LastResponseKey ==>
              v == (if LastResponseKey in data then data[LastResponseKey] else Str("No response yet"))
    ensures key !in {StatusKey, CountKey, LastResponseKey} ==> v == Str("unknown")
  {
    if key == StatusKey then GetOr(data, StatusKey, Str("unknown"))
    else if key == CountKey then GetOr(data, CountKey, Int(0))
    else if key == LastResponseKey then GetOr(data, LastResponseKey, Str("No response yet"))
    else Str("unknown")
  }

  /** `extra_state_attributes`: the refresh time passed through (None when
      absent) and the availability, true when absent. */
  function ExtraStateAttributes(data: map<string, Value>): (attrs: map<string, Value>)
    ensures attrs.Keys == {LastUpdateKey, AvailableKey}
    ensures attrs[LastUpdateKey] == (if LastUpdateKey in data then data[LastUpdateKey] else Null)
    ensures attrs[AvailableKey] == (if AvailableKey in data then data[AvailableKey] else Bool(true))
  {
    map[LastUpdateKey := GetOr(data, LastUpdateKey, Null), AvailableKey := GetOr(data, AvailableKey, Bool(true))]
  }

  /** On a coordinator snapshot the three sensors show the fields verbatim
      (no default is ever used) and the attributes carry its timestamp and
      availability. */
  lemma SensorsShowSnapshot(st: State, available: bool, now: string)
    ensures NativeValue(Descriptions[0].key, Snapshot(st, available, now)) == Str(st.status.Name())
    ensures NativeValue(Descriptions[1].key, Snapshot(st, available, now)) == Int(st.conversationCount)
    ensures NativeValue(Descriptions[2].key, Snapshot(st, available, now)) == Str(st.lastResponse)
    ensures ExtraStateAttributes(Snapshot(st, available, now)) == map[LastUpdateKey := Str(now), AvailableKey := Bool(available)]
  {
  }

  /** A data dictionary that lacks a key gets that key's default. No refresh
      of either coordinator produces such a dictionary: every snapshot holds
      all five keys (see `SensorsShowSnapshot`). */
  lemma SensorsShowDefaults(data: map<string, Value>)
    ensures StatusKey !in data ==> NativeValue(StatusKey, data) == Str("unknown")
    ensures CountKey !in data ==> NativeValue(CountKey, data) == Int(0)
    ensures LastResponseKey !in data ==> NativeValue(LastResponseKey, data) == Str("No response yet")
    ensures LastUpdateKey !in data ==> ExtraStateAttributes(data)[LastUpdateKey] == Null
    ensures AvailableKey !in data ==> ExtraStateAttributes(data)[AvailableKey] == Bool(true)
  {
  }
}
