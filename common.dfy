/** Values shared by every component of the AI Assistant integration: the
    dictionary values the host framework hands around, the configuration
    entry, and the coordinator's observable conversation state. */
module AssistantData {

  datatype Option<+T> = None | Some(value: T)

  /** A value held in one of the integration's dictionaries (entry data,
      form input, coordinator snapshot). `Null` is Python's `None`. */
  datatype Value = Str(s: string) | Int(i: int) | Bool(b: bool) | Null

  /** `d.get(k)`: the value under `k`, or nothing when the key is absent. */
  function Get<K, V>(d: map<K, V>, k: K): (r: Option<V>)
    ensures r.Some? <==> k in d
    ensures r.Some? ==> r.value == d[k]
  {
    if k in d then Some(d[k]) else None
  }

  /** `d.get(k, default)`. */
  function GetOr<K, V>(d: map<K, V>, k: K, default: V): V
  {
    if k in d then d[k] else default
  }

  /** Python truthiness of a looked-up value: a missing key, `None`, the
      empty string, 0 and False are all false. */
  predicate Truthy(v: Option<Value>)
  {
    match v
    case None => false
    case Some(Str(s)) => s != ""
    case Some(Int(i)) => i != 0
    case Some(Bool(b)) => b
    case Some(Null) => false
  }

  /** A configuration entry as the framework stores it. */
  datatype ConfigEntry = ConfigEntry(entryId: string, data: map<string, Value>)

  /** The coordinator's status flag. */
  datatype Status = Online | Thinking | Error
  {
    /** The text the coordinator stores for this status. */
    function Name(): string
    {
      match this
      case Online => "online"
      case Thinking => "thinking"
      case Error => "error"
    }
  }

  /** The coordinator fields a listener can observe. */
  datatype State = State(status: Status, lastResponse: string, conversationCount: nat, available: bool)

  /** What both coordinators hold right after construction. */
  const InitialState := State(Online, "Ready", 0, true)

  // Keys of the snapshot dictionary (the ATTR_* constants of the integration).
  const StatusKey := "status"
  const LastResponseKey := "last_response"
  const CountKey := "conversation_count"
  const AvailableKey := "available"
  const LastUpdateKey := "last_update"

  /** The dictionary `_async_update_data` builds from the fields, with the
      reported availability and the refresh time passed in. */
  function Snapshot(st: State, available: bool, lastUpdate: string): map<string, Value>
  {
    map[StatusKey := Str(st.status.Name()),
        LastResponseKey := Str(st.lastResponse),
        CountKey := Int(st.conversationCount),
        AvailableKey := Bool(available),
        LastUpdateKey := Str(lastUpdate)]
  }

  /** Two refreshes with no mutation between them agree on every key except
      the refresh timestamp. */
  lemma SnapshotsDifferOnlyInTimestamp(st: State, available: bool, t1: string, t2: string)
    ensures Snapshot(st, available, t1).Keys == Snapshot(st, available, t2).Keys
    ensures forall k :: k in Snapshot(st, available, t1) && k != LastUpdateKey ==>
              Snapshot(st, available, t1)[k] == Snapshot(st, available, t2)[k]
  {
  }
}
