/** What the correlator means: the same rules over the unbounded log of queued tasks, of which
    only the last 256 may still be joined (gst/rockchipmpp/gstmppfaultbridge.c:124-366). */
module FaultLog {
  import opened Options

  const MAP_SIZE := 256
  const MAX_OWNED := 32

  /** GST_MPP_FAULT_CORE_UNASSIGNED: queued, but no core selected yet. */
  const UNASSIGNED := -1

  datatype Event =
    | Queued(session: int, task: int)
    | CoreSelected(task: int, core: int)
    | Done(task: int, core: int)
    | Error(task: int, core: int)
    | Lost
    | Other

  datatype Verdict =
    | Ignored
    | LostEvents
    | QueuedTask
    | SelectedCore
    | Ambiguous
    | Retired
    | FaultOwned
    | FaultForeign
    | FaultUnattributed

  /** One queued task; `core` is UNASSIGNED until a selection binds it. */
  datatype Record = Record(task: int, session: int, core: int, live: bool)

  datatype Log = Log(records: seq<Record>, owned: seq<int>, resolved: bool,
                     ownedFaults: nat, foreignFaults: nat, unattributed: nat, lost: nat)

  const Empty := Log([], [], false, 0, 0, 0, 0)

  /** Index of the oldest record the ring still has. */
  function Oldest(records: seq<Record>): (lo: nat)
    ensures lo <= |records|
  {
    if |records| <= MAP_SIZE then 0 else |records| - MAP_SIZE
  }

  predicate Joins(r: Record, task: int, core: int) {
    r.live && r.task == task && r.core == core
  }

  /** First record from `lo` on that joins, or |records|. */
  function FirstFrom(records: seq<Record>, lo: nat, task: int, core: int): (k: nat)
    requires lo <= |records|
    ensures lo <= k <= |records|
    ensures k < |records| ==> Joins(records[k], task, core)
    ensures forall i :: lo <= i < k ==> !Joins(records[i], task, core)
    decreases |records| - lo
  {
    if lo == |records| || Joins(records[lo], task, core) then lo else FirstFrom(records, lo + 1, task, core)
  }

  /** Last record from `lo` on that joins, or |records|. */
  function LastFrom(records: seq<Record>, lo: nat, task: int, core: int): (k: nat)
    requires lo <= |records|
    ensures lo <= k <= |records|
    ensures k < |records| ==> Joins(records[k], task, core)
    ensures k < |records| ==> forall i :: k < i < |records| ==> !Joins(records[i], task, core)
    ensures k == |records| ==> forall i :: lo <= i < |records| ==> !Joins(records[i], task, core)
    decreases |records| - lo
  {
    if lo == |records| then lo
    else
      var k := LastFrom(records, lo + 1, task, core);
      if k < |records| then k else if Joins(records[lo], task, core) then lo else |records|
  }

  function Retire(r: Record): Record { r.(live := false, core := UNASSIGNED) }

  function RetireAt(records: seq<Record>, k: nat): seq<Record>
    requires k < |records|
  {
    records[k := Retire(records[k])]
  }

  /** gst_mpp_fault_drop_unbound: every joinable unbound record of the task is abandoned. */
  function DropUnbound(records: seq<Record>, task: int): (r: seq<Record>)
    ensures |r| == |records|
    ensures forall i :: 0 <= i < |r| ==>
              r[i] == if i >= Oldest(records) && Joins(records[i], task, UNASSIGNED) then Retire(records[i])
                      else records[i]
  {
    seq(|records|, i requires 0 <= i < |records| =>
      if i >= Oldest(records) && Joins(records[i], task, UNASSIGNED) then Retire(records[i]) else records[i])
  }

  function OnQueued(l: Log, session: int, task: int): Log {
    l.(records := l.records + [Record(task, session, UNASSIGNED, true)])
  }

  /** A selection binds the one unbound record of its task; two or more are all abandoned. */
  function OnSelected(l: Log, task: int, core: int): (Log, Verdict) {
    var i := FirstFrom(l.records, Oldest(l.records), task, UNASSIGNED);
    if i == |l.records| then (l, Ignored)
    else if FirstFrom(l.records, i + 1, task, UNASSIGNED) < |l.records| then
      (l.(records := DropUnbound(l.records, task)), Ambiguous)
    else (l.(records := l.records[i := l.records[i].(core := core)]), SelectedCore)
  }

  function OnDone(l: Log, task: int, core: int): (Log, Verdict) {
    var k := LastFrom(l.records, Oldest(l.records), task, core);
    if k == |l.records| then (l, Ignored)
    else (l.(records := RetireAt(l.records, k)), Retired)
  }

  function OnError(l: Log, task: int, core: int): (Log, Verdict) {
    var k := LastFrom(l.records, Oldest(l.records), task, core);
    if k == |l.records| then (l.(unattributed := l.unattributed + 1), FaultUnattributed)
    else
      var t := l.(records := RetireAt(l.records, k));
      if !l.resolved then (t.(unattributed := l.unattributed + 1), FaultUnattributed)
      else if l.records[k].session !in l.owned then (t.(foreignFaults := l.foreignFaults + 1), FaultForeign)
      else (t.(ownedFaults := l.ownedFaults + 1), FaultOwned)
  }

  /** gst_mpp_fault_correlator_feed_line, on a line already parsed. */
  function Fed(l: Log, e: Event): (Log, Verdict) {
    match e
    case Queued(session, task) => (OnQueued(l, session, task), QueuedTask)
    case CoreSelected(task, core) => OnSelected(l, task, core)
    case Done(task, core) => OnDone(l, task, core)
    case Error(task, core) => OnError(l, task, core)
    case Lost => (l.(lost := l.lost + 1), LostEvents)
    case Other => (l, Ignored)
  }

  /** gst_mpp_fault_correlator_add_session: a new session enters, the oldest leaves a full list. */
  function Added(owned: seq<int>, session: int): seq<int> {
    if session in owned then owned
    else (if |owned| == MAX_OWNED then owned[1..] else owned) + [session]
  }

  /** What reaches the correlator. */
  datatype Input = Feed(e: Event) | AddSession(session: int) | MarkResolved

  function Applied(l: Log, x: Input): Log {
    match x
    case Feed(e) => Fed(l, e).0
    case AddSession(session) => l.(owned := Added(l.owned, session))
    case MarkResolved => l.(resolved := true)
  }

  function Run(h: seq<Input>): Log {
    if h == [] then Empty else Applied(Run(h[..|h| - 1]), h[|h| - 1])
  }
}
