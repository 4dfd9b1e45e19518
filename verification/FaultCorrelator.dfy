/** The correlator's bounded state (gst/rockchipmpp/gstmppfaultbridge.h:93-109): a ring of 256
    slots and the owned session list, updated in place by scans of the whole ring. */
module FaultCorrelator {
  import opened Options
  import opened FaultLog

  /** `order` is the source's seq: the 1-based insertion number, 0 for a free slot. */
  datatype Entry = Entry(task: int, core: int, session: int, order: nat)

  function SlotOf(k: nat): (slot: nat)
    ensures slot < MAP_SIZE
  {
    k % MAP_SIZE
  }

  /** The record a slot stands for: the newest one with the slot's index modulo the ring size. */
  function RecordOf(count: nat, slot: nat): (k: int)
    requires slot < MAP_SIZE
    ensures k < count
    ensures k >= 0 ==> SlotOf(k) == slot && k + MAP_SIZE >= count
    ensures k < 0 ==> count <= slot
  {
    if count <= slot then -1 else slot + (count - 1 - slot) / MAP_SIZE * MAP_SIZE
  }

  predicate Holds(e: Entry, records: seq<Record>, slot: nat)
    requires slot < MAP_SIZE
  {
    var k := RecordOf(|records|, slot);
    if k < 0 || !records[k].live then e.order == 0
    else e == Entry(records[k].task, records[k].core, records[k].session, k + 1)
  }

  predicate Mirrors(entries: seq<Entry>, records: seq<Record>) {
    |entries| == MAP_SIZE && forall slot: nat :: slot < MAP_SIZE ==> Holds(entries[slot], records, slot)
  }

  predicate Matches(e: Entry, task: int, core: int) {
    e.order != 0 && e.task == task && e.core == core
  }

  /** Every record the ring still has sits in the slot of its number. */
  lemma SlotOfRecord(count: nat, k: nat)
    requires k < count <= k + MAP_SIZE
    ensures RecordOf(count, SlotOf(k)) == k
  {}

  /** A matching slot holds a joinable record of the window, under its own number. */
  lemma RecordAtSlot(entries: seq<Entry>, records: seq<Record>, task: int, core: int, slot: nat)
    requires Mirrors(entries, records) && slot < MAP_SIZE && Matches(entries[slot], task, core)
    ensures var k := entries[slot].order - 1;
            && Oldest(records) <= k < |records| && Joins(records[k], task, core) && SlotOf(k) == slot
            && records[k].session == entries[slot].session
  {
    assert Holds(entries[slot], records, slot);
  }

  /** A joinable record of the window is found in its slot. */
  lemma SlotAtRecord(entries: seq<Entry>, records: seq<Record>, task: int, core: int, k: nat)
    requires Mirrors(entries, records) && Oldest(records) <= k < |records| && Joins(records[k], task, core)
    ensures Matches(entries[SlotOf(k)], task, core) && entries[SlotOf(k)].order == k + 1
    ensures records[k].session == entries[SlotOf(k)].session
  {
    SlotOfRecord(|records|, k);
    assert Holds(entries[SlotOf(k)], records, SlotOf(k));
  }

  /** Writing the slot of record `k` mirrors an update of that record. */
  lemma UpdateMirrors(entries: seq<Entry>, records: seq<Record>, k: nat, e: Entry, r: Record)
    requires Mirrors(entries, records) && Oldest(records) <= k < |records|
    requires if r.live then e == Entry(r.task, r.core, r.session, k + 1) else e.order == 0
    ensures Mirrors(entries[SlotOf(k) := e], records[k := r])
  {
    SlotOfRecord(|records|, k);
    var q := entries[SlotOf(k) := e];
    forall slot: nat | slot < MAP_SIZE ensures Holds(q[slot], records[k := r], slot) {
      assert Holds(entries[slot], records, slot);
    }
  }

  /** Writing the next slot mirrors a new record; the one it overwrites leaves the window. */
  lemma InsertMirrors(entries: seq<Entry>, records: seq<Record>, r: Record)
    requires Mirrors(entries, records) && r.live
    ensures Mirrors(entries[SlotOf(|records|) := Entry(r.task, r.core, r.session, |records| + 1)], records + [r])
  {
    var n := |records|;
    var q := entries[SlotOf(n) := Entry(r.task, r.core, r.session, n + 1)];
    SlotOfRecord(n + 1, n);
    forall slot: nat | slot < MAP_SIZE ensures Holds(q[slot], records + [r], slot) {
      assert Holds(entries[slot], records, slot);
      if slot != SlotOf(n) { OtherSlotHolds(entries[slot], records, r, slot); }
    }
  }

  lemma OtherSlotHolds(e: Entry, records: seq<Record>, r: Record, slot: nat)
    requires slot < MAP_SIZE && slot != SlotOf(|records|) && Holds(e, records, slot)
    ensures Holds(e, records + [r], slot)
  {
    assert RecordOf(|records| + 1, slot) == RecordOf(|records|, slot);
  }

  /** What the scan for unbound entries knows after `i` slots: the oldest match, and another one
      if it has seen several. */
  ghost predicate Scanned(s: seq<Entry>, i: nat, task: int, best: Option<nat>, candidates: nat, other: nat)
    requires i <= |s|
  {
    && (best.None? <==> candidates == 0)
    && (best.None? ==> forall j :: 0 <= j < i ==> !Matches(s[j], task, UNASSIGNED))
    && (best.Some? ==>
          && best.value < i && Matches(s[best.value], task, UNASSIGNED)
          && forall j :: 0 <= j < i && Matches(s[j], task, UNASSIGNED) ==>
               s[best.value].order <= s[j].order && (candidates == 1 ==> j == best.value))
    && (candidates > 1 ==> other < i && Matches(s[other], task, UNASSIGNED) && other != best.value)
  }

  /** The scan's choice is the oldest unbound record of the window. */
  lemma ScannedBest(s: seq<Entry>, records: seq<Record>, task: int,
                    best: Option<nat>, candidates: nat, other: nat)
    requires Mirrors(s, records) && Scanned(s, MAP_SIZE, task, best, candidates, other)
    ensures var k := FirstFrom(records, Oldest(records), task, UNASSIGNED);
            best == if k == |records| then None else Some(SlotOf(k))
  {
    var k := FirstFrom(records, Oldest(records), task, UNASSIGNED);
    if best.Some? {
      RecordAtSlot(s, records, task, UNASSIGNED, best.value);
    }
    if k < |records| {
      SlotAtRecord(s, records, task, UNASSIGNED, k);
    }
  }

  /** It counts more than one exactly when a later record is unbound too. */
  lemma ScannedCount(s: seq<Entry>, records: seq<Record>, task: int,
                     best: Option<nat>, candidates: nat, other: nat, k: nat)
    requires Mirrors(s, records) && Scanned(s, MAP_SIZE, task, best, candidates, other)
    requires Oldest(records) <= k < |records| && best == Some(SlotOf(k))
    requires Joins(records[k], task, UNASSIGNED)
    requires forall i :: Oldest(records) <= i < k ==> !Joins(records[i], task, UNASSIGNED)
    ensures candidates > 1 ==> exists m :: k < m < |records| && Joins(records[m], task, UNASSIGNED)
    ensures forall m :: k < m < |records| && Joins(records[m], task, UNASSIGNED) ==> candidates > 1
  {
    if candidates > 1 {
      RecordAtSlot(s, records, task, UNASSIGNED, other);
      assert Joins(records[s[other].order - 1], task, UNASSIGNED);
    }
    forall m | k < m < |records| && Joins(records[m], task, UNASSIGNED) ensures candidates > 1 {
      SlotAtRecord(s, records, task, UNASSIGNED, m);
      SlotAtRecord(s, records, task, UNASSIGNED, k);
    }
  }

  class Correlator {
    const entries: array<Entry>
    var next: nat
    var seqno: nat
    var owned: seq<int>
    var resolved: bool
    var ownedFaults: nat
    var foreignFaults: nat
    var unattributed: nat
    var lost: nat

    /** The unbounded log this ring stands for. */
    ghost var records: seq<Record>

    ghost predicate Valid()
      reads this, entries
    {
      && entries.Length == MAP_SIZE
      && seqno == |records| && next == SlotOf(seqno)
      && Mirrors(entries[..], records)
    }

    ghost function View(): Log
      reads this
    {
      Log(records, owned, resolved, ownedFaults, foreignFaults, unattributed, lost)
    }

    constructor ()
      ensures Valid() && View() == Empty && fresh(entries)
    {
      entries := new Entry[MAP_SIZE](_ => Entry(0, 0, 0, 0));
      next, seqno := 0, 0;
      owned, resolved := [], false;
      ownedFaults, foreignFaults, unattributed, lost := 0, 0, 0, 0;
      records := [];
    }

    /** gst_mpp_fault_correlator_owns_session. */
    method OwnsSession(session: int) returns (owns: bool)
      ensures owns <==> session in owned
    {
      var i := 0;
      while i < |owned|
        invariant 0 <= i <= |owned|
        invariant session !in owned[..i]
      {
        if owned[i] == session { return true; }
        i := i + 1;
      }
      owns := false;
      assert owned[..i] == owned;
    }

    /** gst_mpp_fault_correlator_add_session. */
    method AddSession(session: int) returns (added: bool)
      requires Valid()
      modifies this
      ensures Valid() && View() == Applied(old(View()), Input.AddSession(session))
      ensures added <==> session !in old(owned)
    {
      var owns := OwnsSession(session);
      if owns { return false; }
      if |owned| == MAX_OWNED { owned := owned[1..]; }
      owned := owned + [session];
      added := true;
    }

    /** gst_mpp_fault_correlator_mark_resolved. */
    method MarkResolved()
      requires Valid()
      modifies this
      ensures Valid() && View() == Applied(old(View()), Input.MarkResolved)
    {
      resolved := true;
    }

    /** gst_mpp_fault_lookup: the newest joinable record, found under its slot. */
    method Lookup(task: int, core: int) returns (best: Option<nat>)
      requires Valid()
      ensures var k := LastFrom(records, Oldest(records), task, core);
              best == if k == |records| then None else Some(SlotOf(k))
      ensures best.Some? ==> best.value < MAP_SIZE
    {
      best := None;
      var i := 0;
      while i < MAP_SIZE
        invariant 0 <= i <= MAP_SIZE
        invariant best.None? ==> forall j :: 0 <= j < i ==> !Matches(entries[j], task, core)
        invariant best.Some? ==> best.value < i && Matches(entries[best.value], task, core)
        invariant best.Some? ==>
                    forall j :: 0 <= j < i && Matches(entries[j], task, core) ==>
                      entries[j].order <= entries[best.value].order
      {
        var entry := entries[i];
        if entry.order == 0 || entry.task != task {
        } else if entry.core != core {
        } else if best.None? || entry.order > entries[best.value].order {
          best := Some(i);
        }
        i := i + 1;
      }
      var k := LastFrom(records, Oldest(records), task, core);
      if k < |records| { SlotAtRecord(entries[..], records, task, core, k); }
      if best.Some? { RecordAtSlot(entries[..], records, task, core, best.value); }
    }

    /** gst_mpp_fault_unbound: the oldest joinable record without a core, and how many there are. */
    method Unbound(task: int) returns (best: Option<nat>, candidates: nat)
      requires Valid()
      ensures var k := FirstFrom(records, Oldest(records), task, UNASSIGNED);
              && best == (if k == |records| then None else Some(SlotOf(k)))
              && (candidates == 0 <==> k == |records|)
              && (candidates > 1 <==> k < |records| && FirstFrom(records, k + 1, task, UNASSIGNED) < |records|)
      ensures best.Some? ==> best.value < MAP_SIZE
    {
      best, candidates := None, 0;
      ghost var other: nat := 0;
      var i := 0;
      while i < MAP_SIZE
        invariant 0 <= i <= MAP_SIZE
        invariant Scanned(entries[..], i, task, best, candidates, other)
      {
        var entry := entries[i];
        if entry.order == 0 || entry.task != task {
        } else if entry.core != UNASSIGNED {
        } else {
          candidates := candidates + 1;
          if best.None? {
            best := Some(i);
          } else if entry.order < entries[best.value].order {
            other := best.value;
            best := Some(i);
          } else {
            other := i;
          }
        }
        i := i + 1;
      }
      ScannedBest(entries[..], records, task, best, candidates, other);
      ghost var k := FirstFrom(records, Oldest(records), task, UNASSIGNED);
      if k < |records| { ScannedCount(entries[..], records, task, best, candidates, other, k); }
    }

    /** gst_mpp_fault_insert. */
    method Insert(task: int, session: int)
      requires Valid()
      modifies this, entries
      ensures Valid() && View() == OnQueued(old(View()), session, task)
    {
      ghost var r := Record(task, session, UNASSIGNED, true);
      InsertMirrors(entries[..], records, r);
      entries[next] := Entry(task, UNASSIGNED, session, seqno + 1);
      next := (next + 1) % MAP_SIZE;
      seqno := seqno + 1;
      records := records + [r];
    }

    /** gst_mpp_fault_retire, on the slot of record `k`. */
    method Retire(slot: nat, ghost k: nat)
      requires Valid() && Oldest(records) <= k < |records| && slot == SlotOf(k)
      modifies this`records, entries
      ensures Valid() && records == RetireAt(old(records), k)
    {
      UpdateMirrors(entries[..], records, k, entries[slot].(order := 0, core := UNASSIGNED),
                    FaultLog.Retire(records[k]));
      entries[slot] := entries[slot].(order := 0, core := UNASSIGNED);
      records := RetireAt(records, k);
    }

    /** gst_mpp_fault_drop_unbound. */
    method DropUnbound(task: int)
      requires Valid()
      modifies this`records, entries
      ensures Valid() && records == FaultLog.DropUnbound(old(records), task)
    {
      var i := 0;
      ghost var was := entries[..];
      while i < MAP_SIZE
        modifies entries
        invariant 0 <= i <= MAP_SIZE
        invariant Mirrors(was, records)
        invariant forall j :: 0 <= j < MAP_SIZE ==>
                    entries[j] == if j < i && Matches(was[j], task, UNASSIGNED) then was[j].(order := 0) else was[j]
      {
        var entry := entries[i];
        if entry.order == 0 || entry.task != task {
        } else if entry.core == UNASSIGNED {
          entries[i] := entry.(order := 0, core := UNASSIGNED);
        }
        i := i + 1;
      }
      ghost var dropped := FaultLog.DropUnbound(records, task);
      forall slot: nat | slot < MAP_SIZE ensures Holds(entries[slot], dropped, slot) {
        assert Holds(was[slot], records, slot);
      }
      records := dropped;
    }

    /** gst_mpp_fault_correlator_feed_line, once the line has been parsed. */
    method Feed(e: Event) returns (verdict: Verdict)
      requires Valid()
      modifies this, entries
      ensures Valid() && (View(), verdict) == Fed(old(View()), e)
    {
      match e
      case Lost =>
        lost := lost + 1;
        verdict := LostEvents;
      case Other =>
        verdict := Ignored;
      case Queued(session, task) =>
        Insert(task, session);
        verdict := QueuedTask;
      case CoreSelected(task, core) =>
        verdict := Select(task, core);
      case Done(task, core) =>
        var found := Lookup(task, core);
        if found.None? { return Ignored; }
        Retire(found.value, LastFrom(records, Oldest(records), task, core));
        verdict := Retired;
      case Error(task, core) =>
        verdict := Fault(task, core);
    }

    /** The mpp_core_selected branch of feed_line. */
    method Select(task: int, core: int) returns (verdict: Verdict)
      requires Valid()
      modifies this`records, entries
      ensures Valid() && (View(), verdict) == OnSelected(old(View()), task, core)
    {
      var found, candidates := Unbound(task);
      if found.None? { return Ignored; }
      if candidates > 1 {
        DropUnbound(task);
        return Ambiguous;
      }
      ghost var k := FirstFrom(records, Oldest(records), task, UNASSIGNED);
      SlotAtRecord(entries[..], records, task, UNASSIGNED, k);
      UpdateMirrors(entries[..], records, k, entries[found.value].(core := core), records[k].(core := core));
      entries[found.value] := entries[found.value].(core := core);
      records := records[k := records[k].(core := core)];
      verdict := SelectedCore;
    }

    /** The mpp_task_error branch of feed_line. */
    method Fault(task: int, core: int) returns (verdict: Verdict)
      requires Valid()
      modifies this, entries
      ensures Valid() && (View(), verdict) == OnError(old(View()), task, core)
    {
      var found := Lookup(task, core);
      if found.None? {
        unattributed := unattributed + 1;
        return FaultUnattributed;
      }
      ghost var k := LastFrom(records, Oldest(records), task, core);
      SlotAtRecord(entries[..], records, task, core, k);
      var session := entries[found.value].session;
      Retire(found.value, k);
      if !resolved {
        unattributed := unattributed + 1;
        return FaultUnattributed;
      }
      var owns := OwnsSession(session);
      if !owns {
        foreignFaults := foreignFaults + 1;
        return FaultForeign;
      }
      ownedFaults := ownedFaults + 1;
      verdict := FaultOwned;
    }
  }
}
