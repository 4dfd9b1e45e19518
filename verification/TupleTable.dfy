/** Health of each conversion tuple: a circuit breaker per operation, input and output format
    (gst/rockchipmpp/gstmpprgatuple.c:12-112). */
module TupleTable {
  import opened MachineWords
  import opened Options

  const THRESHOLD := 8
  const RETRY_INTERVAL := 8

  datatype Key = Key(operation: int, inFormat: int, outFormat: int)

  datatype Health = Health(failures: nat, skipped: nat, demoted: bool)

  const Fresh := Health(0, 0, false)

  datatype Event = Check | Success | Failure

  /** What an event does to the health of its key; failures and skips are 32-bit words. */
  function Updated(x: Health, e: Event): Health {
    match e
    case Check => if Skips(x) then x.(skipped := (x.skipped + 1) % U32) else x.(skipped := 0)
    case Success => x.(failures := 0, demoted := false)
    case Failure =>
      var n := (x.failures + 1) % U32;
      if !x.demoted && n >= THRESHOLD then Health(THRESHOLD, 0, true) else x.(failures := n)
  }

  /** A check that says no. */
  predicate Skips(x: Health) { x.demoted && (x.skipped + 1) % U32 <= RETRY_INTERVAL }

  // ---- the table

  datatype Entry = Entry(key: Key, health: Health)

  /** Position of the key, or |entries|. */
  function At(entries: seq<Entry>, key: Key): (i: nat)
    ensures i <= |entries| && (i < |entries| ==> entries[i].key == key)
    ensures forall j :: 0 <= j < i ==> entries[j].key != key
  {
    if entries == [] || entries[0].key == key then 0 else 1 + At(entries[1..], key)
  }

  /** What the table says about a key: a key it does not hold is healthy. */
  function HealthOf(entries: seq<Entry>, key: Key): Health {
    var i := At(entries, key);
    if i < |entries| then entries[i].health else Fresh
  }

  predicate Distinct(entries: seq<Entry>) {
    forall i, j :: 0 <= i < j < |entries| ==> entries[i].key != entries[j].key
  }

  lemma AtIs(entries: seq<Entry>, key: Key, i: nat)
    requires i <= |entries| && (i < |entries| ==> entries[i].key == key)
    requires forall j :: 0 <= j < i ==> entries[j].key != key
    ensures At(entries, key) == i
  {
    var k := At(entries, key);
    assert k < |entries| ==> entries[k].key == key;
    assert i < |entries| ==> entries[i].key == key;
  }

  /** Writing one entry changes what the table says about its key and about no other. */
  lemma SetHealth(entries: seq<Entry>, i: nat, health: Health, key: Key)
    requires Distinct(entries) && i < |entries|
    ensures var r := entries[i := entries[i].(health := health)];
            && Distinct(r)
            && HealthOf(r, key) == if key == entries[i].key then health else HealthOf(entries, key)
  {
    var r := entries[i := entries[i].(health := health)];
    if key == entries[i].key { AtIs(r, key, i); } else { AtIs(r, key, At(entries, key)); }
  }

  lemma Appended(entries: seq<Entry>, key: Key, other: Key)
    requires Distinct(entries) && At(entries, key) == |entries|
    ensures var r := entries + [Entry(key, Fresh)];
            Distinct(r) && HealthOf(r, other) == HealthOf(entries, other)
  {
    var r := entries + [Entry(key, Fresh)];
    var i := At(entries, other);
    if i < |entries| || other == key { AtIs(r, other, i); } else { AtIs(r, other, i + 1); }
  }

  /** One event on the table: the key is found or appended, and its health updated in place. */
  function Recorded(entries: seq<Entry>, key: Key, e: Event): seq<Entry> {
    var i := At(entries, key);
    var found := if i < |entries| then entries else entries + [Entry(key, Fresh)];
    found[i := found[i].(health := Updated(found[i].health, e))]
  }

  /** An event changes what the table says about its key and about no other. */
  lemma RecordedHealth(entries: seq<Entry>, key: Key, e: Event, k: Key)
    requires Distinct(entries)
    ensures Distinct(Recorded(entries, key, e))
    ensures HealthOf(Recorded(entries, key, e), k)
            == if k == key then Updated(HealthOf(entries, k), e) else HealthOf(entries, k)
  {
    var i := At(entries, key);
    var found := if i < |entries| then entries else entries + [Entry(key, Fresh)];
    if i == |entries| { Appended(entries, key, k); }
    SetHealth(found, i, Updated(found[i].health, e), k);
  }

  class Table {
    var entries: seq<Entry>

    constructor ()
      ensures entries == []
    {
      entries := [];
    }

    ghost predicate Valid()
      reads this
    {
      Distinct(entries)
    }

    ghost function View(key: Key): Health
      reads this
    {
      HealthOf(entries, key)
    }

    /** gst_mpp_rga_tuple_find. */
    method Find(key: Key, create: bool) returns (found: Option<nat>)
      requires Valid()
      modifies this
      ensures Valid() && forall k :: View(k) == old(View(k))
      ensures found.Some? ==> found.value == At(old(entries), key)
      ensures create ==> entries == if At(old(entries), key) < |old(entries)| then old(entries)
                                    else old(entries) + [Entry(key, Fresh)]
      ensures !create ==> entries == old(entries)
      ensures found.Some? ==> found.value < |entries| && entries[found.value].key == key
                              && entries[found.value].health == View(key)
      ensures found.None? ==> !create && View(key) == Fresh
    {
      var i := 0;
      while i < |entries|
        invariant 0 <= i <= |entries| && entries == old(entries)
        invariant forall j :: 0 <= j < i ==> entries[j].key != key
      {
        if entries[i].key == key {
          AtIs(entries, key, i);
          return Some(i);
        }
        i := i + 1;
      }
      AtIs(entries, key, i);
      if create {
        forall k ensures HealthOf(entries + [Entry(key, Fresh)], k) == HealthOf(entries, k) {
          Appended(entries, key, k);
        }
        Appended(entries, key, key);
        entries := entries + [Entry(key, Fresh)];
        AtIs(entries, key, i);
        return Some(i);
      }
      found := None;
    }

    /** Stores a health under the key found at `i`. */
    method Store(i: nat, health: Health)
      requires Valid() && i < |entries|
      modifies this
      ensures Valid() && entries == old(entries)[i := old(entries)[i].(health := health)]
    {
      SetHealth(entries, i, health, entries[i].key);
      entries := entries[i := entries[i].(health := health)];
    }

    /** gst_mpp_rga_tuple_should_try. */
    method ShouldTry(key: Key) returns (try: bool)
      requires Valid()
      modifies this
      ensures Valid() && try == !Skips(old(View(key)))
      ensures entries == Recorded(old(entries), key, Check)
    {
      var found := Find(key, true);
      var i := found.value;
      var tuple := entries[i].health;
      if tuple.demoted {
        tuple := tuple.(skipped := (tuple.skipped + 1) % U32);
        if tuple.skipped <= RETRY_INTERVAL {
          Store(i, tuple);
          return false;
        }
      }
      Store(i, tuple.(skipped := 0));
      try := true;
    }

    /** gst_mpp_rga_tuple_succeeded. */
    method Succeeded(key: Key)
      requires Valid()
      modifies this
      ensures Valid()
      ensures entries == Recorded(old(entries), key, Success)
    {
      var found := Find(key, true);
      Store(found.value, entries[found.value].health.(failures := 0, demoted := false));
    }

    /** gst_mpp_rga_tuple_failed. */
    method Failed(key: Key) returns (newlyDemoted: bool, failures: nat)
      requires Valid()
      modifies this
      ensures Valid()
      ensures entries == Recorded(old(entries), key, Failure)
      ensures newlyDemoted == (!old(View(key)).demoted && View(key).demoted) && failures == View(key).failures
    {
      RecordedHealth(entries, key, Failure, key);
      var found := Find(key, true);
      var i := found.value;
      var tuple := entries[i].health;
      tuple := tuple.(failures := (tuple.failures + 1) % U32);
      newlyDemoted := !tuple.demoted && tuple.failures >= THRESHOLD;
      if newlyDemoted { tuple := Health(THRESHOLD, 0, true); }
      Store(i, tuple);
      failures := tuple.failures;
    }

    /** gst_mpp_rga_tuple_failures. */
    method Failures(key: Key) returns (failures: nat)
      requires Valid()
      modifies this
      ensures entries == old(entries) && failures == View(key).failures
    {
      var found := Find(key, false);
      failures := if found.Some? then entries[found.value].health.failures else 0;
    }
  }

  // ---- what the health of a key says about its past

  /** The health after these events of one key. */
  function Replay(h: seq<Event>): Health {
    if h == [] then Fresh else Updated(Replay(h[..|h| - 1]), h[|h| - 1])
  }

  /** Failures since the last success. */
  function Trailing(h: seq<Event>): nat {
    if h == [] || h[|h| - 1].Success? then 0
    else Trailing(h[..|h| - 1]) + if h[|h| - 1].Failure? then 1 else 0
  }

  /** A key is demoted exactly when its last eight or more outcomes were failures; the counter is their number,
      as a 32-bit word. */
  lemma {:induction false} DemotedMeansEightFailures(h: seq<Event>)
    ensures Replay(h).demoted <==> Trailing(h) >= THRESHOLD
    ensures Replay(h).failures == Trailing(h) % U32
    ensures Replay(h).skipped <= RETRY_INTERVAL
    decreases |h|
  {
    if h != [] {
      var p := h[..|h| - 1];
      DemotedMeansEightFailures(p);
      if h[|h| - 1].Failure? { Successor(Trailing(p)); }
    }
  }

  lemma Successor(n: nat)
    ensures (n % U32 + 1) % U32 == (n + 1) % U32
  {}

  function Run(x: Health, events: seq<Event>): Health {
    if events == [] then x else Updated(Run(x, events[..|events| - 1]), events[|events| - 1])
  }

  function Checks(events: seq<Event>): nat {
    if events == [] then 0
    else Checks(events[..|events| - 1]) + if events[|events| - 1].Check? then 1 else 0
  }

  /** How many of the checks say yes. */
  function Passes(x: Health, events: seq<Event>): nat {
    if events == [] then 0
    else
      var p, e := events[..|events| - 1], events[|events| - 1];
      Passes(x, p) + if e.Check? && !Skips(Run(x, p)) then 1 else 0
  }

  const CYCLE := RETRY_INTERVAL + 1

  lemma CycleStep(n: nat)
    ensures n % CYCLE == RETRY_INTERVAL ==> (n + 1) % CYCLE == 0 && (n + 1) / CYCLE == n / CYCLE + 1
    ensures n % CYCLE < RETRY_INTERVAL ==> (n + 1) % CYCLE == n % CYCLE + 1 && (n + 1) / CYCLE == n / CYCLE
  {}

  lemma DemotedStep(x: Health, e: Event)
    requires x.demoted && x.skipped <= RETRY_INTERVAL && !e.Success?
    ensures Updated(x, e).demoted
    ensures e.Check? ==> (Skips(x) <==> x.skipped < RETRY_INTERVAL)
    ensures Updated(x, e).skipped
            == if e.Failure? then x.skipped else if x.skipped < RETRY_INTERVAL then x.skipped + 1 else 0
  {}

  lemma LastEvent(x: Health, events: seq<Event>)
    requires events != []
    ensures var p, e := events[..|events| - 1], events[|events| - 1];
            && Run(x, events) == Updated(Run(x, p), e)
            && Checks(events) == Checks(p) + (if e.Check? then 1 else 0)
            && Passes(x, events) == Passes(x, p) + (if e.Check? && !Skips(Run(x, p)) then 1 else 0)
  {}

  /** While a key is demoted and nothing succeeds, checks pass in a cycle of nine, whatever fails in between. */
  lemma {:induction false} RetryCycle(x: Health, events: seq<Event>)
    requires x.demoted && x.skipped <= RETRY_INTERVAL
    requires forall i :: 0 <= i < |events| ==> !events[i].Success?
    ensures var y, n := Run(x, events), x.skipped + Checks(events);
            && y.demoted && y.skipped == n % CYCLE
            && Passes(x, events) == n / CYCLE
    decreases |events|
  {
    if events != [] {
      hide Run, Checks, Passes, Updated, Skips;
      var p := events[..|events| - 1];
      RetryCycle(x, p);
      CycleStep(x.skipped + Checks(p));
      LastEvent(x, events);
      DemotedStep(Run(x, p), events[|events| - 1]);
    }
  }

  /** So of any nine checks exactly one is let through. */
  lemma OneInNine(h: seq<Event>, events: seq<Event>)
    requires Trailing(h) >= THRESHOLD && Checks(events) == CYCLE
    requires forall i :: 0 <= i < |events| ==> !events[i].Success?
    ensures Passes(Replay(h), events) == 1
  {
    DemotedMeansEightFailures(h);
    var x := Replay(h);
    RetryCycle(x, events);
    OneCycle(x.skipped);
  }

  lemma OneCycle(skipped: nat)
    requires skipped <= RETRY_INTERVAL
    ensures (skipped + CYCLE) / CYCLE == 1
  {}

  // ---- many keys

  /** The events of one key. */
  function Project(h: seq<(Key, Event)>, key: Key): seq<Event> {
    if h == [] then []
    else
      var last := h[|h| - 1];
      Project(h[..|h| - 1], key) + if last.0 == key then [last.1] else []
  }

  lemma ProjectLast(h: seq<(Key, Event)>, key: Key)
    requires h != []
    ensures var p, last := Project(h[..|h| - 1], key), h[|h| - 1];
            if last.0 == key then Project(h, key) == p + [last.1] && Project(h, key)[..|p|] == p
            else Project(h, key) == p
  {}

  /** The table after a run of calls, from the empty one. */
  function TableOf(h: seq<(Key, Event)>): seq<Entry> {
    if h == [] then [] else Recorded(TableOf(h[..|h| - 1]), h[|h| - 1].0, h[|h| - 1].1)
  }

  lemma ReplayOne(h: seq<Event>, e: Event)
    ensures Replay(h + [e]) == Updated(Replay(h), e)
  {
    assert (h + [e])[..|h|] == h;
  }

  /** Over every run of calls the growing array has one entry for each key and says about it what the key's own
      events alone say: no call on another key matters. */
  lemma {:induction false} KeysAreIndependent(h: seq<(Key, Event)>, key: Key)
    ensures Distinct(TableOf(h)) && HealthOf(TableOf(h), key) == Replay(Project(h, key))
    decreases |h|
  {
    if h != [] {
      var p, last := h[..|h| - 1], h[|h| - 1];
      KeysAreIndependent(p, key);
      RecordedHealth(TableOf(p), last.0, last.1, key);
      ProjectLast(h, key);
      if last.0 == key { ReplayOne(Project(p, key), last.1); }
    }
  }

  /** So the table demotes a key exactly when the last eight or more outcomes of that key were failures, and counts
      them in a 32-bit word. */
  lemma TableDemotesAfterEight(h: seq<(Key, Event)>, key: Key)
    ensures HealthOf(TableOf(h), key).demoted <==> Trailing(Project(h, key)) >= THRESHOLD
    ensures HealthOf(TableOf(h), key).failures == Trailing(Project(h, key)) % U32
  {
    KeysAreIndependent(h, key);
    DemotedMeansEightFailures(Project(h, key));
  }

  /** How many checks of a key the table lets through. */
  function TablePasses(h: seq<(Key, Event)>, calls: seq<(Key, Event)>, key: Key): nat {
    if calls == [] then 0
    else
      var p, last := calls[..|calls| - 1], calls[|calls| - 1];
      TablePasses(h, p, key)
      + if last == (key, Check) && !Skips(HealthOf(TableOf(h + p), key)) then 1 else 0
  }

  lemma {:induction false} ProjectJoined(h: seq<(Key, Event)>, calls: seq<(Key, Event)>, key: Key)
    ensures Replay(Project(h + calls, key)) == Run(Replay(Project(h, key)), Project(calls, key))
    decreases |calls|
  {
    if calls == [] {
      assert h + calls == h;
    } else {
      var p, last := calls[..|calls| - 1], calls[|calls| - 1];
      assert (h + calls)[..|h + calls| - 1] == h + p;
      ProjectJoined(h, p, key);
      ProjectLast(h + calls, key);
      ProjectLast(calls, key);
      if last.0 == key { ReplayOne(Project(h + p, key), last.1); }
    }
  }

  lemma {:induction false} TablePassesAreItsOwn(h: seq<(Key, Event)>, calls: seq<(Key, Event)>, key: Key)
    ensures TablePasses(h, calls, key) == Passes(Replay(Project(h, key)), Project(calls, key))
    decreases |calls|
  {
    if calls != [] {
      var p, last := calls[..|calls| - 1], calls[|calls| - 1];
      TablePassesAreItsOwn(h, p, key);
      KeysAreIndependent(h + p, key);
      ProjectJoined(h, p, key);
      ProjectLast(calls, key);
      hide Project, Skips, TableOf, HealthOf, Replay;
    }
  }

  /** Of any nine checks of a demoted key without a success of that key exactly one is let through, whatever the table
      is asked about other keys in between. */
  lemma {:induction false} TableLetsOneInNineThrough(h: seq<(Key, Event)>, calls: seq<(Key, Event)>, key: Key)
    requires HealthOf(TableOf(h), key).demoted && Checks(Project(calls, key)) == CYCLE
    requires forall i :: 0 <= i < |calls| ==> calls[i] != (key, Success)
    ensures TablePasses(h, calls, key) == 1
  {
    TableDemotesAfterEight(h, key);
    NoSuccess(calls, key);
    TablePassesAreItsOwn(h, calls, key);
    OneInNine(Project(h, key), Project(calls, key));
  }

  lemma {:induction false} NoSuccess(calls: seq<(Key, Event)>, key: Key)
    requires forall i :: 0 <= i < |calls| ==> calls[i] != (key, Success)
    ensures forall i :: 0 <= i < |Project(calls, key)| ==> !Project(calls, key)[i].Success?
    decreases |calls|
  {
    if calls != [] {
      NoSuccess(calls[..|calls| - 1], key);
      assert calls[|calls| - 1] != (key, Success);
    }
  }
}
