/** Exactly when an attribution can be false (gst/rockchipmpp/gstmppfaultbridge.c:255-366): a false verdict needs a
    selection that binds another session's record, and every such selection makes one possible, whatever the
    number of queues, whatever events were lost and however long tasks waited. */
module FaultAttribution {
  import opened FaultLog
  import opened FaultKernel

  /** The selection finds exactly one record to join, and it is another session's. */
  predicate Misleads(w: World, s: Step) {
    s.Pick? && s.k < |w.tasks|
    && var records, id := w.log.records, w.tasks[s.k].id;
       var i := FirstFrom(records, Oldest(records), id, UNASSIGNED);
       i < |records| && FirstFrom(records, i + 1, id, UNASSIGNED) == |records|
       && records[i].session != w.tasks[s.k].session
  }

  /** A run without such a selection. */
  ghost predicate Unmisled(w: World, wiring: Wiring, steps: seq<Step>)
    decreases |steps|
  {
    steps != [] && Enabled(w, wiring, steps[0]) ==>
      !Misleads(w, steps[0]) && Unmisled(Next(w, wiring, steps[0]), wiring, steps[1..])
  }

  /** The verdict on a task failing now contradicts whose task it is. */
  predicate FalseVerdict(w: World, k: nat)
    requires k < |w.tasks| && w.tasks[k].status.Running?
  {
    || (VerdictOn(w, k) == FaultOwned && w.tasks[k].session !in w.log.owned)
    || (VerdictOn(w, k) == FaultForeign && w.tasks[k].session in w.log.owned)
  }

  // ---- what every run without a misleading selection keeps

  /** A record of the window that was bound to a core. */
  predicate Bound(l: Log, m: nat) {
    Oldest(l.records) <= m < |l.records| && l.records[m].live && l.records[m].core != UNASSIGNED
  }

  /** Task `k` is the one record `r` speaks of, and it runs there. */
  predicate RunsAs(t: Task, r: Record) {
    t.status == Running(r.core) && t.id == r.task && t.session == r.session
  }

  ghost predicate Backed(w: World, m: nat)
    requires m < |w.log.records|
  {
    exists k: nat :: k < |w.tasks| && RunsAs(w.tasks[k], w.log.records[m])
  }

  predicate Twins(l: Log, m: nat, n: nat)
    requires m < |l.records| && n < |l.records|
  {
    l.records[m].task == l.records[n].task && l.records[m].core == l.records[n].core
  }

  predicate Wired(t: Task, wiring: Wiring) {
    t.status.Running? ==>
      t.status.core != UNASSIGNED && t.status.core in wiring && wiring[t.status.core] == t.queue
  }

  /** Bound records are true and differ in task or core. */
  ghost predicate Honest(w: World, wiring: Wiring) {
    && IdsUnique(w.tasks) && |w.log.owned| <= MAX_OWNED
    && (forall k :: 0 <= k < |w.tasks| ==> Wired(w.tasks[k], wiring))
    && (forall m: nat :: Bound(w.log, m) ==> Backed(w, m))
    && (forall m: nat, n: nat :: Bound(w.log, m) && Bound(w.log, n) && m != n ==> !Twins(w.log, m, n))
  }

  /** Tasks running on one core with one id are one task. */
  lemma SameTask(w: World, wiring: Wiring, j: nat, k: nat)
    requires IdsUnique(w.tasks) && j < |w.tasks| && k < |w.tasks| && w.tasks[j].id == w.tasks[k].id
    requires w.tasks[j].queue == w.tasks[k].queue
    ensures j == k
  {}

  lemma PushStaysHonest(w: World, wiring: Wiring, queue: nat, id: int, session: int, seen: bool)
    requires Honest(w, wiring) && MayPush(w, queue, id)
    ensures Honest(Next(w, wiring, Push(queue, id, session, seen)), wiring)
  {
    var v := Next(w, wiring, Push(queue, id, session, seen));
    forall m: nat | Bound(v.log, m) ensures Backed(v, m) {
      assert Bound(w.log, m);
      var k: nat :| k < |w.tasks| && RunsAs(w.tasks[k], w.log.records[m]);
      assert RunsAs(v.tasks[k], v.log.records[m]);
    }
    forall m: nat, n: nat | Bound(v.log, m) && Bound(v.log, n) && m != n ensures !Twins(v.log, m, n) {
      assert Bound(w.log, m) && Bound(w.log, n);
    }
  }

  /** No bound record stands for the id and core of a task that is being selected there. */
  lemma NotYetBound(w: World, wiring: Wiring, k: nat, core: int, m: nat)
    requires Honest(w, wiring) && Enabled(w, wiring, Pick(k, core)) && Bound(w.log, m)
    ensures w.log.records[m].task != w.tasks[k].id || w.log.records[m].core != core
  {
    var j: nat :| j < |w.tasks| && RunsAs(w.tasks[j], w.log.records[m]);
    assert Wired(w.tasks[j], wiring);
    if w.log.records[m].task == w.tasks[k].id && w.log.records[m].core == core {
      SameTask(w, wiring, j, k);
    }
  }

  /** Selecting a waiting task takes nothing from records other tasks stand behind. */
  lemma StillBacked(w: World, v: World, k: nat, core: int, m: nat)
    requires k < |w.tasks| && w.tasks[k].status.Waiting?
    requires v.tasks == w.tasks[k := w.tasks[k].(status := Running(core))]
    requires m < |w.log.records| == |v.log.records| && v.log.records[m] == w.log.records[m] && Backed(w, m)
    ensures Backed(v, m)
  {
    var j: nat :| j < |w.tasks| && RunsAs(w.tasks[j], w.log.records[m]);
    assert RunsAs(v.tasks[j], v.log.records[m]);
  }

  /** A selection that binds record `i` of its own session. */
  lemma BindStaysHonest(w: World, v: World, wiring: Wiring, k: nat, core: int, i: nat)
    requires Honest(w, wiring) && Enabled(w, wiring, Pick(k, core))
    requires i < |w.log.records| && Joins(w.log.records[i], w.tasks[k].id, UNASSIGNED)
    requires w.log.records[i].session == w.tasks[k].session
    requires v.tasks == w.tasks[k := w.tasks[k].(status := Running(core))] && v.log.owned == w.log.owned
    requires v.log.records == w.log.records[i := w.log.records[i].(core := core)]
    ensures Honest(v, wiring)
  {
    forall m: nat | Bound(v.log, m) ensures Backed(v, m) {
      if m == i {
        assert RunsAs(v.tasks[k], v.log.records[i]);
      } else {
        assert Bound(w.log, m);
        StillBacked(w, v, k, core, m);
      }
    }
    forall m: nat, n: nat | Bound(v.log, m) && Bound(v.log, n) && m != n ensures !Twins(v.log, m, n) {
      if m != i {
        assert Bound(w.log, m);
        NotYetBound(w, wiring, k, core, m);
      }
      if n != i {
        assert Bound(w.log, n);
        NotYetBound(w, wiring, k, core, n);
      }
    }
  }

  /** A selection that binds nothing. */
  lemma NoBindStaysHonest(w: World, v: World, wiring: Wiring, k: nat, core: int)
    requires Honest(w, wiring) && Enabled(w, wiring, Pick(k, core))
    requires v.tasks == w.tasks[k := w.tasks[k].(status := Running(core))] && v.log.owned == w.log.owned
    requires |v.log.records| == |w.log.records|
    requires forall m: nat :: Bound(v.log, m) ==> Bound(w.log, m) && v.log.records[m] == w.log.records[m]
    ensures Honest(v, wiring)
  {
    forall m: nat | Bound(v.log, m) ensures Backed(v, m) { StillBacked(w, v, k, core, m); }
  }

  lemma PickStaysHonest(w: World, wiring: Wiring, k: nat, core: int)
    requires Honest(w, wiring) && Enabled(w, wiring, Pick(k, core)) && !Misleads(w, Pick(k, core))
    ensures Honest(Next(w, wiring, Pick(k, core)), wiring)
  {
    var v := Next(w, wiring, Pick(k, core));
    var records, id := w.log.records, w.tasks[k].id;
    var i := FirstFrom(records, Oldest(records), id, UNASSIGNED);
    if i < |records| && FirstFrom(records, i + 1, id, UNASSIGNED) == |records| {
      BindStaysHonest(w, v, wiring, k, core, i);
    } else {
      NoBindStaysHonest(w, v, wiring, k, core);
    }
  }

  /** The record joined for a running task is bound and true of it. */
  lemma JoinedIsHonest(w: World, wiring: Wiring, k: nat)
    requires Honest(w, wiring) && k < |w.tasks| && w.tasks[k].status.Running?
    ensures var t, records := w.tasks[k], w.log.records;
            var m := LastFrom(records, Oldest(records), t.id, t.status.core);
            m < |records| ==> Bound(w.log, m) && records[m].session == t.session
  {
    var t, records := w.tasks[k], w.log.records;
    var m := LastFrom(records, Oldest(records), t.id, t.status.core);
    assert Wired(t, wiring);
    if m < |records| {
      assert Bound(w.log, m);
      var j: nat :| j < |w.tasks| && RunsAs(w.tasks[j], records[m]);
      assert Wired(w.tasks[j], wiring);
      SameTask(w, wiring, j, k);
    }
  }

  lemma NotTheFinished(w: World, wiring: Wiring, k: nat, m: nat)
    requires Honest(w, wiring) && k < |w.tasks| && w.tasks[k].status.Running? && Bound(w.log, m)
    requires m != LastFrom(w.log.records, Oldest(w.log.records), w.tasks[k].id, w.tasks[k].status.core)
    ensures !RunsAs(w.tasks[k], w.log.records[m])
  {
    var t, records := w.tasks[k], w.log.records;
    var joined := LastFrom(records, Oldest(records), t.id, t.status.core);
    assert Wired(t, wiring);
    assert joined < |records| ==> Bound(w.log, joined) && !Twins(w.log, m, joined);
    assert RunsAs(t, records[m]) ==> Joins(records[m], t.id, t.status.core);
  }

  /** The finished task was behind no other bound record than the one that is retired. */
  lemma FinishStaysHonest(w: World, wiring: Wiring, k: nat, failed: bool)
    requires Honest(w, wiring) && Enabled(w, wiring, Finish(k, failed))
    ensures Honest(Next(w, wiring, Finish(k, failed)), wiring)
  {
    var v := Next(w, wiring, Finish(k, failed));
    var t, records := w.tasks[k], w.log.records;
    var joined := LastFrom(records, Oldest(records), t.id, t.status.core);
    assert Wired(t, wiring);
    assert v.log.records == if joined == |records| then records else RetireAt(records, joined);
    assert v.tasks == w.tasks[k := t.(status := Over)];
    hide Next;
    forall m: nat | Bound(v.log, m) ensures Backed(v, m) {
      assert Bound(w.log, m);
      NotTheFinished(w, wiring, k, m);
      var j: nat :| j < |w.tasks| && RunsAs(w.tasks[j], records[m]);
      assert RunsAs(v.tasks[j], v.log.records[m]);
    }
    forall m: nat, n: nat | Bound(v.log, m) && Bound(v.log, n) && m != n ensures !Twins(v.log, m, n) {
      assert Bound(w.log, m) && Bound(w.log, n);
    }
  }

  lemma SameRecordsStayHonest(w: World, v: World, wiring: Wiring)
    requires Honest(w, wiring) && v.tasks == w.tasks && v.log.records == w.log.records && |v.log.owned| <= MAX_OWNED
    ensures Honest(v, wiring)
  {
    forall m: nat | Bound(v.log, m) ensures Backed(v, m) {
      assert Bound(w.log, m);
      var k: nat :| k < |w.tasks| && RunsAs(w.tasks[k], w.log.records[m]);
      assert RunsAs(v.tasks[k], v.log.records[m]);
    }
    forall m: nat, n: nat | Bound(v.log, m) && Bound(v.log, n) && m != n ensures !Twins(v.log, m, n) {
      assert Bound(w.log, m) && Bound(w.log, n);
    }
  }

  lemma StartIsHonest(wiring: Wiring)
    ensures Honest(Start, wiring)
  {}

  lemma StepStaysHonest(w: World, wiring: Wiring, s: Step)
    requires Honest(w, wiring) && Enabled(w, wiring, s) && !Misleads(w, s)
    ensures Honest(Next(w, wiring, s), wiring)
  {
    match s
    case Push(queue, id, session, seen) => PushStaysHonest(w, wiring, queue, id, session, seen);
    case Pick(k, core) => PickStaysHonest(w, wiring, k, core);
    case Finish(k, failed) => FinishStaysHonest(w, wiring, k, failed);
    case Own(_) => SameRecordsStayHonest(w, Next(w, wiring, s), wiring);
    case Resolve => SameRecordsStayHonest(w, Next(w, wiring, s), wiring);
  }

  lemma {:induction false} RunStaysHonest(w: World, wiring: Wiring, steps: seq<Step>, last: World)
    requires Honest(w, wiring) && Reaches(w, wiring, steps, last) && Unmisled(w, wiring, steps)
    ensures Honest(last, wiring)
    decreases |steps|
  {
    hide Honest, Next, Enabled, Misleads;
    if steps != [] {
      StepStaysHonest(w, wiring, steps[0]);
      RunStaysHonest(Next(w, wiring, steps[0]), wiring, steps[1..], last);
    }
  }

  lemma HonestVerdict(w: World, wiring: Wiring, k: nat)
    requires Honest(w, wiring) && k < |w.tasks| && w.tasks[k].status.Running?
    ensures !FalseVerdict(w, k)
  {
    JoinedIsHonest(w, wiring, k);
  }

  /** With any number of queues, any losses and any delays: as long as no selection binds another session's record,
      no verdict is false. */
  lemma UnmisledVerdictsAreTrue(wiring: Wiring, steps: seq<Step>, w: World, k: nat)
    requires Reaches(Start, wiring, steps, w) && Unmisled(Start, wiring, steps)
    requires k < |w.tasks| && w.tasks[k].status.Running?
    ensures VerdictOn(w, k) == FaultOwned ==> w.tasks[k].session in w.log.owned
    ensures VerdictOn(w, k) == FaultForeign ==> w.tasks[k].session !in w.log.owned
  {
    RunStaysHonest(Start, wiring, steps, w);
    HonestVerdict(w, wiring, k);
  }

  // ---- and every such selection makes a false verdict possible

  /** Some steps on, without another such selection, a verdict is false. */
  ghost predicate CanMisattribute(w: World, wiring: Wiring) {
    exists steps: seq<Step>, v: World, k: nat ::
      && Reaches(w, wiring, steps, v) && Unmisled(w, wiring, steps)
      && k < |v.tasks| && v.tasks[k].status.Running? && FalseVerdict(v, k)
  }

  /** Only the list of owned sessions and its being resolved change. */
  predicate Owning(steps: seq<Step>) {
    forall i :: 0 <= i < |steps| ==> steps[i].Own? || steps[i].Resolve?
  }

  lemma {:induction false} OwningIsUnmisled(w: World, wiring: Wiring, steps: seq<Step>)
    requires Owning(steps)
    ensures Unmisled(w, wiring, steps)
    decreases |steps|
  {
    if steps != [] { OwningIsUnmisled(Next(w, wiring, steps[0]), wiring, steps[1..]); }
  }

  /** The world with these sessions owned. */
  function WithOwned(w: World, owned: seq<int>): World { w.(log := w.log.(owned := owned)) }

  function Fresh(from: int, n: nat): seq<int> { seq(n, i => from + i) }

  function Newest(sessions: seq<int>): (r: seq<int>)
    ensures |r| <= MAX_OWNED
  {
    if |sessions| <= MAX_OWNED then sessions else sessions[|sessions| - MAX_OWNED..]
  }

  /** Larger than every session of the list. */
  function Above(sessions: seq<int>): (m: int)
    ensures forall x :: x in sessions ==> x < m
  {
    if sessions == [] then 0
    else
      var m := Above(sessions[1..]);
      assert forall x :: x in sessions ==> x == sessions[0] || x in sessions[1..];
      if sessions[0] < m then m else sessions[0] + 1
  }

  lemma NextIsOwned(w: World, wiring: Wiring, before: seq<int>, session: int)
    requires session !in before
    ensures var v := WithOwned(w, Newest(before));
            && Enabled(v, wiring, Own(session))
            && Next(v, wiring, Own(session)) == WithOwned(w, Newest(before + [session]))
  {
    var owned := Newest(before);
    assert forall x :: x in owned ==> x in before;
    assert Added(owned, session) == Newest(before + [session]);
  }

  lemma NoneFresh(w: World, wiring: Wiring, from: int)
    requires |w.log.owned| <= MAX_OWNED
    ensures Reaches(w, wiring, [], WithOwned(w, Newest(w.log.owned + Fresh(from, 0))))
  {
    assert w.log.owned + Fresh(from, 0) == w.log.owned;
  }

  lemma NextIsFresh(owned: seq<int>, from: int, n: nat)
    requires n > 0 && forall x :: x in owned ==> x < from
    ensures owned + Fresh(from, n) == owned + Fresh(from, n - 1) + [from + n - 1]
    ensures from + n - 1 !in owned + Fresh(from, n - 1)
  {}

  /** Owning fresh sessions pushes the old ones out. */
  lemma {:induction false} FreshOwned(w: World, wiring: Wiring, from: int, n: nat) returns (steps: seq<Step>)
    requires |w.log.owned| <= MAX_OWNED && forall x :: x in w.log.owned ==> x < from
    ensures Owning(steps) && Reaches(w, wiring, steps, WithOwned(w, Newest(w.log.owned + Fresh(from, n))))
    decreases n
  {
    hide Next, Enabled, Newest, Fresh, Reaches, WithOwned;
    if n == 0 {
      steps := [];
      NoneFresh(w, wiring, from);
    } else {
      steps := FreshOwned(w, wiring, from, n - 1);
      var before, next := w.log.owned + Fresh(from, n - 1), from + n - 1;
      NextIsFresh(w.log.owned, from, n);
      NextIsOwned(w, wiring, before, next);
      OneMore(w, wiring, steps, WithOwned(w, Newest(before)), Own(next));
      steps := steps + [Own(next)];
    }
  }

  /** Neither of two sessions is owned any more. */
  lemma BothForgotten(w: World, wiring: Wiring, a: int, b: int) returns (steps: seq<Step>, v: World)
    requires |w.log.owned| <= MAX_OWNED
    ensures Owning(steps) && Reaches(w, wiring, steps, v) && a !in v.log.owned && b !in v.log.owned
    ensures v == WithOwned(w, v.log.owned)
  {
    var from := Above(w.log.owned + [a, b]);
    assert a in w.log.owned + [a, b] && b in w.log.owned + [a, b];
    assert forall x :: x in w.log.owned ==> x in w.log.owned + [a, b];
    steps := FreshOwned(w, wiring, from, MAX_OWNED);
    assert Newest(w.log.owned + Fresh(from, MAX_OWNED)) == Fresh(from, MAX_OWNED);
    v := WithOwned(w, Fresh(from, MAX_OWNED));
  }

  /** The first of two different sessions is owned and the second is not. */
  lemma OneOwned(w: World, wiring: Wiring, a: int, b: int) returns (steps: seq<Step>, v: World)
    requires |w.log.owned| <= MAX_OWNED && a != b
    ensures Owning(steps) && Reaches(w, wiring, steps, v) && a in v.log.owned && b !in v.log.owned
    ensures v == w.(log := w.log.(owned := v.log.owned, resolved := true))
  {
    var x, u := BothForgotten(w, wiring, a, b);
    OneMore(w, wiring, x, u, Own(a));
    var t := Next(u, wiring, Own(a));
    OneMore(w, wiring, x + [Own(a)], t, Resolve);
    steps, v := x + [Own(a)] + [Resolve], Next(t, wiring, Resolve);
  }

  /** After the selection the wrong record is the one a fault of the task will find. */
  lemma WrongRecordIsFound(w: World, wiring: Wiring, k: nat, core: int)
    requires Honest(w, wiring) && Enabled(w, wiring, Pick(k, core)) && Misleads(w, Pick(k, core))
    ensures var v, records := Next(w, wiring, Pick(k, core)), w.log.records;
            var i := FirstFrom(records, Oldest(records), w.tasks[k].id, UNASSIGNED);
            && v.tasks == w.tasks[k := w.tasks[k].(status := Running(core))] && v.log.owned == w.log.owned
            && v.log.records == records[i := records[i].(core := core)]
            && LastFrom(v.log.records, Oldest(v.log.records), w.tasks[k].id, core) == i
  {
    var v, records := Next(w, wiring, Pick(k, core)), w.log.records;
    var i := FirstFrom(records, Oldest(records), w.tasks[k].id, UNASSIGNED);
    var m := LastFrom(v.log.records, Oldest(v.log.records), w.tasks[k].id, core);
    assert Joins(v.log.records[i], w.tasks[k].id, core);
    if m != i {
      assert Bound(w.log, m);
      NotYetBound(w, wiring, k, core, m);
    }
  }

  lemma MisleadingSelectionMisattributes(w: World, wiring: Wiring, k: nat, core: int)
    requires Honest(w, wiring) && Enabled(w, wiring, Pick(k, core)) && Misleads(w, Pick(k, core))
    ensures CanMisattribute(Next(w, wiring, Pick(k, core)), wiring)
  {
    var u, records := Next(w, wiring, Pick(k, core)), w.log.records;
    var i := FirstFrom(records, Oldest(records), w.tasks[k].id, UNASSIGNED);
    WrongRecordIsFound(w, wiring, k, core);
    var steps, v := OneOwned(u, wiring, records[i].session, w.tasks[k].session);
    assert VerdictOn(v, k) == FaultOwned;
    OwningIsUnmisled(u, wiring, steps);
  }

  lemma HonestWorldsStayTrue(w: World, wiring: Wiring)
    requires Honest(w, wiring)
    ensures !CanMisattribute(w, wiring)
  {
    forall steps: seq<Step>, v: World, k: nat
      | Reaches(w, wiring, steps, v) && Unmisled(w, wiring, steps) && k < |v.tasks| && v.tasks[k].status.Running?
      ensures !FalseVerdict(v, k)
    {
      RunStaysHonest(w, wiring, steps, v);
      HonestVerdict(v, wiring, k);
    }
  }

  /** Exactly when a selection makes a false verdict possible: when the one record it can join is another session's. */
  lemma SelectionMisattributesIffMisleading(wiring: Wiring, before: seq<Step>, w: World, k: nat, core: int)
    requires Reaches(Start, wiring, before, w) && Unmisled(Start, wiring, before) && Enabled(w, wiring, Pick(k, core))
    ensures CanMisattribute(Next(w, wiring, Pick(k, core)), wiring) <==> Misleads(w, Pick(k, core))
  {
    hide Honest, Misleads, Next, CanMisattribute;
    StartIsHonest(wiring);
    RunStaysHonest(Start, wiring, before, w);
    if Misleads(w, Pick(k, core)) {
      MisleadingSelectionMisattributes(w, wiring, k, core);
    } else {
      StepStaysHonest(w, wiring, Pick(k, core));
      HonestWorldsStayTrue(Next(w, wiring, Pick(k, core)), wiring);
    }
  }

  // ---- two queues, no losses, prompt selections

  lemma {:induction false} FaithfulRunIsUnmisled(w: World, wiring: Wiring, steps: seq<Step>, last: World)
    requires Inv(w, wiring) && Reaches(w, wiring, steps, last) && PromptRun(w, wiring, steps)
    requires forall i :: 0 <= i < |steps| ==> Faithful(steps[i])
    ensures Unmisled(w, wiring, steps)
    decreases |steps|
  {
    hide Inv, Next, Enabled;
    if steps != [] {
      NoneMisleads(w, wiring, steps[0]);
      StepKeepsInv(w, wiring, steps[0]);
      FaithfulRunIsUnmisled(Next(w, wiring, steps[0]), wiring, steps[1..], last);
    }
  }

  lemma NoneMisleads(w: World, wiring: Wiring, s: Step)
    requires Inv(w, wiring) && Enabled(w, wiring, s)
    ensures !Misleads(w, s)
  {
    if s.Pick? { BindsItsOwn(w, wiring, s.k, s.core); }
  }

  /** On every lossless trace of two queues whose tasks are selected before 256 more are queued, no selection misleads:
      a verdict is the truth about the task that failed. */
  lemma AttributionIsTrue(wiring: Wiring, steps: seq<Step>, w: World, k: nat)
    requires Reaches(Start, wiring, steps, w) && PromptRun(Start, wiring, steps)
    requires forall i :: 0 <= i < |steps| ==> Faithful(steps[i])
    requires k < |w.tasks| && w.tasks[k].status.Running?
    ensures Unmisled(Start, wiring, steps)
    ensures VerdictOn(w, k) == FaultOwned ==> w.tasks[k].session in w.log.owned
    ensures VerdictOn(w, k) == FaultForeign ==> w.tasks[k].session !in w.log.owned
  {
    FaithfulRunIsUnmisled(Start, wiring, steps, w);
    UnmisledVerdictsAreTrue(wiring, steps, w, k);
  }
}
