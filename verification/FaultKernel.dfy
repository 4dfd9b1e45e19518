/** Whether the attribution is true: the kernel's task queues beside the correlator that sees only
    their trace. Ids are counted per queue, so two queues use the same ids at the same time. */
module FaultKernel {
  import opened FaultLog

  datatype Status = Waiting | Running(core: int) | Over

  datatype Task = Task(queue: nat, id: int, session: int, status: Status)

  /** Which queue each core serves. */
  type Wiring = map<int, nat>

  /** All tasks in the order they were queued, and what the correlator made of the trace. */
  datatype World = World(tasks: seq<Task>, log: Log)

  /** `seen` is whether the trace kept the event of a queued task. */
  datatype Step =
    | Push(queue: nat, id: int, session: int, seen: bool)
    | Pick(k: nat, core: int)
    | Finish(k: nat, failed: bool)
    | Own(session: int)
    | Resolve

  const Start := World([], Empty)

  /** A queue never reuses an id. */
  predicate MayPush(w: World, queue: nat, id: int) {
    forall k :: 0 <= k < |w.tasks| ==> w.tasks[k].queue != queue || w.tasks[k].id != id
  }

  /** No task waits while 256 more are queued. */
  predicate Prompt(w: World, s: Step) {
    s.Push? ==> forall k :: 0 <= k < |w.tasks| && w.tasks[k].status.Waiting? ==> k + MAP_SIZE > |w.tasks|
  }

  predicate Enabled(w: World, wiring: Wiring, s: Step) {
    match s
    case Push(queue, id, _, _) => MayPush(w, queue, id)
    case Pick(k, core) =>
      && k < |w.tasks| && w.tasks[k].status.Waiting?
      && core != UNASSIGNED && core in wiring && wiring[core] == w.tasks[k].queue
    case Finish(k, _) => k < |w.tasks| && w.tasks[k].status.Running?
    case _ => true
  }

  /** What the trace shows of a finished task. */
  function FinishEvent(t: Task, failed: bool): Event
    requires t.status.Running?
  {
    if failed then Error(t.id, t.status.core) else Done(t.id, t.status.core)
  }

  function Next(w: World, wiring: Wiring, s: Step): World
    requires Enabled(w, wiring, s)
  {
    match s
    case Push(queue, id, session, seen) =>
      World(w.tasks + [Task(queue, id, session, Waiting)],
            if seen then Applied(w.log, Feed(Queued(session, id))) else w.log)
    case Pick(k, core) =>
      World(w.tasks[k := w.tasks[k].(status := Running(core))],
            Applied(w.log, Feed(CoreSelected(w.tasks[k].id, core))))
    case Finish(k, failed) =>
      World(w.tasks[k := w.tasks[k].(status := Over)],
            Applied(w.log, Feed(FinishEvent(w.tasks[k], failed))))
    case Own(session) => w.(log := Applied(w.log, AddSession(session)))
    case Resolve => w.(log := Applied(w.log, MarkResolved))
  }

  /** The verdict on a task failing now. */
  function VerdictOn(w: World, k: nat): Verdict
    requires k < |w.tasks| && w.tasks[k].status.Running?
  {
    Fed(w.log, FinishEvent(w.tasks[k], true)).1
  }

  ghost predicate Reaches(w: World, wiring: Wiring, steps: seq<Step>, last: World)
    decreases |steps|
  {
    if steps == [] then last == w
    else Enabled(w, wiring, steps[0]) && Reaches(Next(w, wiring, steps[0]), wiring, steps[1..], last)
  }

  ghost predicate PromptRun(w: World, wiring: Wiring, steps: seq<Step>)
    decreases |steps|
  {
    steps != [] && Enabled(w, wiring, steps[0]) ==>
      Prompt(w, steps[0]) && PromptRun(Next(w, wiring, steps[0]), wiring, steps[1..])
  }

  /** Two queues, no lost queue event. */
  predicate Faithful(s: Step) {
    s.Push? ==> s.queue < 2 && s.seen
  }

  // ---- what every reachable world with two queues satisfies

  predicate Joinable(l: Log, k: nat)
    requires k < |l.records|
  {
    l.records[k].live && l.records[k].core == UNASSIGNED
  }

  /** Another task with the same id cannot be joined any more: the ambiguity cost both their records. */
  ghost predicate Abandoned(w: World, k: nat)
    requires k < |w.tasks| == |w.log.records|
  {
    exists j: nat :: j < |w.tasks| && j != k && w.tasks[j].id == w.tasks[k].id && !Joinable(w.log, j)
  }

  /** What one record knows about its task. */
  ghost predicate Entry(w: World, wiring: Wiring, k: nat)
    requires k < |w.tasks| == |w.log.records|
  {
    var t, r := w.tasks[k], w.log.records[k];
    && t.queue < 2
    && r.task == t.id && r.session == t.session
    && (Joinable(w.log, k) ==> t.status.Waiting?)
    && (r.live && r.core != UNASSIGNED && k + MAP_SIZE >= |w.tasks| ==> t.status == Running(r.core))
    && (t.status.Waiting? ==> k + MAP_SIZE >= |w.tasks| && (Joinable(w.log, k) || Abandoned(w, k)))
    && (t.status.Running? ==> t.status.core != UNASSIGNED && t.status.core in wiring
                              && wiring[t.status.core] == t.queue)
  }

  predicate IdsUnique(tasks: seq<Task>) {
    forall i, j :: 0 <= i < j < |tasks| && tasks[i].queue == tasks[j].queue ==> tasks[i].id != tasks[j].id
  }

  ghost predicate Inv(w: World, wiring: Wiring) {
    && |w.log.records| == |w.tasks|
    && IdsUnique(w.tasks)
    && forall k :: 0 <= k < |w.tasks| ==> Entry(w, wiring, k)
  }

  /** Records only ever stop being joinable. */
  lemma AbandonedLasts(w: World, v: World, k: nat)
    requires k < |w.tasks| == |w.log.records| && |v.tasks| == |v.log.records| >= |w.tasks|
    requires forall j :: 0 <= j < |w.tasks| ==> v.tasks[j].id == w.tasks[j].id
    requires forall j: nat :: j < |w.tasks| && !Joinable(w.log, j) ==> !Joinable(v.log, j)
    requires Abandoned(w, k)
    ensures Abandoned(v, k)
  {
    var j: nat :| j < |w.tasks| && j != k && w.tasks[j].id == w.tasks[k].id && !Joinable(w.log, j);
    assert !Joinable(v.log, j);
  }

  lemma PushKeepsInv(w: World, wiring: Wiring, queue: nat, id: int, session: int)
    requires Inv(w, wiring) && MayPush(w, queue, id) && queue < 2 && Prompt(w, Push(queue, id, session, true))
    ensures Inv(Next(w, wiring, Push(queue, id, session, true)), wiring)
  {
    var v := Next(w, wiring, Push(queue, id, session, true));
    forall k | 0 <= k < |v.tasks| ensures Entry(v, wiring, k) {
      if k < |w.tasks| {
        assert Entry(w, wiring, k);
        if w.tasks[k].status.Waiting? && !Joinable(w.log, k) { AbandonedLasts(w, v, k); }
      }
    }
  }

  /** A waiting task without a joinable record shares its id with one other task, whose record is gone too. */
  lemma NoneLeftToJoin(w: World, wiring: Wiring, k: nat, i: nat)
    requires Inv(w, wiring) && k < |w.tasks| && w.tasks[k].status.Waiting? && !Joinable(w.log, k)
    requires i < |w.tasks| && w.tasks[i].id == w.tasks[k].id
    ensures !Joinable(w.log, i)
  {
    assert Entry(w, wiring, k) && Entry(w, wiring, i);
    var j: nat :| j < |w.tasks| && j != k && w.tasks[j].id == w.tasks[k].id && !Joinable(w.log, j);
    assert Entry(w, wiring, j);
  }

  /** The selection bound record `i`. */
  lemma BindKeepsInv(w: World, v: World, wiring: Wiring, k: nat, core: int)
    requires Inv(w, wiring) && Enabled(w, wiring, Pick(k, core))
    requires v.tasks == w.tasks[k := w.tasks[k].(status := Running(core))]
    requires v.log.records == w.log.records[k := w.log.records[k].(core := core)]
    ensures Inv(v, wiring)
  {
    forall m | 0 <= m < |v.tasks| ensures Entry(v, wiring, m) {
      assert Entry(w, wiring, m);
      if w.tasks[m].status.Waiting? && !Joinable(w.log, m) { AbandonedLasts(w, v, m); }
    }
  }

  /** The selection found no record, or several. */
  lemma DropKeepsInv(w: World, v: World, wiring: Wiring, k: nat, core: int,
                     dropped: set<nat>, a: nat, b: nat)
    requires Inv(w, wiring) && Enabled(w, wiring, Pick(k, core))
    requires v.tasks == w.tasks[k := w.tasks[k].(status := Running(core))]
    requires |v.log.records| == |w.tasks| && forall m: nat :: m < |w.tasks| ==>
               v.log.records[m] == if m in dropped then Retire(w.log.records[m]) else w.log.records[m]
    requires Joinable(w.log, k) ==> k in dropped
    requires forall i :: i in dropped ==> i < |w.tasks| && w.tasks[i].id == w.tasks[k].id
    requires dropped != {} ==> a in dropped && b in dropped && a != b
    ensures Inv(v, wiring)
  {
    forall m | 0 <= m < |v.tasks| ensures Entry(v, wiring, m) {
      assert Entry(w, wiring, m);
      if w.tasks[m].status.Waiting? {
        if m in dropped {
          assert !Joinable(v.log, if m == a then b else a);
        } else if !Joinable(w.log, m) {
          AbandonedLasts(w, v, m);
        }
      }
    }
  }

  lemma PickKeepsInv(w: World, wiring: Wiring, k: nat, core: int)
    requires Inv(w, wiring) && Enabled(w, wiring, Pick(k, core))
    ensures Inv(Next(w, wiring, Pick(k, core)), wiring)
  {
    var v := Next(w, wiring, Pick(k, core));
    var records, id := w.log.records, w.tasks[k].id;
    var lo := Oldest(records);
    assert Entry(w, wiring, k);
    var i := FirstFrom(records, lo, id, UNASSIGNED);
    if i == |records| {
      DropKeepsInv(w, v, wiring, k, core, {}, 0, 0);
    } else {
      var j := FirstFrom(records, i + 1, id, UNASSIGNED);
      if j < |records| {
        var dropped := set m: nat | m < |records| && m >= lo && Joins(records[m], id, UNASSIGNED);
        assert i in dropped && j in dropped;
        forall m | m in dropped ensures w.tasks[m].id == id { assert Entry(w, wiring, m); }
        DropKeepsInv(w, v, wiring, k, core, dropped, i, j);
      } else {
        assert Entry(w, wiring, i);
        if !Joinable(w.log, k) { NoneLeftToJoin(w, wiring, k, i); }
        BindKeepsInv(w, v, wiring, k, core);
      }
    }
  }

  /** The record joined by id and core is that of the task running there. */
  lemma JoinIsTrue(w: World, wiring: Wiring, k: nat)
    requires Inv(w, wiring) && k < |w.tasks| && w.tasks[k].status.Running?
    ensures var t, records := w.tasks[k], w.log.records;
            var m := LastFrom(records, Oldest(records), t.id, t.status.core);
            m == |records| || m == k
  {
    var t, records := w.tasks[k], w.log.records;
    var m := LastFrom(records, Oldest(records), t.id, t.status.core);
    assert Entry(w, wiring, k);
    if m < |records| {
      assert Entry(w, wiring, m);
      assert w.tasks[m].queue == t.queue;
    }
  }

  lemma FinishKeepsInv(w: World, wiring: Wiring, k: nat, failed: bool)
    requires Inv(w, wiring) && Enabled(w, wiring, Finish(k, failed))
    ensures Inv(Next(w, wiring, Finish(k, failed)), wiring)
  {
    var v := Next(w, wiring, Finish(k, failed));
    var t, records := w.tasks[k], w.log.records;
    JoinIsTrue(w, wiring, k);
    forall m | 0 <= m < |v.tasks| ensures Entry(v, wiring, m) {
      assert Entry(w, wiring, m);
      if w.tasks[m].status.Waiting? && !Joinable(w.log, m) { AbandonedLasts(w, v, m); }
    }
  }

  lemma StepKeepsInv(w: World, wiring: Wiring, s: Step)
    requires Inv(w, wiring) && Enabled(w, wiring, s) && Faithful(s) && Prompt(w, s)
    ensures Inv(Next(w, wiring, s), wiring)
  {
    match s
    case Push(queue, id, session, _) => PushKeepsInv(w, wiring, queue, id, session);
    case Pick(k, core) => PickKeepsInv(w, wiring, k, core);
    case Finish(k, failed) => FinishKeepsInv(w, wiring, k, failed);
    case Own(_) => SameRecordsKeepInv(w, Next(w, wiring, s), wiring);
    case Resolve => SameRecordsKeepInv(w, Next(w, wiring, s), wiring);
  }

  lemma SameRecordsKeepInv(w: World, v: World, wiring: Wiring)
    requires Inv(w, wiring) && v.tasks == w.tasks && v.log.records == w.log.records
    ensures Inv(v, wiring)
  {
    forall m | 0 <= m < |v.tasks| ensures Entry(v, wiring, m) {
      assert Entry(w, wiring, m);
      if w.tasks[m].status.Waiting? && !Joinable(w.log, m) { AbandonedLasts(w, v, m); }
    }
  }

  lemma {:induction false} RunKeepsInv(w: World, wiring: Wiring, steps: seq<Step>, last: World)
    requires Inv(w, wiring) && Reaches(w, wiring, steps, last) && PromptRun(w, wiring, steps)
    requires forall i :: 0 <= i < |steps| ==> Faithful(steps[i])
    ensures Inv(last, wiring)
    decreases |steps|
  {
    if steps != [] {
      StepKeepsInv(w, wiring, steps[0]);
      RunKeepsInv(Next(w, wiring, steps[0]), wiring, steps[1..], last);
    }
  }

  /** A selection that binds a record binds its own task's. */
  lemma BindsItsOwn(w: World, wiring: Wiring, k: nat, core: int)
    requires Inv(w, wiring) && Enabled(w, wiring, Pick(k, core))
    ensures var records, id := w.log.records, w.tasks[k].id;
            var i := FirstFrom(records, Oldest(records), id, UNASSIGNED);
            (i < |records| && FirstFrom(records, i + 1, id, UNASSIGNED) == |records|) ==>
              records[i].session == w.tasks[k].session
  {
    var records, id := w.log.records, w.tasks[k].id;
    var i := FirstFrom(records, Oldest(records), id, UNASSIGNED);
    assert Entry(w, wiring, k);
    if i < |records| && FirstFrom(records, i + 1, id, UNASSIGNED) == |records| {
      assert Entry(w, wiring, i);
      if !Joinable(w.log, k) { NoneLeftToJoin(w, wiring, k, i); }
    }
  }

  // ---- why the three conditions are needed

  lemma {:induction false} OneMore(w: World, wiring: Wiring, steps: seq<Step>, last: World, s: Step)
    requires Reaches(w, wiring, steps, last) && Enabled(last, wiring, s)
    ensures Reaches(w, wiring, steps + [s], Next(last, wiring, s))
    decreases |steps|
  {
    if steps != [] {
      OneMore(Next(w, wiring, steps[0]), wiring, steps[1..], last, s);
      assert (steps + [s])[1..] == steps[1..] + [s];
    } else {
      assert (steps + [s])[1..] == [];
    }
  }

  /** The correlator has session `session` as its only one, resolved, and these records. */
  function Knows(records: seq<Record>, session: int): Log {
    Log(records, [session], true, 0, 0, 0, 0)
  }

  /** Three tasks with id 7 in three queues; the first two cost each other their records. */
  function ThreeHolders(): Wiring { map[0 := 0, 1 := 1, 2 := 2] }

  lemma OwnerResolved() returns (steps: seq<Step>, w: World)
    ensures Reaches(Start, ThreeHolders(), steps, w) && forall i :: 0 <= i < |steps| ==> !steps[i].Push?
    ensures w == World([], Knows([], 30))
  {
    var wiring := ThreeHolders();
    steps, w := [], Start;
    OneMore(Start, wiring, steps, w, Own(30));
    steps, w := steps + [Own(30)], Next(w, wiring, Own(30));
    OneMore(Start, wiring, steps, w, Resolve);
    steps, w := steps + [Resolve], Next(w, wiring, Resolve);
    assert w == World([], Knows([], 30));
  }

  lemma AmbiguityReached() returns (steps: seq<Step>, w: World)
    ensures Reaches(Start, ThreeHolders(), steps, w)
    ensures forall i :: 0 <= i < |steps| && steps[i].Push? ==> steps[i].queue < 3 && steps[i].seen
    ensures w == World([Task(0, 7, 10, Running(0)), Task(1, 7, 20, Waiting)],
                       Knows([Record(7, 10, UNASSIGNED, false), Record(7, 20, UNASSIGNED, false)], 30))
  {
    var wiring := ThreeHolders();
    steps, w := OwnerResolved();
    OneMore(Start, wiring, steps, w, Push(0, 7, 10, true));
    steps, w := steps + [Push(0, 7, 10, true)], Next(w, wiring, Push(0, 7, 10, true));
    assert w == World([Task(0, 7, 10, Waiting)], Knows([Record(7, 10, UNASSIGNED, true)], 30));
    OneMore(Start, wiring, steps, w, Push(1, 7, 20, true));
    steps, w := steps + [Push(1, 7, 20, true)], Next(w, wiring, Push(1, 7, 20, true));
    var records := [Record(7, 10, UNASSIGNED, true), Record(7, 20, UNASSIGNED, true)];
    assert w == World([Task(0, 7, 10, Waiting), Task(1, 7, 20, Waiting)], Knows(records, 30));
    assert Joins(records[0], 7, UNASSIGNED) && Joins(records[1], 7, UNASSIGNED);
    OneMore(Start, wiring, steps, w, Pick(0, 0));
    steps, w := steps + [Pick(0, 0)], Next(w, wiring, Pick(0, 0));
    assert DropUnbound(records, 7) == [Record(7, 10, UNASSIGNED, false), Record(7, 20, UNASSIGNED, false)];
  }

  /** With a third queue, dropping an ambiguous id does not help: the next selection binds the third
      queue's record, and the fault of a foreign session is called owned. */
  lemma ThreeQueuesMisattribute()
    ensures exists steps: seq<Step>, w: World ::
              && Reaches(Start, ThreeHolders(), steps, w)
              && (forall i :: 0 <= i < |steps| && steps[i].Push? ==> steps[i].queue < 3 && steps[i].seen)
              && |w.tasks| == 3 && w.tasks[1].status.Running?
              && VerdictOn(w, 1) == FaultOwned && w.tasks[1].session !in w.log.owned
  {
    var wiring := ThreeHolders();
    var steps, w := AmbiguityReached();
    OneMore(Start, wiring, steps, w, Push(2, 7, 30, true));
    steps, w := steps + [Push(2, 7, 30, true)], Next(w, wiring, Push(2, 7, 30, true));
    var dead0, dead1 := Record(7, 10, UNASSIGNED, false), Record(7, 20, UNASSIGNED, false);
    assert w.log.records == [dead0, dead1, Record(7, 30, UNASSIGNED, true)];
    assert Joins(w.log.records[2], 7, UNASSIGNED);
    OneMore(Start, wiring, steps, w, Pick(1, 1));
    steps, w := steps + [Pick(1, 1)], Next(w, wiring, Pick(1, 1));
    assert w.log.records == [dead0, dead1, Record(7, 30, 1, true)];
    assert Joins(w.log.records[2], 7, 1);
    assert VerdictOn(w, 1) == FaultOwned;
  }

  /** With two queues, one lost queue event is enough: the selection of the unseen task binds the
      other queue's record. So a lost event is not merely a lost attribution. */
  lemma LostEventMisattributes()
    ensures exists steps: seq<Step>, w: World ::
              && Reaches(Start, ThreeHolders(), steps, w)
              && (forall i :: 0 <= i < |steps| && steps[i].Push? ==> steps[i].queue < 2)
              && |w.tasks| == 2 && w.tasks[0].status.Running?
              && VerdictOn(w, 0) == FaultOwned && w.tasks[0].session !in w.log.owned
  {
    var wiring := ThreeHolders();
    var steps, w := OwnerResolved();
    OneMore(Start, wiring, steps, w, Push(0, 7, 10, false));
    steps, w := steps + [Push(0, 7, 10, false)], Next(w, wiring, Push(0, 7, 10, false));
    assert w == World([Task(0, 7, 10, Waiting)], Knows([], 30));
    OneMore(Start, wiring, steps, w, Push(1, 7, 30, true));
    steps, w := steps + [Push(1, 7, 30, true)], Next(w, wiring, Push(1, 7, 30, true));
    assert w == World([Task(0, 7, 10, Waiting), Task(1, 7, 30, Waiting)], Knows([Record(7, 30, UNASSIGNED, true)], 30));
    assert Joins(w.log.records[0], 7, UNASSIGNED);
    OneMore(Start, wiring, steps, w, Pick(0, 0));
    steps, w := steps + [Pick(0, 0)], Next(w, wiring, Pick(0, 0));
    assert w.log.records == [Record(7, 30, 0, true)];
    assert Joins(w.log.records[0], 7, 0);
    assert VerdictOn(w, 0) == FaultOwned;
  }

  /** Tasks of queue 1 with ids from 8 on. */
  function Fillers(n: nat): seq<Task> { seq(n, i => Task(1, 8 + i, 10, Waiting)) }

  function FillerRecords(n: nat): seq<Record> { seq(n, i => Record(8 + i, 10, UNASSIGNED, true)) }

  /** A task of queue 0 waits behind `n` of queue 1. */
  function Crowd(n: nat): World {
    World([Task(0, 7, 10, Waiting)] + Fillers(n), Knows([Record(7, 10, UNASSIGNED, true)] + FillerRecords(n), 30))
  }

  lemma {:induction false} CrowdReached(n: nat) returns (steps: seq<Step>)
    ensures Reaches(Start, ThreeHolders(), steps, Crowd(n))
    ensures forall i :: 0 <= i < |steps| ==> Faithful(steps[i])
    decreases n
  {
    var wiring, w := ThreeHolders(), Start;
    if n == 0 {
      steps, w := OwnerResolved();
      OneMore(Start, wiring, steps, w, Push(0, 7, 10, true));
      forall i | 0 <= i < |steps| ensures Faithful(steps[i]) { assert !steps[i].Push?; }
      steps := steps + [Push(0, 7, 10, true)];
      assert Crowd(0) == World([Task(0, 7, 10, Waiting)], Knows([Record(7, 10, UNASSIGNED, true)], 30));
      assert Next(w, wiring, Push(0, 7, 10, true)) == Crowd(0);
    } else {
      steps := CrowdReached(n - 1);
      var push := Push(1, 7 + n, 10, true);
      OneMore(Start, wiring, steps, Crowd(n - 1), push);
      steps := steps + [push];
      assert Fillers(n) == Fillers(n - 1) + [Task(1, 7 + n, 10, Waiting)];
      assert FillerRecords(n) == FillerRecords(n - 1) + [Record(7 + n, 10, UNASSIGNED, true)];
      assert Next(Crowd(n - 1), wiring, push) == Crowd(n);
    }
  }

  /** With two queues and no lost event, a task that waits while 256 more are queued is enough: its record has left the
      window, and its selection binds the other queue's record with the same id. */
  lemma SlowSelectionMisattributes()
    ensures exists steps: seq<Step>, w: World ::
              && Reaches(Start, ThreeHolders(), steps, w)
              && (forall i :: 0 <= i < |steps| ==> Faithful(steps[i]))
              && |w.tasks| == MAP_SIZE + 1 && w.tasks[0].status.Running?
              && VerdictOn(w, 0) == FaultOwned && w.tasks[0].session !in w.log.owned
  {
    var wiring, w := ThreeHolders(), Crowd(MAP_SIZE - 1);
    var steps := CrowdReached(MAP_SIZE - 1);
    OneMore(Start, wiring, steps, w, Push(1, 7, 30, true));
    steps, w := steps + [Push(1, 7, 30, true)], Next(w, wiring, Push(1, 7, 30, true));
    assert |w.log.records| == MAP_SIZE + 1 && Oldest(w.log.records) == 1;
    assert w.log.records[MAP_SIZE] == Record(7, 30, UNASSIGNED, true);
    assert forall i :: 1 <= i < MAP_SIZE ==> w.log.records[i].task != 7;
    assert FirstFrom(w.log.records, 1, 7, UNASSIGNED) == MAP_SIZE;
    OneMore(Start, wiring, steps, w, Pick(0, 0));
    steps, w := steps + [Pick(0, 0)], Next(w, wiring, Pick(0, 0));
    assert w.log.records[MAP_SIZE] == Record(7, 30, 0, true);
    assert Joins(w.log.records[MAP_SIZE], 7, 0);
    assert VerdictOn(w, 0) == FaultOwned;
  }
}
