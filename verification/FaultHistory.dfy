/** What a verdict says about the past: every rule of the correlator restated over the events
    themselves, without the ring, the log or the order in which slots are scanned. */
module FaultHistory {
  import opened FaultLog

  /** How many tasks were queued; the k-th queued task is the one queued when this was k. */
  function Queues(h: seq<Input>): nat {
    if h == [] then 0
    else Queues(h[..|h| - 1]) + if h[|h| - 1].Feed? && h[|h| - 1].e.Queued? then 1 else 0
  }

  predicate Selects(x: Input, task: int) {
    x.Feed? && x.e.CoreSelected? && x.e.task == task
  }

  /** A done or error event of the task on the core. */
  predicate Finishes(x: Input, task: int, core: int) {
    x.Feed? && (x.e.Done? || x.e.Error?) && x.e.task == task && x.e.core == core
  }

  /** Input `i` queued the k-th task, with this id. */
  predicate QueuedAt(h: seq<Input>, i: nat, k: nat, task: int) {
    i < |h| && h[i].Feed? && h[i].e.Queued? && h[i].e.task == task && Queues(h[..i]) == k
  }

  /** Fewer than 256 tasks were queued after the k-th. */
  predicate Recent(h: seq<Input>, k: nat) { k + MAP_SIZE >= Queues(h) }

  predicate Unselected(h: seq<Input>, i: nat, task: int) {
    forall m :: i < m < |h| ==> !Selects(h[m], task)
  }

  /** The k-th task was queued under this id, and the id has not been selected since. */
  ghost predicate Waiting(h: seq<Input>, k: nat, task: int) {
    exists i :: QueuedAt(h, i, k, task) && Unselected(h, i, task)
  }

  /** The k-th task is the only recent one still waiting under this id. */
  ghost predicate SoleWaiting(h: seq<Input>, k: nat, task: int) {
    Waiting(h, k, task) && Recent(h, k) && forall j: nat | Recent(h, j) && j != k :: !Waiting(h, j, task)
  }

  /** Every done or error of the task on the core after input `j` went to a task queued later. */
  ghost predicate Survives(h: seq<Input>, j: nat, k: nat, task: int, core: int)
    decreases |h|, 0
  {
    forall m :: j < m < |h| && Finishes(h[m], task, core) ==> Superseded(h[..m], k, task, core)
  }

  /** A task queued after the k-th is on the core under the same id. */
  ghost predicate Superseded(h: seq<Input>, k: nat, task: int, core: int)
    decreases |h|, 2
  {
    exists newer: nat :: newer > k && OnCore(h, newer, task, core)
  }

  /** The k-th task was put on the core by a selection that could mean no other task, and has
      not been consumed by a done or error since. */
  ghost predicate OnCore(h: seq<Input>, k: nat, task: int, core: int)
    decreases |h|, 1
  {
    exists j: nat :: j < |h| && h[j] == Feed(CoreSelected(task, core)) && SoleWaiting(h[..j], k, task)
           && Survives(h, j, k, task, core)
  }

  /** The task an error on this core is about. */
  ghost predicate Faulted(h: seq<Input>, k: nat, task: int, core: int) {
    Recent(h, k) && OnCore(h, k, task, core) && !Superseded(h, k, task, core)
  }

  /** Events never carry the marker of an unassigned core. */
  predicate RealCores(h: seq<Input>) {
    forall i :: 0 <= i < |h| ==> RealCore(h[i])
  }

  predicate RealCore(x: Input) {
    x.Feed? ==> match x.e
                case CoreSelected(_, core) => core != UNASSIGNED
                case Done(_, core) => core != UNASSIGNED
                case Error(_, core) => core != UNASSIGNED
                case _ => true
  }

  // ---- one more input

  predicate QueuesTask(x: Input, task: int) {
    x.Feed? && x.e.Queued? && x.e.task == task
  }

  lemma WaitingStep(h: seq<Input>, p: seq<Input>, x: Input, k: nat, task: int)
    requires h == p + [x]
    ensures Waiting(h, k, task) <==>
              (QueuesTask(x, task) && k == Queues(p)) || (Waiting(p, k, task) && !Selects(x, task))
  {
    assert h[..|p|] == p && h[|p|] == x;
    if i: nat :| QueuedAt(h, i, k, task) && Unselected(h, i, task) {
      if i < |p| {
        assert h[..i] == p[..i];
        assert QueuedAt(p, i, k, task) && Unselected(p, i, task);
      }
    }
    if QueuesTask(x, task) && k == Queues(p) {
      assert QueuedAt(h, |p|, k, task) && Unselected(h, |p|, task);
    }
    if i: nat :| QueuedAt(p, i, k, task) && Unselected(p, i, task) && !Selects(x, task) {
      assert h[..i] == p[..i];
      assert QueuedAt(h, i, k, task) && Unselected(h, i, task);
    }
  }

  lemma SurvivesStep(h: seq<Input>, p: seq<Input>, x: Input, j: nat, k: nat, task: int, core: int)
    requires h == p + [x] && j < |p|
    ensures Survives(h, j, k, task, core) <==>
              && Survives(p, j, k, task, core)
              && (Finishes(x, task, core) ==> Superseded(p, k, task, core))
  {
    assert h[..|p|] == p && h[|p|] == x;
    if Survives(h, j, k, task, core) {
      forall m | j < m < |p| && Finishes(p[m], task, core) ensures Superseded(p[..m], k, task, core) {
        assert h[..m] == p[..m] && Finishes(h[m], task, core);
      }
      assert Finishes(h[|p|], task, core) ==> Superseded(h[..|p|], k, task, core);
    }
    if Survives(p, j, k, task, core) && (Finishes(x, task, core) ==> Superseded(p, k, task, core)) {
      forall m | j < m < |h| && Finishes(h[m], task, core) ensures Superseded(h[..m], k, task, core) {
        assert m < |p| ==> h[..m] == p[..m] && Finishes(p[m], task, core);
      }
    }
  }

  predicate Puts(x: Input, task: int, core: int) { x == Feed(CoreSelected(task, core)) }

  lemma OnCoreStep(h: seq<Input>, p: seq<Input>, x: Input, k: nat, task: int, core: int)
    requires h == p + [x]
    ensures OnCore(h, k, task, core) <==>
              || (Puts(x, task, core) && SoleWaiting(p, k, task))
              || (&& OnCore(p, k, task, core)
                  && (Finishes(x, task, core) ==> Superseded(p, k, task, core)))
  {
    assert h[..|p|] == p && h[|p|] == x;
    if j: nat :| j < |h| && h[j] == Feed(CoreSelected(task, core)) && SoleWaiting(h[..j], k, task)
                 && Survives(h, j, k, task, core) {
      if j < |p| {
        assert h[..j] == p[..j];
        SurvivesStep(h, p, x, j, k, task, core);
        assert OnCore(p, k, task, core);
      }
    }
    if Puts(x, task, core) && SoleWaiting(p, k, task) {
      assert Survives(h, |p|, k, task, core);
    }
    if OnCore(p, k, task, core)
       && (Finishes(x, task, core) ==> Superseded(p, k, task, core)) {
      var j: nat :| j < |p| && p[j] == Feed(CoreSelected(task, core)) && SoleWaiting(p[..j], k, task)
                    && Survives(p, j, k, task, core);
      assert h[..j] == p[..j];
      SurvivesStep(h, p, x, j, k, task, core);
    }
  }

  /** Only tasks queued so far wait or run. */
  lemma {:induction false} OnlyQueued(h: seq<Input>, k: nat, task: int, core: int)
    ensures Waiting(h, k, task) ==> k < Queues(h)
    ensures OnCore(h, k, task, core) ==> k < Queues(h)
    decreases |h|
  {
    if h != [] {
      var p, x := h[..|h| - 1], h[|h| - 1];
      assert h == p + [x];
      OnlyQueued(p, k, task, core);
      WaitingStep(h, p, x, k, task);
      OnCoreStep(h, p, x, k, task, core);
    }
  }

  // ---- the log says the same as the history

  ghost predicate SameWaiting(records: seq<Record>, h: seq<Input>) {
    forall k: nat, task :: Oldest(records) <= k < |records| ==>
      (Joins(records[k], task, UNASSIGNED) <==> Waiting(h, k, task))
  }

  ghost predicate SameOnCore(records: seq<Record>, h: seq<Input>) {
    forall k: nat, task, core :: Oldest(records) <= k < |records| && core != UNASSIGNED ==>
      (Joins(records[k], task, core) <==> OnCore(h, k, task, core))
  }

  ghost predicate Agree(records: seq<Record>, h: seq<Input>) {
    |records| == Queues(h) && SameWaiting(records, h) && SameOnCore(records, h)
  }

  lemma QueuesStep(h: seq<Input>, p: seq<Input>, x: Input)
    requires h == p + [x]
    ensures Queues(h) == Queues(p) + if x.Feed? && x.e.Queued? then 1 else 0
  {
    assert h[..|h| - 1] == p;
  }

  /** An input that is none of the four events changes nothing. */
  lemma AgreeIdle(h: seq<Input>, p: seq<Input>, x: Input, records: seq<Record>)
    requires h == p + [x] && Agree(records, p)
    requires x.Feed? ==> x.e.Lost? || x.e.Other?
    ensures Agree(records, h)
  {
    QueuesStep(h, p, x);
    forall k: nat, task | Oldest(records) <= k < |records|
      ensures Joins(records[k], task, UNASSIGNED) <==> Waiting(h, k, task)
    {
      WaitingStep(h, p, x, k, task);
    }
    forall k: nat, task, core | Oldest(records) <= k < |records| && core != UNASSIGNED
      ensures Joins(records[k], task, core) <==> OnCore(h, k, task, core)
    {
      OnCoreStep(h, p, x, k, task, core);
    }
  }

  lemma AgreeQueued(h: seq<Input>, p: seq<Input>, session: int, task: int, records: seq<Record>)
    requires h == p + [Feed(Queued(session, task))] && Agree(records, p)
    ensures Agree(records + [Record(task, session, UNASSIGNED, true)], h)
  {
    var x := Feed(Queued(session, task));
    var r := records + [Record(task, session, UNASSIGNED, true)];
    QueuesStep(h, p, x);
    forall k: nat, t | Oldest(r) <= k < |r| ensures Joins(r[k], t, UNASSIGNED) <==> Waiting(h, k, t) {
      WaitingStep(h, p, x, k, t);
      OnlyQueued(p, k, t, 0);
    }
    forall k: nat, t, core | Oldest(r) <= k < |r| && core != UNASSIGNED
      ensures Joins(r[k], t, core) <==> OnCore(h, k, t, core)
    {
      OnCoreStep(h, p, x, k, t, core);
      OnlyQueued(p, k, t, core);
    }
  }

  /** Sole waiting tasks are the log's sole candidates. */
  lemma SoleCandidate(p: seq<Input>, records: seq<Record>, task: int, k: nat)
    requires Agree(records, p)
    ensures SoleWaiting(p, k, task) <==>
              && Oldest(records) <= k < |records| && Joins(records[k], task, UNASSIGNED)
              && forall j :: Oldest(records) <= j < |records| && j != k ==> !Joins(records[j], task, UNASSIGNED)
  {
    OnlyQueued(p, k, task, 0);
    forall j: nat ensures Waiting(p, j, task) ==> j < |records| {
      OnlyQueued(p, j, task, 0);
    }
  }

  /** After a selection, whatever the log did with the waiting records of the task. */
  lemma AgreeSelected(h: seq<Input>, p: seq<Input>, task: int, core: int, records: seq<Record>, r: seq<Record>)
    requires h == p + [Feed(CoreSelected(task, core))] && core != UNASSIGNED && Agree(records, p)
    requires |r| == |records|
    requires forall k :: Oldest(records) <= k < |records| ==>
               if Joins(records[k], task, UNASSIGNED)
               then !Joins(r[k], task, UNASSIGNED) && r[k].task == task
                    && (r[k].live <==> SoleWaiting(p, k, task)) && (r[k].live ==> r[k].core == core)
               else r[k] == records[k]
    ensures Agree(r, h)
  {
    var x := Feed(CoreSelected(task, core));
    QueuesStep(h, p, x);
    forall k: nat, t | Oldest(r) <= k < |r| ensures Joins(r[k], t, UNASSIGNED) <==> Waiting(h, k, t) {
      WaitingStep(h, p, x, k, t);
    }
    forall k: nat, t, c | Oldest(r) <= k < |r| && c != UNASSIGNED
      ensures Joins(r[k], t, c) <==> OnCore(h, k, t, c)
    {
      OnCoreStep(h, p, x, k, t, c);
      SoleCandidate(p, records, t, k);
    }
  }

  lemma SelectedAgrees(h: seq<Input>, p: seq<Input>, task: int, core: int, l: Log)
    requires h == p + [Feed(CoreSelected(task, core))] && core != UNASSIGNED && Agree(l.records, p)
    ensures Agree(OnSelected(l, task, core).0.records, h)
  {
    forall k: nat ensures SoleWaiting(p, k, task) <==>
              && Oldest(l.records) <= k < |l.records| && Joins(l.records[k], task, UNASSIGNED)
              && forall j :: Oldest(l.records) <= j < |l.records| && j != k ==> !Joins(l.records[j], task, UNASSIGNED)
    {
      SoleCandidate(p, l.records, task, k);
    }
    AgreeSelected(h, p, task, core, l.records, OnSelected(l, task, core).0.records);
  }

  /** A done or error consumes the newest task on the core. */
  lemma AgreeFinished(h: seq<Input>, p: seq<Input>, x: Input, task: int, core: int, records: seq<Record>)
    requires h == p + [x] && Finishes(x, task, core) && core != UNASSIGNED && Agree(records, p)
    ensures var k := LastFrom(records, Oldest(records), task, core);
            Agree(if k == |records| then records else RetireAt(records, k), h)
  {
    var last := LastFrom(records, Oldest(records), task, core);
    var r := if last == |records| then records else RetireAt(records, last);
    QueuesStep(h, p, x);
    forall k: nat, t | Oldest(r) <= k < |r| ensures Joins(r[k], t, UNASSIGNED) <==> Waiting(h, k, t) {
      WaitingStep(h, p, x, k, t);
    }
    forall k: nat, t, c | Oldest(r) <= k < |r| && c != UNASSIGNED
      ensures Joins(r[k], t, c) <==> OnCore(h, k, t, c)
    {
      OnCoreStep(h, p, x, k, t, c);
      if t == task && c == core { NewerOnCore(p, records, task, core, k); }
    }
  }

  lemma NewerOnCore(p: seq<Input>, records: seq<Record>, task: int, core: int, k: nat)
    requires Agree(records, p) && core != UNASSIGNED && Oldest(records) <= k
    ensures Superseded(p, k, task, core) <==>
              exists newer: nat :: k < newer < |records| && Joins(records[newer], task, core)
  {
    if newer: nat :| newer > k && OnCore(p, newer, task, core) {
      OnlyQueued(p, newer, task, core);
      assert Joins(records[newer], task, core);
    }
    if newer: nat :| k < newer < |records| && Joins(records[newer], task, core) {
      assert OnCore(p, newer, task, core);
    }
  }

  /** At every moment the log and the history agree on every task still in the window. */
  lemma {:induction false} LogAgrees(h: seq<Input>)
    requires RealCores(h)
    ensures Agree(Run(h).records, h)
    decreases |h|
  {
    if h != [] {
      var p, x := h[..|h| - 1], h[|h| - 1];
      assert h == p + [x];
      LogAgrees(p);
      var l := Run(p);
      assert RealCore(x);
      match x
      case AddSession(_) => AgreeIdle(h, p, x, l.records);
      case MarkResolved => AgreeIdle(h, p, x, l.records);
      case Feed(e) =>
        match e
        case Queued(session, task) => AgreeQueued(h, p, session, task, l.records);
        case CoreSelected(task, core) => SelectedAgrees(h, p, task, core, l);
        case Done(task, core) => AgreeFinished(h, p, x, task, core, l.records);
        case Error(task, core) => AgreeFinished(h, p, x, task, core, l.records);
        case Lost => AgreeIdle(h, p, x, l.records);
        case Other => AgreeIdle(h, p, x, l.records);
    }
  }

  /** No input changes the session of a record. */
  lemma AppliedKeepsSessions(l: Log, x: Input)
    ensures var r := Applied(l, x).records;
            |l.records| <= |r| && forall k :: 0 <= k < |l.records| ==> r[k].session == l.records[k].session
  {}

  /** The log keeps the session each task was queued with. */
  lemma {:induction false} LogKeepsSessions(h: seq<Input>, i: nat, k: nat, task: int)
    requires QueuedAt(h, i, k, task)
    ensures k < |Run(h).records| && |Run(h).records| == Queues(h)
    ensures Run(h).records[k].session == h[i].e.session
    decreases |h|
  {
    var p, x := h[..|h| - 1], h[|h| - 1];
    assert h == p + [x];
    LogCountsQueues(p);
    LogCountsQueues(h);
    if i < |p| {
      assert h[..i] == p[..i];
      LogKeepsSessions(p, i, k, task);
      AppliedKeepsSessions(Run(p), x);
    } else {
      assert h[..i] == p;
    }
  }

  lemma {:induction false} LogCountsQueues(h: seq<Input>)
    ensures |Run(h).records| == Queues(h)
    decreases |h|
  {
    if h != [] { LogCountsQueues(h[..|h| - 1]); }
  }

  /** A task on a core was queued under that id. */
  lemma OnCoreWasQueued(h: seq<Input>, k: nat, task: int, core: int) returns (i: nat)
    requires OnCore(h, k, task, core)
    ensures QueuedAt(h, i, k, task)
  {
    var j: nat :| j < |h| && h[j] == Feed(CoreSelected(task, core)) && SoleWaiting(h[..j], k, task)
                  && Survives(h, j, k, task, core);
    i :| QueuedAt(h[..j], i, k, task) && Unselected(h[..j], i, task);
    assert h[..j][..i] == h[..i];
  }

  predicate Resolved(h: seq<Input>) { MarkResolved in h }

  lemma {:induction false} ResolvedMeaning(h: seq<Input>)
    ensures Run(h).resolved <==> Resolved(h)
    decreases |h|
  {
    if h != [] {
      var p, x := h[..|h| - 1], h[|h| - 1];
      assert h == p + [x];
      ResolvedMeaning(p);
      assert MarkResolved in h <==> MarkResolved in p || x == MarkResolved;
    }
  }

  /** The fault can be traced back to input `i`, which queued the k-th task. */
  ghost predicate TracedTo(h: seq<Input>, i: nat, k: nat, task: int, core: int) {
    QueuedAt(h, i, k, task) && Faulted(h, k, task, core)
  }

  /** Faults are traced back to exactly one queued task, the newest record that joins. */
  lemma TraceIsTheNewestJoin(h: seq<Input>, task: int, core: int)
    requires RealCores(h) && core != UNASSIGNED
    ensures var records := Run(h).records;
            var last := LastFrom(records, Oldest(records), task, core);
            && (forall i: nat, k: nat :: TracedTo(h, i, k, task, core) ==>
                  k == last < |records| && records[k].session == h[i].e.session)
            && (last < |records| ==> exists i: nat :: TracedTo(h, i, last, task, core))
  {
    var records := Run(h).records;
    LogAgrees(h);
    var last := LastFrom(records, Oldest(records), task, core);
    forall i: nat, k: nat | TracedTo(h, i, k, task, core)
      ensures k == last < |records| && records[k].session == h[i].e.session
    {
      OnlyQueued(h, k, task, core);
      LogKeepsSessions(h, i, k, task);
      NewerOnCore(h, records, task, core, k);
      assert Joins(records[k], task, core);
    }
    if last < |records| {
      assert Joins(records[last], task, core);
      NewerOnCore(h, records, task, core, last);
      var i := OnCoreWasQueued(h, last, task, core);
      assert TracedTo(h, i, last, task, core);
    }
  }

  /** The history traces a fault on the core to a task of an owned session, or of another one. */
  ghost predicate TracedToOwner(h: seq<Input>, task: int, core: int, ours: bool) {
    exists i: nat, k: nat :: TracedTo(h, i, k, task, core) && (ours <==> h[i].e.session in Run(h).owned)
  }

  /** A fault is called owned exactly when the history justifies it: the task was queued by an owned
      session among the last 256, selected on that core while it was the only waiting task with its
      id, and not consumed since; and ownership is resolved. Foreign and unattributed likewise. */
  lemma VerdictJustified(h: seq<Input>, task: int, core: int)
    requires RealCores(h) && core != UNASSIGNED
    ensures var v := Fed(Run(h), Error(task, core)).1;
            && (v == FaultOwned <==> Resolved(h) && TracedToOwner(h, task, core, true))
            && (v == FaultForeign <==> Resolved(h) && TracedToOwner(h, task, core, false))
            && (v == FaultUnattributed <==>
                  !Resolved(h) || forall i: nat, k: nat :: !TracedTo(h, i, k, task, core))
  {
    var l := Run(h);
    ResolvedMeaning(h);
    TraceIsTheNewestJoin(h, task, core);
    var last := LastFrom(l.records, Oldest(l.records), task, core);
    if last < |l.records| {
      var i: nat :| TracedTo(h, i, last, task, core);
      assert TracedToOwner(h, task, core, l.records[last].session in l.owned);
    }
  }

  /** No fault escapes the counters. */
  function Faults(h: seq<Input>): nat {
    if h == [] then 0
    else Faults(h[..|h| - 1]) + if h[|h| - 1].Feed? && h[|h| - 1].e.Error? then 1 else 0
  }

  function Counted(l: Log): nat { l.ownedFaults + l.foreignFaults + l.unattributed }

  lemma AppliedCounts(l: Log, x: Input)
    ensures Counted(Applied(l, x)) == Counted(l) + if x.Feed? && x.e.Error? then 1 else 0
  {}

  lemma {:induction false} EveryFaultCounted(h: seq<Input>)
    ensures Counted(Run(h)) == Faults(h)
    decreases |h|
  {
    if h != [] {
      EveryFaultCounted(h[..|h| - 1]);
      AppliedCounts(Run(h[..|h| - 1]), h[|h| - 1]);
    }
  }

  // ---- the owned sessions

  /** Every session ever added. */
  function EverAdded(h: seq<Input>): set<int> {
    if h == [] then {}
    else EverAdded(h[..|h| - 1])
         + if h[|h| - 1].AddSession? then {h[|h| - 1].session} else {}
  }

  function Elements(s: seq<int>): set<int> { set x | x in s }

  predicate Distinct(s: seq<int>) {
    forall i, j :: 0 <= i < j < |s| ==> s[i] != s[j]
  }

  lemma {:induction false} DistinctCount(s: seq<int>)
    requires Distinct(s)
    ensures |Elements(s)| == |s|
    decreases |s|
  {
    if s != [] {
      var t := s[..|s| - 1];
      DistinctCount(t);
      assert s == t + [s[|s| - 1]];
      assert Elements(s) == Elements(t) + {s[|s| - 1]};
    }
  }

  /** The list never holds a session twice, never more than 32, and only ones that were added; and while
      at most 32 different sessions were ever added it holds exactly those. */
  lemma {:induction false} OwnedAreTheAdded(h: seq<Input>)
    ensures Distinct(Run(h).owned) && |Run(h).owned| <= MAX_OWNED
    ensures Elements(Run(h).owned) <= EverAdded(h)
    ensures |EverAdded(h)| <= MAX_OWNED ==> Elements(Run(h).owned) == EverAdded(h)
    decreases |h|
  {
    if h != [] {
      var p, x := h[..|h| - 1], h[|h| - 1];
      OwnedAreTheAdded(p);
      if x.AddSession? { AddedIsRemembered(Run(p).owned, EverAdded(p), x.session); }
    }
  }

  lemma AddedIsRemembered(owned: seq<int>, ever: set<int>, session: int)
    requires Distinct(owned) && |owned| <= MAX_OWNED && Elements(owned) <= ever
    requires |ever| <= MAX_OWNED ==> Elements(owned) == ever
    ensures var r := Added(owned, session);
            && Distinct(r) && |r| <= MAX_OWNED && Elements(r) <= ever + {session}
            && (|ever + {session}| <= MAX_OWNED ==> Elements(r) == ever + {session})
  {
    if session in owned {
      assert session in Elements(owned);
      assert ever + {session} == ever;
    } else {
      StillRoom(owned, ever, session);
      if |owned| == MAX_OWNED {
        assert Elements(owned[1..]) <= Elements(owned);
        Appended(owned[1..], session);
      } else {
        Appended(owned, session);
      }
    }
  }

  lemma Appended(s: seq<int>, x: int)
    requires Distinct(s) && x !in s
    ensures Distinct(s + [x]) && Elements(s + [x]) == Elements(s) + {x}
  {
    assert (s + [x])[|s|] == x;
    assert forall y :: y in s + [x] <==> y in s || y == x;
  }

  /** While at most 32 sessions were ever added, a new one finds room. */
  lemma StillRoom(owned: seq<int>, ever: set<int>, session: int)
    requires Distinct(owned) && session !in owned
    requires |ever| <= MAX_OWNED ==> Elements(owned) == ever
    ensures |ever + {session}| <= MAX_OWNED ==> |ever| <= MAX_OWNED && |owned| < MAX_OWNED
  {
    DistinctCount(owned);
    assert ever + ({session} - ever) == ever + {session};
    if |ever| <= MAX_OWNED {
      assert session !in ever;
      assert |ever + {session}| == |ever| + 1;
    }
  }
}
