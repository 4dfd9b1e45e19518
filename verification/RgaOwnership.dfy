/** Who holds a frame record: the references always equal the holders, at most one place owns a
    record, and only a record whose fence is terminal is ever left without an owner. */
module RgaOwnership {
  import opened Options
  import opened ImportCache
  import opened RgaFrames
  import opened RgaPipeline

  function One(b: bool): int { if b then 1 else 0 }

  function Escaped(stop: Stop): seq<nat> { if stop.Escaping? then stop.frames else [] }

  /** Places that own a record: pending, ready, quarantine, stop's escape and the reaper. */
  function Owners(s: State, f: nat): int {
    One(s.el.pending == Some(f)) + One(s.el.ready == Some(f)) + multiset(s.el.quarantine)[f]
    + multiset(Escaped(s.stop))[f] + multiset(s.incoming)[f] + multiset(s.reaper)[f]
  }

  function ReapRefs(r: Reap, f: nat): int {
    if r.NoReap? then 0
    else multiset(r.todo)[f] + multiset(r.visited)[f] + One(r.dropping && r.todo != [] && r.todo[0] == f)
  }

  /** References held for the duration of a call. */
  function Locals(s: State, f: nat): int {
    multiset(s.held)[f] + ReapRefs(s.reapA, f) + ReapRefs(s.reapB, f)
  }

  /** The fence is terminal: there was no job, or it is over. */
  predicate Over(fr: Frame) {
    fr.submitted && (fr.fence.NoFence? || (fr.fence.SyncFile? && (fr.job.Completed? || fr.job.Failed?)))
  }

  /** What a record looks like on its own. */
  predicate FrameSound(fr: Frame) {
    && fr.refs >= 0
    && fr.frees == One(fr.refs == 0)
    && (!Over(fr) ==> fr.output && fr.input)
    && (fr.fence.NoFence? && fr.submitted ==> fr.job.NotTaken?)
    && (fr.fence.SyncFile? ==> fr.submitted && !fr.job.NotTaken?)
    && (!fr.submitted ==> fr.fence.NoFence?)
  }

  /** One line of the books: references equal holders, at most one owner, none only once the
      fence is terminal, and only the submission in progress is not submitted. */
  predicate Entry(s: State, f: nat) {
    if f < |s.el.frames| then
      var fr := s.el.frames[f];
      && fr.refs == Owners(s, f) + Locals(s, f)
      && Owners(s, f) <= 1
      && (Owners(s, f) == 0 ==> Over(fr))
      && FrameSound(fr)
      && (!fr.submitted ==> s.pc.Submitting? && s.pc.f == f)
    else Owners(s, f) == 0 && Locals(s, f) == 0
  }

  ghost predicate Books(s: State) {
    forall f: nat :: Entry(s, f)
  }

  /** A poll answered something other than PENDING. */
  predicate SawOver(el: Element, f: nat, last: Status) {
    last != Pending ==> f < |el.frames| && Over(el.frames[f])
  }

  predicate HeldFacts(s: State) {
    match s.pc
    case Aborting(f) => s.held == [f] && Valid(s.el, f)
    case Submitting(f, _) => s.held == [f] && Valid(s.el, f) && !s.el.frames[f].submitted
    case Submitted(f, _, _, _) => s.held == [f] && Valid(s.el, f)
    case Waiting(f, _, last) => s.held == [f] && Valid(s.el, f) && SawOver(s.el, f, last)
    case Deciding(f, _, last) => s.held == [f] && Valid(s.el, f) && SawOver(s.el, f, last)
    case Dropping(_, _, _) => s.held != []
    case _ => s.held == []
  }

  /** Places of the streaming thread where the ready slot is known to be empty. */
  predicate ReadyFree(s: State) {
    || (s.pc.Resting? && !s.blocked)
    || s.pc.Entered? || s.pc.Admitted? || s.pc.Dropping? || s.pc.Taken? || s.pc.Pushing?
    || (s.pc.Draining? && !s.pc.caller.EventDrain?)
  }

  /** Inside the drain that precedes a synchronous conversion. */
  predicate BeforeSync(pc: Pc) { CallerOf(pc) == Some(SyncDrain) }

  predicate Pipelining(pc: Pc) {
    pc.Preparing? || pc.Publishing? || pc.Aborting? || pc.Submitting? || pc.Submitted? || pc.Finishing?
  }

  /** Synchronous and pipelined conversions do not mix within one chain call: async-depth and
      `disabled` cannot change between the guard and the conversion. */
  predicate ModeFacts(s: State) {
    && (s.queued ==> s.pc.Entered? || s.pc.Admitted? || s.pc.Generating? || BeforeSync(s.pc))
    && (s.queued && !s.pc.Entered? ==> !s.el.custom)
    && (BeforeSync(s.pc) ==> !s.el.custom && !AsyncEnabled(s.el, s.capable))
    && (s.pc.Generating? && s.queued ==> !AsyncEnabled(s.el, s.capable))
    && (s.pc.Converting? && !s.el.custom ==> !AsyncEnabled(s.el, s.capable))
    && (s.pc.Leasing? && !s.el.custom ==> !s.pc.async)
    && (Pipelining(s.pc) ==> s.el.custom)
    && (Converts(s.pc) && !s.el.custom ==> s.el.ready.None?)
  }

  /** The slots the source's two assertions speak of. */
  predicate SlotFacts(s: State) {
    && (s.el.flushing ==> s.el.ready.None? && s.el.pending.None?)
    && (s.pc.Preparing? || s.pc.Publishing? || Converts(s.pc) ==> s.el.pending.None?)
    && (ReadyFree(s) ==> s.el.ready.None?)
    && (s.pc.Waiting? || s.pc.Deciding? ==> s.el.ready.None? || s.el.ready == Some(s.pc.f))
    && (s.pc.Generating? && !s.el.custom ==> s.el.ready.None? && (s.queued ==> s.el.pending.None?))
    && (s.pc.Resuming? ==> s.el.ready.None? && s.el.pending.None?)
    && (s.pc.Placing? ==> s.el.custom)
    && ModeFacts(s)
  }

  predicate ReapFacts(el: Element, r: Reap) {
    r.Reap? ==>
      && (r.seen.Some? || r.dropping ==> r.todo != [] && Valid(el, r.todo[0]))
      && (r.seen.Some? && r.seen.value.submitted ==>
            el.frames[r.todo[0]].submitted && el.frames[r.todo[0]].fence == r.seen.value.fence)
      && (r.dropping ==> r.seen.None? && Over(el.frames[r.todo[0]]))
  }

  predicate SoleFacts(s: State) {
    s.sole.Some? ==>
      && Valid(s.el, s.sole.value) && s.sole.value in s.reaper
      && s.el.frames[s.sole.value].refs == 1 && s.el.frames[s.sole.value].submitted
  }

  ghost predicate Inv(s: State) {
    && Books(s) && HeldFacts(s) && SlotFacts(s)
    && ReapFacts(s.el, s.reapA) && ReapFacts(s.el, s.reapB)
    && SoleFacts(s)
  }

  /** Two states the books cannot tell apart. */
  predicate SameRefs(s: State, t: State) {
    && t.el.frames == s.el.frames
    && t.el.pending == s.el.pending && t.el.ready == s.el.ready && t.el.quarantine == s.el.quarantine
    && t.stop == s.stop && t.incoming == s.incoming && t.reaper == s.reaper
    && t.held == s.held && t.reapA == s.reapA && t.reapB == s.reapB
  }

  lemma SameRefsKeepBooks(s: State, t: State)
    requires Books(s) && SameRefs(s, t) && (s.pc.Submitting? ==> t.pc == s.pc)
    ensures Books(t)
  {
    forall g: nat ensures Entry(t, g) { assert Entry(s, g); }
  }

  /** One line of the books when a holder of `f` lets go. */
  lemma UnrefEntry(s: State, t: State, f: nat, g: nat)
    requires Entry(s, g) && Valid(s.el, f) && t.el.frames == Unref(s.el, f).frames
    requires Owners(t, g) + Locals(t, g) == Owners(s, g) + Locals(s, g) - One(g == f)
    requires 0 <= Owners(t, g) <= Owners(s, g) && 0 <= Locals(t, g)
    requires Valid(s.el, g) && Owners(t, g) == 0 ==> Over(s.el.frames[g])
    requires Valid(s.el, g) && !s.el.frames[g].submitted ==> t.pc == s.pc
    ensures Entry(t, g)
  {}

  /** The streaming thread drops its first reference. */
  lemma UnrefHeldBooks(s: State, t: State)
    requires Books(s) && s.held != [] && Valid(s.el, s.held[0]) && !s.pc.Submitting?
    requires SameRefs(s.(el := Unref(s.el, s.held[0]), held := s.held[1..]), t)
    ensures Books(t)
  {
    assert s.held == [s.held[0]] + t.held;
    forall g: nat ensures Entry(t, g) {
      assert Entry(s, g);
      UnrefEntry(s, t, s.held[0], g);
    }
  }

  /** The ready slot's reference becomes quarantine's. */
  lemma QuarantineReadyBooks(s: State, t: State)
    requires Books(s) && s.el.ready.Some? && !s.pc.Submitting?
    requires SameRefs(s.(el := s.el.(ready := None, quarantine := s.el.quarantine + [s.el.ready.value])), t)
    ensures Books(t)
  {
    forall g: nat ensures Entry(t, g) { assert Entry(s, g); }
  }

  /** The ready slot's reference becomes the streaming thread's; the output may have been given away. */
  lemma ReleaseReadyBooks(s: State, t: State)
    requires Books(s) && s.el.ready.Some? && !s.pc.Submitting?
    requires var f := s.el.ready.value;
             && Valid(s.el, f) && Over(s.el.frames[f])
             && (SameRefs(s.(el := s.el.(ready := None), held := s.held + [f]), t)
                 || SameRefs(s.(el := s.el.(ready := None,
                                            frames := s.el.frames[f := s.el.frames[f].(output := false)]),
                                held := s.held + [f]), t))
    ensures Books(t)
  {
    forall g: nat ensures Entry(t, g) { assert Entry(s, g); }
  }

  lemma GuardBooks(s: State)
    requires Books(s) && Chaining(s) && s.pc.Entered?
    ensures Books(OnGuard(s))
  {
    SameRefsKeepBooks(s, OnGuard(s));
  }

  lemma RotateBooks(s: State)
    requires Books(s) && s.pc.Admitted? && s.el.ready.None?
    ensures Books(OnRotate(s))
  {
    var t := OnRotate(s);
    forall g: nat ensures Entry(t, g) { assert Entry(s, g); }
  }

  lemma LeaseBooks(s: State, staging: bool, src: Lookup, dst: Lookup)
    requires Books(s) && Chaining(s) && s.pc.Leasing?
    ensures Books(OnLease(s, staging, src, dst))
  {
    SameRefsKeepBooks(s, OnLease(s, staging, src, dst));
  }

  lemma PublishBooks(s: State)
    requires Books(s) && Chaining(s) && s.pc.Publishing? && s.held == [] && s.el.pending.None?
    ensures Books(OnPublish(s))
  {
    if s.el.flushing { AbortedBooks(s); } else { PublishedBooks(s); }
  }

  lemma AbortedBooks(s: State)
    requires Books(s) && Chaining(s) && s.pc.Publishing? && s.held == [] && s.el.flushing
    ensures Books(OnPublish(s))
  {
    forall g: nat ensures Entry(OnPublish(s), g) { assert Entry(s, g); }
  }

  /** The pending slot and the streaming thread share the new record. */
  lemma PublishedBooks(s: State)
    requires Books(s) && Chaining(s) && s.pc.Publishing? && s.held == [] && s.el.pending.None? && !s.el.flushing
    ensures Books(OnPublish(s))
  {
    forall g: nat ensures Entry(OnPublish(s), g) { assert Entry(s, g); }
  }

  lemma PlaceBooks(s: State)
    requires Books(s) && Chaining(s) && s.pc.Placing?
    ensures Books(OnPlace(s))
  {
    if s.el.pending.None? && !s.el.flushing {
      forall g: nat ensures Entry(OnPlace(s), g) { assert Entry(s, g); }
    } else {
      SameRefsKeepBooks(s, OnPlace(s));
    }
  }

  lemma DropAbortedBooks(s: State)
    requires Books(s) && s.pc.Aborting? && Valid(s.el, s.pc.f) && s.held == [s.pc.f]
    ensures Books(OnDropAborted(s))
  {
    UnrefHeldBooks(s, OnDropAborted(s));
  }

  lemma HardwareTakesBooks(s: State)
    requires Books(s) && s.pc.Submitting? && Valid(s.el, s.pc.f) && !s.el.frames[s.pc.f].submitted
    ensures Books(OnHardwareTakes(s))
  {
    var t := OnHardwareTakes(s);
    forall g: nat ensures Entry(t, g) { assert Entry(s, g); }
  }

  /** The pending slot's reference becomes quarantine's. */
  lemma WithdrawnBooks(s: State, t: State, f: nat)
    requires Books(s) && s.el.pending == Some(f) && !s.pc.Submitting?
    requires SameRefs(s.(el := s.el.(pending := None, quarantine := s.el.quarantine + [f])), t)
    ensures Books(t)
  {
    forall g: nat ensures Entry(t, g) { assert Entry(s, g); }
  }

  lemma SubmitReturnsBooks(s: State, fence: Fence, ok: bool, lost: bool)
    requires Books(s) && Chaining(s)
    requires TransformEnabled(s, SubmitReturns(fence, ok, lost)) && !s.el.frames[s.pc.f].submitted
    ensures Books(OnSubmitReturns(s, fence, ok, lost))
  {
    var t := OnSubmitReturns(s, fence, ok, lost);
    var u := s.(el := s.el.(frames := t.el.frames), pc := t.pc);
    FenceRecordedBooks(s, u, fence);
    hide Books;
    if !ok && s.el.pending == Some(s.pc.f) {
      WithdrawnBooks(u, t, s.pc.f);
    } else {
      SameRefsKeepBooks(u, t);
    }
  }

  /** The record is no longer being submitted. */
  lemma FenceRecordedBooks(s: State, t: State, fence: Fence)
    requires Books(s) && s.pc.Submitting? && Valid(s.el, s.pc.f) && !s.el.frames[s.pc.f].submitted
    requires fence.NoFence? ==> s.el.frames[s.pc.f].job.NotTaken?
    requires fence.SyncFile? ==> !s.el.frames[s.pc.f].job.NotTaken?
    requires var fr := s.el.frames[s.pc.f].(fence := fence, submitted := true);
             SameRefs(s.(el := s.el.(frames := s.el.frames[s.pc.f := fr])), t) && !t.pc.Submitting?
    ensures Books(t)
  {
    forall g: nat ensures Entry(t, g) {
      assert Entry(s, g);
      assert Entry(s, s.pc.f);
    }
  }

  lemma DropSubmittedBooks(s: State)
    requires Books(s) && s.pc.Submitted? && Valid(s.el, s.pc.f) && s.held == [s.pc.f]
    ensures Books(OnDropSubmitted(s))
  {
    UnrefHeldBooks(s, OnDropSubmitted(s));
  }

  lemma CloseBooks(s: State)
    requires Books(s) && Chaining(s) && s.pc.Finishing?
    ensures Books(OnClose(s))
  {
    SameRefsKeepBooks(s, OnClose(s));
  }

  lemma CloseBlitBooks(s: State)
    requires Books(s) && Chaining(s) && s.pc.Blitted?
    ensures Books(OnCloseBlit(s))
  {
    SameRefsKeepBooks(s, OnCloseBlit(s));
  }

  lemma GenerateBooks(s: State)
    requires Books(s) && Chaining(s) && s.pc.Generating?
    ensures Books(OnGenerate(s))
  {
    SameRefsKeepBooks(s, OnGenerate(s));
  }

  lemma TakeBooks(s: State)
    requires Books(s) && s.pc.Taking? && (Chaining(s) || s.pc.caller.EventDrain?) && s.held == []
    requires s.el.ready.Some? ==> Valid(s.el, s.el.ready.value)
    ensures Books(OnTake(s))
  {
    if s.el.ready.Some? {
      forall g: nat ensures Entry(OnTake(s), g) { assert Entry(s, g); }
    } else {
      SameRefsKeepBooks(s, OnTake(s));
    }
  }

  lemma DecideBooks(s: State)
    requires Books(s) && s.pc.Deciding? && Valid(s.el, s.pc.f) && s.el.frames[s.pc.f].n < |s.fates|
    requires s.held == [s.pc.f] && SawOver(s.el, s.pc.f, s.pc.last)
    ensures Books(OnDecide(s))
  {
    if TakenAway(s.el, s.pc.f) {
      SameRefsKeepBooks(s, OnDecide(s));
    } else if s.pc.last == Pending {
      QuarantineReadyBooks(s, OnDecide(s));
    } else {
      ReleaseReadyBooks(s, OnDecide(s));
    }
  }

  lemma DropTakenBooks(s: State)
    requires Books(s) && s.pc.Dropping? && s.held != [] && Valid(s.el, s.held[0])
    ensures Books(OnDropTaken(s))
  {
    UnrefHeldBooks(s, OnDropTaken(s));
  }

  lemma EndTakeBooks(s: State)
    requires Books(s) && s.pc.Taken? && (Chaining(s) || s.pc.caller.EventDrain?)
    ensures Books(OnEndTake(s))
  {
    SameRefsKeepBooks(s, OnEndTake(s));
  }

  lemma PushBooks(s: State, ok: bool)
    requires Books(s) && s.pc.Pushing? && s.pc.n < |s.fates|
    ensures Books(OnPush(s, ok))
  {
    SameRefsKeepBooks(s, OnPush(s, ok));
  }

  lemma DrainHeadBooks(s: State)
    requires Books(s) && s.pc.Draining?
    ensures Books(OnDrainHead(s))
  {
    if s.el.ready.None? && s.el.pending.Some? {
      forall g: nat ensures Entry(OnDrainHead(s), g) { assert Entry(s, g); }
    } else {
      SameRefsKeepBooks(s, OnDrainHead(s));
    }
  }

  lemma FlushBooks(s: State)
    requires Books(s)
    ensures Books(OnFlush(s))
  {
    var t := OnFlush(s);
    forall g: nat ensures Entry(t, g) { assert Entry(s, g); }
  }

  lemma FlushStartBooks(s: State)
    requires Books(s)
    ensures Books(OnFlushStart(s))
  {
    var t := OnFlushStart(s);
    forall g: nat ensures Entry(t, g) { assert Entry(s, g); }
  }

  lemma StopRoundBooks(s: State, late: bool)
    requires Books(s) && s.stop.Stopping?
    ensures Books(OnStopRound(s, late))
  {
    var t := OnStopRound(s, late);
    forall g: nat ensures Entry(t, g) { assert Entry(s, g); }
  }

  lemma HardwareEndsBooks(s: State, f: nat, ok: bool)
    requires Books(s) && Valid(s.el, f) && s.el.frames[f].job.Running?
    ensures Books(OnHardwareEnds(s, f, ok))
  {
    var t := OnHardwareEnds(s, f, ok);
    forall g: nat ensures Entry(t, g) { assert Entry(s, g); }
  }

  lemma ReapBeginBooks(s: State, a: bool)
    requires Books(s) && TheReap(s, a).NoReap?
    ensures Books(OnReapBegin(s, a))
  {
    var t := OnReapBegin(s, a);
    forall g: nat ensures Entry(t, g) { assert Entry(s, g); }
  }

  lemma ReapRefsChange(s: State, t: State, a: bool, g: nat)
    requires t.held == s.held && (if a then t.reapB == s.reapB else t.reapA == s.reapA)
    ensures Locals(t, g) == Locals(s, g) - ReapRefs(TheReap(s, a), g) + ReapRefs(TheReap(t, a), g)
  {}

  lemma VisitedRefs(r: Reap, g: nat)
    requires r.Reap? && r.todo != []
    ensures ReapRefs(Reap(r.todo[1..], r.visited + [r.todo[0]], None, false), g)
            == ReapRefs(r.(dropping := false), g)
  {
    assert r.todo == [r.todo[0]] + r.todo[1..];
  }

  lemma ReleasedRefs(r: Reap, g: nat)
    requires r.Reap? && r.todo == [] && r.visited != []
    ensures ReapRefs(r.(visited := r.visited[1..]), g) == ReapRefs(r, g) - One(g == r.visited[0])
  {
    assert r.visited == [r.visited[0]] + r.visited[1..];
  }

  /** The quarantine's reference becomes the reap's. */
  lemma ReapRemovedBooks(s: State, a: bool, status: Status)
    requires Books(s) && Visiting(s, a) && !TheReap(s, a).dropping && status != Pending
    requires Over(s.el.frames[TheReap(s, a).todo[0]]) && TheReap(s, a).todo[0] in s.el.quarantine
    ensures Books(OnReapDecide(s, a, status))
  {
    var t := OnReapDecide(s, a, status);
    forall g: nat ensures Entry(t, g) {
      assert Entry(s, g);
      ReapRefsChange(s, t, a, g);
    }
  }

  lemma ReapDecideBooks(s: State, a: bool, status: Status)
    requires Books(s) && Visiting(s, a) && !TheReap(s, a).dropping
    requires status != Pending ==> Over(s.el.frames[TheReap(s, a).todo[0]])
    ensures Books(OnReapDecide(s, a, status))
  {
    var t := OnReapDecide(s, a, status);
    var r := TheReap(s, a);
    var f := r.todo[0];
    if status != Pending && f in s.el.quarantine {
      ReapRemovedBooks(s, a, status);
    } else {
      forall g: nat ensures Entry(t, g) {
        assert Entry(s, g);
        VisitedRefs(r, g);
        ReapRefsChange(s, t, a, g);
      }
    }
  }

  lemma ReapUnrefBooks(s: State, a: bool)
    requires Books(s) && Visiting(s, a) && TheReap(s, a).dropping
    ensures Books(OnReapUnref(s, a))
  {
    var t := OnReapUnref(s, a);
    forall g: nat ensures Entry(t, g) {
      assert Entry(s, g);
      VisitedRefs(TheReap(s, a), g);
      ReapRefsChange(s, t, a, g);
      UnrefEntry(s, t, TheReap(s, a).todo[0], g);
    }
  }

  lemma ReapReleaseBooks(s: State, a: bool)
    requires Books(s) && Releasing(s, a)
    ensures Books(OnReapRelease(s, a))
  {
    var t := OnReapRelease(s, a);
    forall g: nat ensures Entry(t, g) {
      assert Entry(s, g);
      ReleasedRefs(TheReap(s, a), g);
      ReapRefsChange(s, t, a, g);
      UnrefEntry(s, t, TheReap(s, a).visited[0], g);
    }
  }

  lemma ReaperPollBooks(s: State, status: Status)
    requires Books(s) && s.sole.Some? && Valid(s.el, s.sole.value) && s.sole.value in s.reaper
    requires status != Pending ==> Over(s.el.frames[s.sole.value])
    ensures Books(OnReaperPoll(s, status))
  {
    if status == Pending { SameRefsKeepBooks(s, OnReaperPoll(s, status)); } else { ReaperFreesBooks(s, status); }
  }

  /** The reaper drops the last reference. */
  lemma ReaperFreesBooks(s: State, status: Status)
    requires Books(s) && s.sole.Some? && Valid(s.el, s.sole.value) && s.sole.value in s.reaper
    requires status != Pending && Over(s.el.frames[s.sole.value])
    ensures Books(OnReaperPoll(s, status))
  {
    var t := OnReaperPoll(s, status);
    forall g: nat ensures Entry(t, g) {
      assert Entry(s, g);
      UnrefEntry(s, t, s.sole.value, g);
    }
  }

  lemma StopBeginBooks(s: State)
    requires Books(s) && s.stop.NotStopping?
    ensures Books(OnFlushStart(s).(blocked := false, stop := Stopping))
  {
    var t := OnFlushStart(s).(blocked := false, stop := Stopping);
    forall g: nat ensures Entry(t, g) { assert Entry(s, g); }
  }

  lemma RetireBooks(s: State)
    requires Books(s) && s.stop.Escaping?
    ensures Books(s.(incoming := s.incoming + s.stop.frames, stop := NotStopping))
  {
    var t := s.(incoming := s.incoming + s.stop.frames, stop := NotStopping);
    forall g: nat ensures Entry(t, g) { assert Entry(s, g); }
  }

  lemma ReapReadBooks(s: State, a: bool)
    requires Books(s) && Visiting(s, a)
    ensures Books(OnReapRead(s, a))
  {
    var t := OnReapRead(s, a);
    forall g: nat ensures Entry(t, g) { assert Entry(s, g); }
  }

  lemma ReapEndBooks(s: State, a: bool)
    requires Books(s) && TheReap(s, a).Reap? && TheReap(s, a).todo == [] && TheReap(s, a).visited == []
    ensures Books(WithReap(s.(el := s.el.(waiters := s.el.waiters - 1)), a, NoReap))
  {
    var t := WithReap(s.(el := s.el.(waiters := s.el.waiters - 1)), a, NoReap);
    forall g: nat ensures Entry(t, g) { assert Entry(s, g); }
  }

  lemma CollectBooks(s: State)
    requires Books(s)
    ensures Books(s.(reaper := s.reaper + s.incoming, incoming := []))
  {
    var t := s.(reaper := s.reaper + s.incoming, incoming := []);
    forall g: nat ensures Entry(t, g) { assert Entry(s, g); }
  }

  lemma SubmitKeepsBooks(s: State, a: SubmitAction)
    requires Books(s) && HeldFacts(s) && SlotFacts(s) && SubmitEnabled(s, a)
    ensures Books(SubmitStep(s, a))
  {
    match a
    case Offer(queued) => SameRefsKeepBooks(s, OnOffer(s, queued));
    case Guard => GuardBooks(s);
    case Rotate => RotateBooks(s);
    case Prepare(ok) => SameRefsKeepBooks(s, OnPrepare(s, ok));
    case Place => PlaceBooks(s);
  }

  lemma TransformKeepsBooks(s: State, a: TransformAction)
    requires Books(s) && HeldFacts(s) && SlotFacts(s) && TransformEnabled(s, a)
    ensures Books(TransformStep(s, a))
  {
    match a
    case ReadSettings(ok) => SameRefsKeepBooks(s, OnReadSettings(s, ok));
    case Lease(staging, src, dst) => LeaseBooks(s, staging, src, dst);
    case Publish => PublishBooks(s);
    case DropAborted => DropAbortedBooks(s);
    case HardwareTakes => HardwareTakesBooks(s);
    case SubmitReturns(fence, ok, lost) => SubmitReturnsBooks(s, fence, ok, lost);
    case DropSubmitted => DropSubmittedBooks(s);
    case Close => CloseBooks(s);
    case BlitReturns(ok, lost) => SameRefsKeepBooks(s, OnBlitReturns(s, ok, lost));
    case CloseBlit => CloseBlitBooks(s);
  }

  lemma OutputKeepsBooks(s: State, a: OutputAction)
    requires Books(s) && HeldFacts(s) && SlotFacts(s) && OutputEnabled(s, a)
    ensures Books(OutputStep(s, a))
  {
    match a
    case Generate => GenerateBooks(s);
    case Take => TakeBooks(s);
    case Recheck => SameRefsKeepBooks(s, OnRecheck(s));
    case PollReady(status, late) => SameRefsKeepBooks(s, OnPollReady(s, status, late));
    case Decide => DecideBooks(s);
    case DropTaken => DropTakenBooks(s);
    case EndTake => EndTakeBooks(s);
    case Push(ok) => PushBooks(s, ok);
    case DrainHead => DrainHeadBooks(s);
  }

  lemma ControlKeepsBooks(s: State, a: ControlAction)
    requires Books(s) && ControlEnabled(s, a)
    ensures Books(ControlStep(s, a))
  {
    match a
    case FlushStopEvent =>
      FlushBooks(s);
      SameRefsKeepBooks(OnFlush(s), OnFlush(s).(pc := Resuming));
    case FlushStart => FlushStartBooks(s);
    case StateChangeDrain => FlushBooks(s);
    case StopBegin => StopBeginBooks(s);
    case StopRound(late) => StopRoundBooks(s, late);
    case Retire => RetireBooks(s);
    case HardwareEnds(f, ok) => HardwareEndsBooks(s, f, ok);
    case _ => SameRefsKeepBooks(s, ControlStep(s, a));
  }

  lemma ReapKeepsBooks(s: State, w: bool, a: ReapAction)
    requires Books(s) && ReapFacts(s.el, TheReap(s, w)) && ReapEnabled(s, w, a)
    ensures Books(ReapStep(s, w, a))
  {
    match a
    case ReapBegin => ReapBeginBooks(s, w);
    case ReapRead => ReapReadBooks(s, w);
    case ReapDecide(status) => ReapDecideBooks(s, w, status);
    case ReapUnref => ReapUnrefBooks(s, w);
    case ReapRelease => ReapReleaseBooks(s, w);
    case ReapEnd => ReapEndBooks(s, w);
  }

  lemma ReaperKeepsBooks(s: State, a: ReaperAction)
    requires Books(s) && SoleFacts(s) && ReaperEnabled(s, a)
    ensures Books(ReaperStep(s, a))
  {
    match a
    case Collect => CollectBooks(s);
    case FindSole(i) => SameRefsKeepBooks(s, ReaperStep(s, a));
    case ReaperPoll(status) => ReaperPollBooks(s, status);
  }

  lemma OfferSlots(s: State, queued: bool)
    requires SlotFacts(s) && s.pc.Resting? && !s.blocked
    ensures SlotFacts(OnOffer(s, queued))
  {}

  lemma GuardSlots(s: State)
    requires SlotFacts(s) && s.pc.Entered? && Chaining(s)
    ensures SlotFacts(OnGuard(s))
  {}

  lemma RotateSlots(s: State)
    requires SlotFacts(s) && s.pc.Admitted?
    ensures SlotFacts(OnRotate(s))
  {}

  lemma PrepareSlots(s: State, ok: bool)
    requires SlotFacts(s) && s.pc.Preparing? && Chaining(s)
    ensures SlotFacts(OnPrepare(s, ok))
  {}

  lemma PlaceSlots(s: State)
    requires SlotFacts(s) && s.pc.Placing? && Chaining(s)
    ensures SlotFacts(OnPlace(s))
  {}

  lemma ReadSettingsSlots(s: State, ok: bool)
    requires SlotFacts(s) && s.pc.Converting? && Chaining(s)
    ensures SlotFacts(OnReadSettings(s, ok))
  {}

  lemma LeaseSlots(s: State, staging: bool, src: Lookup, dst: Lookup)
    requires SlotFacts(s) && s.pc.Leasing? && Chaining(s)
    ensures SlotFacts(OnLease(s, staging, src, dst))
  {}

  lemma PublishSlots(s: State)
    requires SlotFacts(s) && s.pc.Publishing? && Chaining(s)
    ensures SlotFacts(OnPublish(s))
  {}

  lemma SubmitReturnsSlots(s: State, fence: Fence, ok: bool, lost: bool)
    requires SlotFacts(s) && s.pc.Submitting? && Valid(s.el, s.pc.f) && Chaining(s)
    ensures SlotFacts(OnSubmitReturns(s, fence, ok, lost))
  {}

  lemma CloseSlots(s: State)
    requires SlotFacts(s) && s.pc.Finishing? && Chaining(s)
    ensures SlotFacts(OnClose(s))
  {}

  lemma CloseBlitSlots(s: State)
    requires SlotFacts(s) && s.pc.Blitted? && Chaining(s)
    ensures SlotFacts(OnCloseBlit(s))
  {}

  lemma GenerateSlots(s: State)
    requires SlotFacts(s) && s.pc.Generating? && Chaining(s)
    ensures SlotFacts(OnGenerate(s))
  {}

  lemma TakeSlots(s: State)
    requires SlotFacts(s) && s.pc.Taking? && (Chaining(s) || s.pc.caller.EventDrain?)
             && (s.el.ready.Some? ==> Valid(s.el, s.el.ready.value))
    ensures SlotFacts(OnTake(s))
  {}

  lemma GivenUpSlots(s: State)
    requires SlotFacts(s) && s.pc.Deciding? && Valid(s.el, s.pc.f) && s.el.frames[s.pc.f].n < |s.fates|
    requires TakenAway(s.el, s.pc.f)
    ensures SlotFacts(OnDecide(s))
  {}

  lemma SettledSlots(s: State)
    requires SlotFacts(s) && s.pc.Deciding? && Valid(s.el, s.pc.f) && s.el.frames[s.pc.f].n < |s.fates|
    requires !TakenAway(s.el, s.pc.f)
    ensures SlotFacts(OnDecide(s))
  {
    assert OnDecide(s).el.ready.None?;
  }

  lemma DecideSlots(s: State)
    requires SlotFacts(s) && s.pc.Deciding? && Valid(s.el, s.pc.f) && s.el.frames[s.pc.f].n < |s.fates|
    ensures SlotFacts(OnDecide(s))
  {
    if TakenAway(s.el, s.pc.f) { GivenUpSlots(s); } else { SettledSlots(s); }
  }

  lemma DropTakenSlots(s: State)
    requires SlotFacts(s) && s.pc.Dropping? && s.held != [] && Valid(s.el, s.held[0])
    ensures SlotFacts(OnDropTaken(s))
  {}

  lemma EndTakeSlots(s: State)
    requires SlotFacts(s) && s.pc.Taken? && (Chaining(s) || s.pc.caller.EventDrain?)
    ensures SlotFacts(OnEndTake(s))
  {}

  lemma PushSlots(s: State, ok: bool)
    requires SlotFacts(s) && s.pc.Pushing? && s.pc.n < |s.fates|
    ensures SlotFacts(OnPush(s, ok))
  {}

  lemma DrainHeadSlots(s: State)
    requires SlotFacts(s) && s.pc.Draining?
    ensures SlotFacts(OnDrainHead(s))
  {}

  lemma SameFlowKeepsSlots(s: State, t: State)
    requires SlotFacts(s) && SameFlow(s, t)
    ensures SlotFacts(t)
  {}

  lemma SubmitKeepsSlots(s: State, a: SubmitAction)
    requires SlotFacts(s) && SubmitEnabled(s, a)
    ensures SlotFacts(SubmitStep(s, a))
  {
    match a
    case Offer(queued) => OfferSlots(s, queued);
    case Guard => GuardSlots(s);
    case Rotate => RotateSlots(s);
    case Prepare(ok) => PrepareSlots(s, ok);
    case Place => PlaceSlots(s);
  }

  lemma TransformKeepsSlots(s: State, a: TransformAction)
    requires SlotFacts(s) && TransformEnabled(s, a)
    ensures SlotFacts(TransformStep(s, a))
  {
    match a
    case ReadSettings(ok) => ReadSettingsSlots(s, ok);
    case Lease(staging, src, dst) => LeaseSlots(s, staging, src, dst);
    case Publish => PublishSlots(s);
    case SubmitReturns(fence, ok, lost) => SubmitReturnsSlots(s, fence, ok, lost);
    case Close => CloseSlots(s);
    case CloseBlit => CloseBlitSlots(s);
    case _ =>
  }

  lemma OutputKeepsSlots(s: State, a: OutputAction)
    requires SlotFacts(s) && OutputEnabled(s, a)
    ensures SlotFacts(OutputStep(s, a))
  {
    hide SlotFacts;
    match a
    case Generate => GenerateSlots(s);
    case Take => TakeSlots(s);
    case Decide => DecideSlots(s);
    case DropTaken => DropTakenSlots(s);
    case EndTake => EndTakeSlots(s);
    case Push(ok) => PushSlots(s, ok);
    case DrainHead => DrainHeadSlots(s);
    case Recheck => RecheckSlots(s);
    case PollReady(status, late) => PollReadySlots(s, status, late);
  }

  lemma RecheckSlots(s: State)
    requires SlotFacts(s) && s.pc.Waiting?
    ensures SlotFacts(OnRecheck(s))
  {}

  lemma PollReadySlots(s: State, status: Status, late: bool)
    requires SlotFacts(s) && s.pc.Waiting?
    ensures SlotFacts(OnPollReady(s, status, late))
  {}

  lemma ControlKeepsSlots(s: State, a: ControlAction)
    requires SlotFacts(s) && ControlEnabled(s, a)
    ensures SlotFacts(ControlStep(s, a))
  {
    match a
    case StopBegin => StopBeginSlots(s);
    case StopRound(late) => StopRoundSlots(s, late);
    case FlushStart => FlushStartSlots(s);
    case StateChangeDrain => FlushSlots(s);
    case _ =>
  }

  lemma StopBeginSlots(s: State)
    requires SlotFacts(s) && s.stop.NotStopping?
    ensures SlotFacts(OnFlushStart(s).(blocked := false, stop := Stopping))
  {}

  lemma StopRoundSlots(s: State, late: bool)
    requires SlotFacts(s)
    ensures SlotFacts(OnStopRound(s, late))
  {}

  lemma FlushStartSlots(s: State)
    requires SlotFacts(s)
    ensures SlotFacts(OnFlushStart(s))
  {}

  lemma FlushSlots(s: State)
    requires SlotFacts(s)
    ensures SlotFacts(OnFlush(s))
  {}

  lemma ReapSameFlow(s: State, w: bool, a: ReapAction)
    requires ReapEnabled(s, w, a)
    ensures SameFlow(s, ReapStep(s, w, a))
  {}

  lemma ReaperSameFlow(s: State, a: ReaperAction)
    requires ReaperEnabled(s, a)
    ensures SameFlow(s, ReaperStep(s, a))
  {}

  /** Records are only added, and a terminal fence stays terminal. */
  predicate Grows(el: Element, later: Element) {
    && |el.frames| <= |later.frames|
    && forall f: nat :: f < |el.frames| ==>
         && (el.frames[f].submitted ==> later.frames[f].submitted && later.frames[f].fence == el.frames[f].fence)
         && (Over(el.frames[f]) ==> Over(later.frames[f]))
  }

  lemma SameJobsGrow(el: Element, later: Element)
    requires SameJobs(el.frames, later.frames)
    ensures Grows(el, later)
  {}

  lemma TransformGrows(s: State, a: TransformAction)
    requires HeldFacts(s) && TransformEnabled(s, a)
    ensures Grows(s.el, TransformStep(s, a).el)
  {
    match a
    case Publish =>
    case HardwareTakes =>
    case SubmitReturns(fence, ok, lost) => SubmitReturnsGrows(s, fence, ok, lost);
    case DropAborted => SameJobsGrow(s.el, OnDropAborted(s).el);
    case DropSubmitted => SameJobsGrow(s.el, OnDropSubmitted(s).el);
    case _ => QuietTransformGrows(s, a);
  }

  lemma QuietTransformGrows(s: State, a: TransformAction)
    requires TransformEnabled(s, a)
    requires a.ReadSettings? || a.Lease? || a.Close? || a.BlitReturns? || a.CloseBlit?
    ensures Grows(s.el, TransformStep(s, a).el)
  {
    assert TransformStep(s, a).el.frames == s.el.frames;
  }

  lemma SubmitReturnsGrows(s: State, fence: Fence, ok: bool, lost: bool)
    requires HeldFacts(s) && TransformEnabled(s, SubmitReturns(fence, ok, lost))
    ensures Grows(s.el, OnSubmitReturns(s, fence, ok, lost).el)
  {}

  lemma OutputGrows(s: State, a: OutputAction)
    requires OutputEnabled(s, a)
    ensures Grows(s.el, OutputStep(s, a).el)
  {
    SameJobsGrow(s.el, OutputStep(s, a).el);
  }

  lemma ControlGrows(s: State, a: ControlAction)
    requires ControlEnabled(s, a)
    ensures Grows(s.el, ControlStep(s, a).el)
  {}

  lemma ReapGrows(s: State, w: bool, a: ReapAction)
    requires ReapEnabled(s, w, a)
    ensures Grows(s.el, ReapStep(s, w, a).el)
  {
    SameJobsGrow(s.el, ReapStep(s, w, a).el);
  }

  lemma SubmitKeepsHeld(s: State, a: SubmitAction)
    requires HeldFacts(s) && SubmitEnabled(s, a)
    ensures HeldFacts(SubmitStep(s, a))
  {}

  lemma TransformKeepsHeld(s: State, a: TransformAction)
    requires HeldFacts(s) && TransformEnabled(s, a)
    ensures HeldFacts(TransformStep(s, a))
  {
    match a
    case HardwareTakes => HardwareTakesKeepsHeld(s);
    case SubmitReturns(fence, ok, lost) => SubmitReturnsKeepsHeld(s, fence, ok, lost);
    case Publish => PublishKeepsHeld(s);
    case _ =>
  }

  lemma HardwareTakesKeepsHeld(s: State)
    requires HeldFacts(s) && TransformEnabled(s, HardwareTakes)
    ensures HeldFacts(OnHardwareTakes(s))
  {}

  lemma SubmitReturnsKeepsHeld(s: State, fence: Fence, ok: bool, lost: bool)
    requires HeldFacts(s) && TransformEnabled(s, SubmitReturns(fence, ok, lost))
    ensures HeldFacts(OnSubmitReturns(s, fence, ok, lost))
  {}

  lemma PublishKeepsHeld(s: State)
    requires HeldFacts(s) && TransformEnabled(s, Publish)
    ensures HeldFacts(OnPublish(s))
  {}

  lemma TakeKeepsHeld(s: State)
    requires HeldFacts(s) && OutputEnabled(s, Take)
    ensures HeldFacts(OnTake(s))
  {}

  lemma PollKeepsHeld(s: State, status: Status, late: bool)
    requires Books(s) && HeldFacts(s) && OutputEnabled(s, PollReady(status, late))
    ensures HeldFacts(OnPollReady(s, status, late))
  {
    assert Entry(s, s.pc.f);
  }

  lemma DecideKeepsHeld(s: State)
    requires HeldFacts(s) && OutputEnabled(s, Decide)
    ensures HeldFacts(OnDecide(s))
  {}

  lemma DropTakenKeepsHeld(s: State)
    requires HeldFacts(s) && OutputEnabled(s, DropTaken)
    ensures HeldFacts(OnDropTaken(s))
  {}

  lemma EndTakeKeepsHeld(s: State)
    requires HeldFacts(s) && OutputEnabled(s, EndTake)
    ensures HeldFacts(OnEndTake(s))
  {}

  lemma PushKeepsHeld(s: State, ok: bool)
    requires HeldFacts(s) && OutputEnabled(s, Push(ok))
    ensures HeldFacts(OnPush(s, ok))
  {}

  lemma OutputKeepsHeld(s: State, a: OutputAction)
    requires Books(s) && HeldFacts(s) && OutputEnabled(s, a)
    ensures HeldFacts(OutputStep(s, a))
  {
    match a
    case Decide => DecideKeepsHeld(s);
    case DropTaken => DropTakenKeepsHeld(s);
    case EndTake => EndTakeKeepsHeld(s);
    case Push(ok) => PushKeepsHeld(s, ok);
    case Take => TakeKeepsHeld(s);
    case PollReady(status, late) => PollKeepsHeld(s, status, late);
    case _ =>
  }

  lemma ControlKeepsHeld(s: State, a: ControlAction)
    requires HeldFacts(s) && ControlEnabled(s, a)
    ensures HeldFacts(ControlStep(s, a))
  {
    ControlGrows(s, a);
  }

  lemma SameFlowKeepsHeld(s: State, t: State)
    requires HeldFacts(s) && SameFlow(s, t) && Grows(s.el, t.el)
    requires forall f: nat :: f < |s.el.frames| && !s.el.frames[f].submitted ==> !t.el.frames[f].submitted
    ensures HeldFacts(t)
  {}

  lemma GrowsKeepsReap(el: Element, later: Element, r: Reap)
    requires ReapFacts(el, r) && Grows(el, later)
    ensures ReapFacts(later, r)
  {}

  lemma ReapBeginKeepsReap(s: State, w: bool)
    requires TheReap(s, w).NoReap?
    ensures ReapFacts(OnReapBegin(s, w).el, TheReap(OnReapBegin(s, w), w))
  {}

  lemma ReapReadKeepsReap(s: State, w: bool)
    requires ReapFacts(s.el, TheReap(s, w)) && Visiting(s, w) && !TheReap(s, w).dropping
    ensures ReapFacts(OnReapRead(s, w).el, TheReap(OnReapRead(s, w), w))
  {}

  lemma ReapDecideKeepsReap(s: State, w: bool, status: Status)
    requires ReapFacts(s.el, TheReap(s, w)) && ReapEnabled(s, w, ReapDecide(status))
    ensures ReapFacts(OnReapDecide(s, w, status).el, TheReap(OnReapDecide(s, w, status), w))
  {}

  lemma ReapDropKeepsReap(s: State, w: bool, a: ReapAction)
    requires ReapFacts(s.el, TheReap(s, w)) && ReapEnabled(s, w, a)
    requires a.ReapUnref? || a.ReapRelease? || a.ReapEnd?
    ensures ReapFacts(ReapStep(s, w, a).el, TheReap(ReapStep(s, w, a), w))
  {}

  lemma ReapKeepsReap(s: State, w: bool, a: ReapAction)
    requires ReapFacts(s.el, TheReap(s, w)) && ReapEnabled(s, w, a)
    ensures ReapFacts(ReapStep(s, w, a).el, TheReap(ReapStep(s, w, a), w))
  {
    match a
    case ReapBegin => ReapBeginKeepsReap(s, w);
    case ReapRead => ReapReadKeepsReap(s, w);
    case ReapDecide(status) => ReapDecideKeepsReap(s, w, status);
    case _ => ReapDropKeepsReap(s, w, a);
  }

  /** Only the reaper holds the record: no step of anybody else touches its references. */
  predicate Alone(s: State, f: nat) {
    && f < |s.el.frames| && Locals(s, f) == 0
    && s.el.pending != Some(f) && s.el.ready != Some(f) && f !in s.el.quarantine
  }

  predicate Untouched(s: State, t: State, f: nat) {
    f < |s.el.frames| <= |t.el.frames| && t.el.frames[f].refs == s.el.frames[f].refs
    && t.reaper == s.reaper && t.sole == s.sole
  }

  lemma SubmitUntouched(s: State, a: SubmitAction, f: nat)
    requires SubmitEnabled(s, a) && Alone(s, f)
    ensures Untouched(s, SubmitStep(s, a), f)
  {}

  lemma DropUntouched(s: State, a: TransformAction, f: nat)
    requires HeldFacts(s) && TransformEnabled(s, a) && Alone(s, f)
    requires a.DropAborted? || a.DropSubmitted?
    ensures Untouched(s, TransformStep(s, a), f)
  {
    assert s.pc.f != f;
  }

  lemma TransformUntouched(s: State, a: TransformAction, f: nat)
    requires HeldFacts(s) && TransformEnabled(s, a) && Alone(s, f)
    ensures Untouched(s, TransformStep(s, a), f)
  {
    match a
    case DropAborted => DropUntouched(s, a, f);
    case DropSubmitted => DropUntouched(s, a, f);
    case Publish => PublishUntouched(s, f);
    case HardwareTakes => JobUntouched(s, a, f);
    case SubmitReturns(_, _, _) => JobUntouched(s, a, f);
    case _ => QuietUntouched(s, a, f);
  }

  lemma PublishUntouched(s: State, f: nat)
    requires TransformEnabled(s, Publish) && Alone(s, f)
    ensures Untouched(s, OnPublish(s), f)
  {}

  lemma JobUntouched(s: State, a: TransformAction, f: nat)
    requires TransformEnabled(s, a) && Alone(s, f) && (a.HardwareTakes? || a.SubmitReturns?)
    ensures Untouched(s, TransformStep(s, a), f)
  {}

  lemma QuietUntouched(s: State, a: TransformAction, f: nat)
    requires TransformEnabled(s, a) && Alone(s, f)
    requires a.ReadSettings? || a.Lease? || a.Close? || a.BlitReturns? || a.CloseBlit?
    ensures Untouched(s, TransformStep(s, a), f)
  {
    assert TransformStep(s, a).el.frames == s.el.frames;
  }

  lemma TakeUntouched(s: State, f: nat)
    requires OutputEnabled(s, Take) && Alone(s, f)
    ensures Untouched(s, OnTake(s), f)
  {
    assert TakeStarted(s.el).frames[f] == s.el.frames[f];
  }

  lemma DecideUntouched(s: State, f: nat)
    requires OutputEnabled(s, Decide) && Alone(s, f)
    ensures Untouched(s, OnDecide(s), f)
  {}

  lemma DropTakenUntouched(s: State, f: nat)
    requires OutputEnabled(s, DropTaken) && Alone(s, f)
    ensures Untouched(s, OnDropTaken(s), f)
  {
    assert s.held[0] != f;
    assert Unref(s.el, s.held[0]).frames[f] == s.el.frames[f];
  }

  lemma EndTakeUntouched(s: State, f: nat)
    requires OutputEnabled(s, EndTake) && Alone(s, f)
    ensures Untouched(s, OnEndTake(s), f)
  {}

  lemma OutputUntouched(s: State, a: OutputAction, f: nat)
    requires OutputEnabled(s, a) && Alone(s, f)
    ensures Untouched(s, OutputStep(s, a), f)
  {
    match a
    case Take => TakeUntouched(s, f);
    case Decide => DecideUntouched(s, f);
    case DropTaken => DropTakenUntouched(s, f);
    case EndTake => EndTakeUntouched(s, f);
    case _ =>
  }

  lemma ControlUntouched(s: State, a: ControlAction, f: nat)
    requires ControlEnabled(s, a) && Alone(s, f)
    ensures Untouched(s, ControlStep(s, a), f)
  {}

  lemma ReapUntouched(s: State, w: bool, a: ReapAction, f: nat)
    requires ReapEnabled(s, w, a) && Alone(s, f)
    ensures Untouched(s, ReapStep(s, w, a), f)
  {
    match a
    case ReapUnref => ReapUnrefUntouched(s, w, f);
    case ReapRelease => ReapReleaseUntouched(s, w, f);
    case _ =>
  }

  lemma ReapUnrefUntouched(s: State, w: bool, f: nat)
    requires ReapEnabled(s, w, ReapUnref) && Alone(s, f)
    ensures Untouched(s, OnReapUnref(s, w), f)
  {
    assert TheReap(s, w).todo[0] != f;
  }

  lemma ReapReleaseUntouched(s: State, w: bool, f: nat)
    requires ReapEnabled(s, w, ReapRelease) && Alone(s, f)
    ensures Untouched(s, OnReapRelease(s, w), f)
  {
    assert TheReap(s, w).visited[0] != f;
  }

  /** The record the reaper found itself sole owner of stays solely its own until it is polled. */
  lemma SoleIsAlone(s: State)
    requires Books(s) && SoleFacts(s) && s.sole.Some?
    ensures Alone(s, s.sole.value)
  {
    assert Entry(s, s.sole.value);
  }

  lemma UntouchedKeepsSole(s: State, t: State)
    requires SoleFacts(s) && Grows(s.el, t.el) && t.sole == s.sole
    requires s.sole.Some? ==> Untouched(s, t, s.sole.value)
    ensures SoleFacts(t)
  {}

  lemma SubmitGrows(s: State, a: SubmitAction)
    requires SubmitEnabled(s, a)
    ensures Grows(s.el, SubmitStep(s, a).el)
    ensures SubmitStep(s, a).sole == s.sole
  {}

  lemma ReaperGrows(s: State, a: ReaperAction)
    requires ReaperEnabled(s, a)
    ensures Grows(s.el, ReaperStep(s, a).el)
  {
    SameJobsGrow(s.el, ReaperStep(s, a).el);
  }

  lemma StepGrows(s: State, a: Action)
    requires HeldFacts(s) && Enabled(s, a)
    ensures Grows(s.el, Step(s, a).el)
  {
    match a
    case Submit(x) => SubmitGrows(s, x);
    case Transform(x) => TransformGrows(s, x);
    case Output(x) => OutputGrows(s, x);
    case Control(x) => ControlGrows(s, x);
    case Reaping(w, x) => ReapGrows(s, w, x);
    case Reaper(x) => ReaperGrows(s, x);
  }

  lemma StepKeepsSole(s: State, a: Action)
    requires Books(s) && HeldFacts(s) && SoleFacts(s) && Enabled(s, a)
    ensures SoleFacts(Step(s, a))
  {
    if !a.Reaper? {
      StepGrows(s, a);
      if s.sole.Some? {
        SoleIsAlone(s);
        var f := s.sole.value;
        match a
        case Submit(x) => SubmitUntouched(s, x, f);
        case Transform(x) => TransformUntouched(s, x, f);
        case Output(x) => OutputUntouched(s, x, f);
        case Control(x) => ControlUntouched(s, x, f);
        case Reaping(w, x) => ReapUntouched(s, w, x, f);
      }
      UntouchedKeepsSole(s, Step(s, a));
    }
  }

  lemma StepKeepsReaps(s: State, a: Action)
    requires ReapFacts(s.el, s.reapA) && ReapFacts(s.el, s.reapB) && HeldFacts(s) && Enabled(s, a)
    ensures ReapFacts(Step(s, a).el, Step(s, a).reapA)
    ensures ReapFacts(Step(s, a).el, Step(s, a).reapB)
  {
    var t := Step(s, a);
    StepGrows(s, a);
    GrowsKeepsReap(s.el, t.el, s.reapA);
    GrowsKeepsReap(s.el, t.el, s.reapB);
    if a.Reaping? {
      ReapKeepsReap(s, a.w, a.r);
      assert TheReap(t, !a.w) == TheReap(s, !a.w);
    } else {
      assert SameRest(s, t) || a.Reaper?;
    }
  }

  lemma StepKeepsBooks(s: State, a: Action)
    requires Inv(s) && Enabled(s, a)
    ensures Books(Step(s, a))
  {
    match a
    case Submit(x) => SubmitKeepsBooks(s, x);
    case Transform(x) => TransformKeepsBooks(s, x);
    case Output(x) => OutputKeepsBooks(s, x);
    case Control(x) => ControlKeepsBooks(s, x);
    case Reaping(w, x) => ReapKeepsBooks(s, w, x);
    case Reaper(x) => ReaperKeepsBooks(s, x);
  }

  lemma StepKeepsSlots(s: State, a: Action)
    requires SlotFacts(s) && Enabled(s, a)
    ensures SlotFacts(Step(s, a))
  {
    match a
    case Submit(x) => SubmitKeepsSlots(s, x);
    case Transform(x) => TransformKeepsSlots(s, x);
    case Output(x) => OutputKeepsSlots(s, x);
    case Control(x) => ControlKeepsSlots(s, x);
    case Reaping(w, x) => ReapSameFlow(s, w, x); SameFlowKeepsSlots(s, Step(s, a));
    case Reaper(x) => ReaperSameFlow(s, x); SameFlowKeepsSlots(s, Step(s, a));
  }

  lemma StepKeepsHeld(s: State, a: Action)
    requires Books(s) && HeldFacts(s) && Enabled(s, a)
    ensures HeldFacts(Step(s, a))
  {
    match a
    case Submit(x) => SubmitKeepsHeld(s, x);
    case Transform(x) => TransformKeepsHeld(s, x);
    case Output(x) => OutputKeepsHeld(s, x);
    case Control(x) => ControlKeepsHeld(s, x);
    case Reaping(w, x) =>
      ReapSameFlow(s, w, x);
      StepGrows(s, a);
      ReapUnsubmitted(s, w, x);
      SameFlowKeepsHeld(s, Step(s, a));
    case Reaper(x) =>
      ReaperSameFlow(s, x);
      StepGrows(s, a);
      SameFlowKeepsHeld(s, Step(s, a));
  }

  lemma ReapUnsubmitted(s: State, w: bool, a: ReapAction)
    requires ReapEnabled(s, w, a)
    ensures SameJobs(s.el.frames, ReapStep(s, w, a).el.frames)
  {}

  lemma StepKeepsInv(s: State, a: Action)
    requires Inv(s) && Enabled(s, a)
    ensures Inv(Step(s, a))
  {
    StepKeepsBooks(s, a);
    StepKeepsHeld(s, a);
    StepKeepsSlots(s, a);
    StepKeepsReaps(s, a);
    StepKeepsSole(s, a);
  }

  lemma InitialInv(capable: bool)
    ensures Inv(Initial(capable))
  {}

  lemma {:induction false} RunKeepsInv(s: State, actions: seq<Action>, last: State)
    requires Inv(s) && Run(s, actions, last)
    ensures Inv(last)
    decreases |actions|
  {
    if actions != [] {
      StepKeepsInv(s, actions[0]);
      RunKeepsInv(Step(s, actions[0]), actions[1..], last);
    }
  }

  /** In every interleaving, state changes included: a record's references are exactly its holders,
      at most one place owns it, it is freed at most once, and while its job runs or no fence proves
      the job over it keeps both DMA buffers. */
  lemma DmaOwnership(capable: bool, actions: seq<Action>, s: State, f: nat)
    requires Run(Initial(capable), actions, s) && f < |s.el.frames|
    ensures var fr := s.el.frames[f];
            && fr.refs == Owners(s, f) + Locals(s, f)
            && Owners(s, f) <= 1
            && fr.frees <= 1 && (fr.frees == 1 <==> fr.refs == 0)
            && (fr.job.Running? || fr.fence.Missing? || !fr.submitted ==>
                  fr.refs > 0 && fr.frees == 0 && fr.input && fr.output && Owners(s, f) == 1)
  {
    InitialInv(capable);
    RunKeepsInv(Initial(capable), actions, s);
    assert Entry(s, f);
  }

  /** The two assertions of the source always hold: the ready slot is free when a buffer is rotated in,
      and the pending slot when its record is published. */
  lemma SlotAssertionsHold(capable: bool, actions: seq<Action>, s: State)
    requires Run(Initial(capable), actions, s)
    ensures s.pc.Admitted? ==> s.el.ready.None?
    ensures s.pc.Publishing? ==> s.el.pending.None?
  {
    InitialInv(capable);
    RunKeepsInv(Initial(capable), actions, s);
  }
}
