/** What the two counters of the converter count: active_waiters the calls inside take_ready and reap, active_submits
    the conversions in progress, so that start and stop, which only look at the counters, know when no call
    holds a reference any more (gst/rockchiprga/gstrgaconvert.c:1290-1408, 1560-1643 and 1841-1917). */
module RgaCalls {
  import opened Options
  import opened ImportCache
  import opened RgaFrames
  import opened RgaPipeline
  import opened RgaOwnership

  /** The streaming thread has announced itself inside take_ready. */
  predicate TakesPart(pc: Pc) { pc.Waiting? || pc.Deciding? || pc.Dropping? || pc.Taken? }

  /** The streaming thread is converting, from the leases on. */
  predicate Submits(pc: Pc) {
    pc.Publishing? || pc.Aborting? || pc.Submitting? || pc.Submitted? || pc.Finishing? || pc.Blitting? || pc.Blitted?
  }

  predicate Counted(s: State) {
    && s.el.waiters == One(TakesPart(s.pc)) + One(s.reapA.Reap?) + One(s.reapB.Reap?)
    && s.el.submits == One(Submits(s.pc))
  }

  /** Steps of the streaming thread that leave the counters and the position's kind alone. */
  predicate SameCounts(s: State, t: State) {
    && t.el.waiters == s.el.waiters && t.el.submits == s.el.submits && t.reapA == s.reapA && t.reapB == s.reapB
    && (TakesPart(t.pc) <==> TakesPart(s.pc)) && (Submits(t.pc) <==> Submits(s.pc))
  }

  lemma SameCountsKeep(s: State, t: State)
    requires Counted(s) && SameCounts(s, t)
    ensures Counted(t)
  {}

  lemma OfferCounted(s: State, queued: bool)
    requires Counted(s) && SubmitEnabled(s, Offer(queued))
    ensures Counted(OnOffer(s, queued))
  {
    hide Counted;
    SameCountsKeep(s, OnOffer(s, queued));
  }

  lemma GuardCounted(s: State)
    requires Counted(s) && SubmitEnabled(s, Guard)
    ensures Counted(OnGuard(s))
  {
    hide Counted;
    SameCountsKeep(s, OnGuard(s));
  }

  lemma RotateCounted(s: State)
    requires Counted(s) && SubmitEnabled(s, Rotate)
    ensures Counted(OnRotate(s))
  {
    hide Counted;
    SameCountsKeep(s, OnRotate(s));
  }

  lemma PrepareCounted(s: State, ok: bool)
    requires Counted(s) && SubmitEnabled(s, Prepare(ok))
    ensures Counted(OnPrepare(s, ok))
  {
    hide Counted;
    SameCountsKeep(s, OnPrepare(s, ok));
  }

  lemma PlaceCounted(s: State)
    requires Counted(s) && SubmitEnabled(s, Place)
    ensures Counted(OnPlace(s))
  {
    hide Counted;
    SameCountsKeep(s, OnPlace(s));
  }

  lemma SubmitCounted(s: State, a: SubmitAction)
    requires Counted(s) && SubmitEnabled(s, a)
    ensures Counted(SubmitStep(s, a))
  {
    hide Counted;
    match a
    case Offer(queued) => OfferCounted(s, queued);
    case Guard => GuardCounted(s);
    case Rotate => RotateCounted(s);
    case Prepare(ok) => PrepareCounted(s, ok);
    case Place => PlaceCounted(s);
  }

  lemma LeaseCounted(s: State, staging: bool, src: Lookup, dst: Lookup)
    requires Counted(s) && TransformEnabled(s, Lease(staging, src, dst))
    ensures Counted(OnLease(s, staging, src, dst))
  {}

  lemma CloseCounted(s: State)
    requires Counted(s) && TransformEnabled(s, Close)
    ensures Counted(OnClose(s))
  {}

  lemma CloseBlitCounted(s: State)
    requires Counted(s) && TransformEnabled(s, CloseBlit)
    ensures Counted(OnCloseBlit(s))
  {}

  lemma ReadSettingsCounted(s: State, ok: bool)
    requires Counted(s) && TransformEnabled(s, ReadSettings(ok))
    ensures Counted(OnReadSettings(s, ok))
  {
    hide Counted;
    SameCountsKeep(s, OnReadSettings(s, ok));
  }

  lemma PublishCounted(s: State)
    requires Counted(s) && TransformEnabled(s, Publish)
    ensures Counted(OnPublish(s))
  {
    hide Counted;
    SameCountsKeep(s, OnPublish(s));
  }

  lemma DropAbortedCounted(s: State)
    requires Counted(s) && TransformEnabled(s, DropAborted)
    ensures Counted(OnDropAborted(s))
  {
    hide Counted;
    SameCountsKeep(s, OnDropAborted(s));
  }

  lemma HardwareTakesCounted(s: State)
    requires Counted(s) && TransformEnabled(s, HardwareTakes)
    ensures Counted(OnHardwareTakes(s))
  {
    hide Counted;
    SameCountsKeep(s, OnHardwareTakes(s));
  }

  lemma SubmitReturnsCounted(s: State, fence: Fence, ok: bool, lost: bool)
    requires Counted(s) && TransformEnabled(s, SubmitReturns(fence, ok, lost))
    ensures Counted(OnSubmitReturns(s, fence, ok, lost))
  {
    hide Counted;
    SameCountsKeep(s, OnSubmitReturns(s, fence, ok, lost));
  }

  lemma DropSubmittedCounted(s: State)
    requires Counted(s) && TransformEnabled(s, DropSubmitted)
    ensures Counted(OnDropSubmitted(s))
  {
    hide Counted;
    SameCountsKeep(s, OnDropSubmitted(s));
  }

  lemma BlitReturnsCounted(s: State, ok: bool, lost: bool)
    requires Counted(s) && TransformEnabled(s, BlitReturns(ok, lost))
    ensures Counted(OnBlitReturns(s, ok, lost))
  {
    hide Counted;
    SameCountsKeep(s, OnBlitReturns(s, ok, lost));
  }

  lemma TransformCounted(s: State, a: TransformAction)
    requires Counted(s) && TransformEnabled(s, a)
    ensures Counted(TransformStep(s, a))
  {
    hide Counted;
    match a
    case ReadSettings(ok) => ReadSettingsCounted(s, ok);
    case Lease(staging, src, dst) => LeaseCounted(s, staging, src, dst);
    case Publish => PublishCounted(s);
    case DropAborted => DropAbortedCounted(s);
    case HardwareTakes => HardwareTakesCounted(s);
    case SubmitReturns(fence, ok, lost) => SubmitReturnsCounted(s, fence, ok, lost);
    case DropSubmitted => DropSubmittedCounted(s);
    case Close => CloseCounted(s);
    case BlitReturns(ok, lost) => BlitReturnsCounted(s, ok, lost);
    case CloseBlit => CloseBlitCounted(s);
  }

  lemma NothingReadyCounted(s: State)
    requires Counted(s) && OutputEnabled(s, Take) && s.el.ready.None?
    ensures Counted(OnTake(s))
  {
    hide Counted;
    SameCountsKeep(s, OnTake(s));
  }

  lemma TakeCounted(s: State)
    requires Counted(s) && OutputEnabled(s, Take)
    ensures Counted(OnTake(s))
  {
    var t := OnTake(s);
    if s.el.ready.None? {
      NothingReadyCounted(s);
    } else {
      assert t.el.waiters == s.el.waiters + 1 && t.el.submits == s.el.submits && t.pc.Waiting?;
      hide OnTake;
    }
  }

  lemma AfterTakeKind(s: State, caller: Caller, output: Option<nat>, good: bool)
    requires Chaining(s) || caller.EventDrain?
    ensures !TakesPart(AfterTake(s, caller, output, good).pc) && !Submits(AfterTake(s, caller, output, good).pc)
  {}

  lemma EndTakeMove(s: State)
    requires OutputEnabled(s, EndTake)
    ensures var t := OnEndTake(s);
            && t.el.waiters == s.el.waiters - 1 && t.el.submits == s.el.submits && SameRest(s, t)
            && !TakesPart(t.pc) && !Submits(t.pc)
  {
    hide AfterTake;
    AfterTakeKind(s.(el := s.el.(waiters := s.el.waiters - 1)), s.pc.caller, s.pc.output, s.pc.good);
  }

  lemma EndTakeCounted(s: State)
    requires Counted(s) && OutputEnabled(s, EndTake)
    ensures Counted(OnEndTake(s))
  {
    hide OnEndTake;
    EndTakeMove(s);
  }

  lemma DecideCounted(s: State)
    requires Counted(s) && OutputEnabled(s, Decide)
    ensures Counted(OnDecide(s))
  {}

  lemma GenerateCounted(s: State)
    requires Counted(s) && OutputEnabled(s, Generate)
    ensures Counted(OnGenerate(s))
  {
    hide Counted;
    SameCountsKeep(s, OnGenerate(s));
  }

  lemma RecheckCounted(s: State)
    requires Counted(s) && OutputEnabled(s, Recheck)
    ensures Counted(OnRecheck(s))
  {
    hide Counted;
    SameCountsKeep(s, OnRecheck(s));
  }

  lemma PollReadyCounted(s: State, status: Status, late: bool)
    requires Counted(s) && OutputEnabled(s, PollReady(status, late))
    ensures Counted(OnPollReady(s, status, late))
  {
    hide Counted;
    SameCountsKeep(s, OnPollReady(s, status, late));
  }

  lemma DropTakenCounted(s: State)
    requires Counted(s) && OutputEnabled(s, DropTaken)
    ensures Counted(OnDropTaken(s))
  {
    hide Counted;
    SameCountsKeep(s, OnDropTaken(s));
  }

  lemma PushCounted(s: State, ok: bool)
    requires Counted(s) && OutputEnabled(s, Push(ok))
    ensures Counted(OnPush(s, ok))
  {
    hide Counted;
    SameCountsKeep(s, OnPush(s, ok));
  }

  lemma DrainHeadCounted(s: State)
    requires Counted(s) && OutputEnabled(s, DrainHead)
    ensures Counted(OnDrainHead(s))
  {
    hide Counted;
    SameCountsKeep(s, OnDrainHead(s));
  }

  lemma OutputCounted(s: State, a: OutputAction)
    requires Counted(s) && OutputEnabled(s, a)
    ensures Counted(OutputStep(s, a))
  {
    hide Counted;
    match a
    case Generate => GenerateCounted(s);
    case Take => TakeCounted(s);
    case Recheck => RecheckCounted(s);
    case PollReady(status, late) => PollReadyCounted(s, status, late);
    case Decide => DecideCounted(s);
    case DropTaken => DropTakenCounted(s);
    case EndTake => EndTakeCounted(s);
    case Push(ok) => PushCounted(s, ok);
    case DrainHead => DrainHeadCounted(s);
  }

  lemma ControlCounted(s: State, a: ControlAction)
    requires Counted(s) && ControlEnabled(s, a)
    ensures Counted(ControlStep(s, a))
  {
    hide Counted;
    SameCountsKeep(s, ControlStep(s, a));
  }

  /** A reap call is counted from its first section to its last. */
  lemma ReapMove(s: State, w: bool, a: ReapAction)
    requires ReapEnabled(s, w, a)
    ensures var t := ReapStep(s, w, a);
            && t.pc == s.pc && t.el.submits == s.el.submits
            && t.el.waiters - One(TheReap(t, w).Reap?) == s.el.waiters - One(TheReap(s, w).Reap?)
  {
    match a
    case ReapBegin =>
    case ReapRead =>
    case ReapDecide(_) =>
    case ReapUnref =>
    case ReapRelease =>
    case ReapEnd =>
  }

  lemma ReapCounted(s: State, w: bool, a: ReapAction)
    requires Counted(s) && ReapEnabled(s, w, a)
    ensures Counted(ReapStep(s, w, a))
  {
    ReapMove(s, w, a);
    assert TheReap(ReapStep(s, w, a), !w) == TheReap(s, !w);
    hide ReapStep, One;
  }

  lemma ReaperCounted(s: State, a: ReaperAction)
    requires Counted(s) && ReaperEnabled(s, a)
    ensures Counted(ReaperStep(s, a))
  {
    hide Counted;
    SameCountsKeep(s, ReaperStep(s, a));
  }

  lemma StepCounted(s: State, a: Action)
    requires Counted(s) && Enabled(s, a)
    ensures Counted(Step(s, a))
  {
    match a
    case Submit(x) => SubmitCounted(s, x);
    case Transform(x) => TransformCounted(s, x);
    case Output(x) => OutputCounted(s, x);
    case Control(x) => ControlCounted(s, x);
    case Reaping(w, x) => ReapCounted(s, w, x);
    case Reaper(x) => ReaperCounted(s, x);
  }

  lemma {:induction false} RunCounted(s: State, actions: seq<Action>, last: State)
    requires Inv(s) && Counted(s) && Run(s, actions, last)
    ensures Inv(last) && Counted(last)
    decreases |actions|
  {
    hide Inv, Counted;
    if actions != [] {
      StepKeepsInv(s, actions[0]);
      StepCounted(s, actions[0]);
      RunCounted(Step(s, actions[0]), actions[1..], last);
    }
  }

  lemma InitialCounted(capable: bool)
    ensures Counted(Initial(capable))
  {}

  /** Start sees both counters at zero exactly when no call is in progress, and then no call holds a reference: every
      reference left belongs to a slot, to quarantine, or to the reaper. */
  lemma StartSeesEveryCall(capable: bool, actions: seq<Action>, s: State)
    requires Run(Initial(capable), actions, s)
    ensures CanStart(s.el) <==> !TakesPart(s.pc) && !Submits(s.pc) && s.reapA.NoReap? && s.reapB.NoReap?
    ensures CanStart(s.el) ==> forall f: nat :: f < |s.el.frames| ==> s.el.frames[f].refs == Owners(s, f)
  {
    InitialInv(capable);
    InitialCounted(capable);
    RunCounted(Initial(capable), actions, s);
    if CanStart(s.el) {
      forall f: nat | f < |s.el.frames| ensures s.el.frames[f].refs == Owners(s, f) { assert Entry(s, f); }
    }
  }

  /** A stop that ends because everything is quiet leaves no reference but those of the slots and of the reaper. */
  lemma QuietStopLeavesNoReference(capable: bool, actions: seq<Action>, s: State, f: nat)
    requires Run(Initial(capable), actions, s) && StopEmpty(s.el) && f < |s.el.frames| && s.el.frames[f].refs > 0
    ensures s.el.pending == Some(f) || s.el.ready == Some(f) || f in Escaped(s.stop) || f in s.incoming || f in s.reaper
  {
    StartSeesEveryCall(capable, actions, s);
  }
}
