/** Why no buffer is pushed while the job that writes it still runs, and the one drain that breaks this:
    leaving PAUSED or READY between publishing a record and the second look at the slots, without a flush,
    while the job is unfinished (gst/rockchiprga/gstrgaconvert.c:1526-1531 and 2097-2117). */
module RgaTerminal {
  import opened Options
  import opened ImportCache
  import opened RgaFrames
  import opened RgaPipeline
  import opened RgaOwnership
  import opened DeliveryLedger
  import opened RgaDelivery

  predicate Gone(fate: Fate) { fate == Leaving || fate == Pushed }

  /** An output on its way or pushed belongs to no unfinished job. */
  predicate Finished(s: State) {
    forall f :: 0 <= f < |s.el.frames| && s.el.frames[f].n < |s.fates| && Gone(s.fates[s.el.frames[f].n])
      ==> Over(s.el.frames[f])
  }

  /** An output wrapped twice was finished the first time. */
  predicate TwinsOver(frames: seq<Frame>) {
    forall f, g :: 0 <= f < g < |frames| && frames[f].n == frames[g].n ==> Over(frames[f]) && Over(frames[g])
  }

  /** The hardware is done with the job, whether or not the submission has returned. */
  predicate Ended(job: Job) { job.Completed? || job.Failed? }

  predicate Accepted(fr: Frame) { fr.submitted && fr.fence.SyncFile? }

  /** Until the streaming thread looks at the slots again, the record of the current input is in the
      pending slot, or the flush that took it will be noticed, or its job is over. */
  predicate Watched(s: State) {
    match s.pc
    case Submitting(f, generation) =>
      s.el.flushing || generation != s.el.generation || s.el.pending == Some(f)
      || (Valid(s.el, f) && Ended(s.el.frames[f].job))
    case Submitted(f, ok, _, flushed) => ok && !flushed ==> f == |s.el.frames| - 1 && Placeable(s)
    case Finishing(ok, _, flushed) => ok && !flushed ==> Placeable(s)
    case Placing => Placeable(s)
    case _ => true
  }

  predicate Placeable(s: State) {
    s.el.frames != [] && Newest(s.el.frames) == Current(s) ==>
      var fr := s.el.frames[|s.el.frames| - 1];
      Accepted(fr) && (s.el.flushing || s.el.pending == Some(|s.el.frames| - 1) || Over(fr))
  }

  ghost predicate Terminal(s: State) {
    Finished(s) && TwinsOver(s.el.frames) && Watched(s)
  }

  /** The streaming thread is past its publication, no flush was seen, and the job can outlast what follows. */
  predicate Exposed(s: State, f: nat) {
    && !s.el.flushing && Chaining(s) && Valid(s.el, f) && s.el.frames[f].n == Current(s)
    && match s.pc
       case Submitting(h, generation) => h == f && generation == s.el.generation && !Ended(s.el.frames[f].job)
       case Submitted(h, ok, _, flushed) => h == f && ok && !flushed && s.el.frames[f].job.Running?
       case Finishing(ok, _, flushed) => ok && !flushed && s.el.frames[f].job.Running?
       case Placing => s.el.frames[f].job.Running?
       case _ => false
  }

  /** Any step but a state change's drain of an exposed record. */
  ghost predicate SafeStep(s: State, a: Action) {
    a == Control(StateChangeDrain) ==> forall f: nat :: !Exposed(s, f)
  }

  ghost predicate SafeRun(s: State, actions: seq<Action>)
    decreases |actions|
  {
    actions != [] && Enabled(s, actions[0]) ==>
      SafeStep(s, actions[0]) && SafeRun(Step(s, actions[0]), actions[1..])
  }

  // ---- only finished outputs leave

  /** Only inputs whose records are all over may leave. */
  lemma FinishedKept(s: State, t: State)
    requires Finished(s) && Grows(s.el, t.el) && |s.fates| <= |t.fates|
    requires forall f :: 0 <= f < |t.el.frames| && t.el.frames[f].n < |t.fates| && Gone(t.fates[t.el.frames[f].n]) ==>
               || Over(t.el.frames[f])
               || (f < |s.el.frames| && s.el.frames[f].n == t.el.frames[f].n < |s.fates|
                   && Gone(s.fates[s.el.frames[f].n]))
    ensures Finished(t)
  {}

  /** No fate turns into one of leaving. */
  predicate NoneLeaves(s: State, t: State) {
    && |s.fates| <= |t.fates|
    && (forall n :: 0 <= n < |s.fates| && Gone(t.fates[n]) ==> Gone(s.fates[n]))
    && (forall n :: |s.fates| <= n < |t.fates| ==> !Gone(t.fates[n]))
  }

  /** The same records, as far as numbers tell. */
  predicate SameRecords(s: State, t: State) {
    |t.el.frames| == |s.el.frames| && forall f :: 0 <= f < |s.el.frames| ==> t.el.frames[f].n == s.el.frames[f].n
  }

  lemma NoneLeavesKept(s: State, t: State)
    requires Finished(s) && Grows(s.el, t.el) && NoneLeaves(s, t) && SameRecords(s, t)
    ensures Finished(t)
  {
    FinishedKept(s, t);
  }

  lemma TwinsKept(s: State, t: State)
    requires TwinsOver(s.el.frames) && Grows(s.el, t.el) && SameRecords(s, t)
    ensures TwinsOver(t.el.frames)
  {}

  /** A new record, the second of its input only if the first is over. */
  lemma NewTwin(s: State, fr: Frame)
    requires TwinsOver(s.el.frames) && Numbered(s) && fr.n == Current(s)
    requires s.el.frames != [] && Newest(s.el.frames) == Current(s) ==> Over(fr) && Over(s.el.frames[|s.el.frames| - 1])
    ensures TwinsOver(s.el.frames + [fr])
  {
    var frames := s.el.frames;
    forall f | 0 <= f < |frames| && frames[f].n == fr.n ensures Over(frames[f]) && Over(fr) {
      assert frames[f].n <= frames[|frames| - 1].n <= fr.n;
    }
  }

  /** A step that adds no record and lets nothing leave. */
  lemma QuietTerminal(s: State, t: State)
    requires Terminal(s) && Grows(s.el, t.el) && SameRecords(s, t) && NoneLeaves(s, t) && Watched(t)
    ensures Terminal(t)
  {
    NoneLeavesKept(s, t);
    TwinsKept(s, t);
  }

  // ---- submit_input_buffer

  lemma OfferTerminal(s: State, queued: bool)
    requires Terminal(s) && SubmitEnabled(s, Offer(queued))
    ensures Terminal(OnOffer(s, queued))
  {
    QuietTerminal(s, OnOffer(s, queued));
  }

  /** Refusing changes the fate of the current input at most. */
  lemma RefuseLeaves(s: State)
    requires Chaining(s)
    ensures NoneLeaves(s, Refuse(s)) && Refuse(s).pc.Resting?
  {}

  lemma GuardTerminal(s: State)
    requires Terminal(s) && SubmitEnabled(s, Guard)
    ensures Terminal(OnGuard(s))
  {
    RefuseLeaves(s.(el := SubmitGuarded(s.el)));
    QuietTerminal(s, OnGuard(s));
  }

  lemma RotateTerminal(s: State)
    requires Terminal(s) && SubmitEnabled(s, Rotate)
    ensures Terminal(OnRotate(s))
  {
    QuietTerminal(s, OnRotate(s));
  }

  lemma PrepareTerminal(s: State, ok: bool)
    requires Terminal(s) && SubmitEnabled(s, Prepare(ok))
    ensures Terminal(OnPrepare(s, ok))
  {
    RefuseLeaves(s);
    QuietTerminal(s, OnPrepare(s, ok));
  }

  lemma PlaceTerminal(s: State)
    requires Terminal(s) && Numbered(s) && Phase(s) && SubmitEnabled(s, Place)
    ensures Terminal(OnPlace(s))
  {
    var t := OnPlace(s);
    PlaceAdds(s);
    hide OnPlace;
    if s.el.pending.None? && !s.el.flushing {
      NewTwin(s, NewFrame(|s.fates| - 1, false, None, None));
      FinishedKept(s, t);
    } else {
      QuietTerminal(s, t);
    }
  }

  lemma SubmitTerminal(s: State, a: SubmitAction)
    requires Terminal(s) && Numbered(s) && Phase(s) && SubmitEnabled(s, a)
    ensures Terminal(SubmitStep(s, a))
  {
    hide Terminal, Numbered, Phase;
    match a
    case Offer(queued) => OfferTerminal(s, queued);
    case Guard => GuardTerminal(s);
    case Rotate => RotateTerminal(s);
    case Prepare(ok) => PrepareTerminal(s, ok);
    case Place => PlaceTerminal(s);
  }

  // ---- transform

  lemma ReadSettingsTerminal(s: State, ok: bool)
    requires Terminal(s) && TransformEnabled(s, ReadSettings(ok))
    ensures Terminal(OnReadSettings(s, ok))
  {
    RefuseLeaves(s);
    QuietTerminal(s, OnReadSettings(s, ok));
  }

  lemma LeaseTerminal(s: State, staging: bool, src: Lookup, dst: Lookup)
    requires Terminal(s) && TransformEnabled(s, Lease(staging, src, dst))
    ensures Terminal(OnLease(s, staging, src, dst))
  {
    RefuseLeaves(s);
    QuietTerminal(s, OnLease(s, staging, src, dst));
  }

  lemma PublishTerminal(s: State)
    requires Terminal(s) && Numbered(s) && Phase(s) && TransformEnabled(s, Publish)
    ensures Terminal(OnPublish(s))
  {
    var t := OnPublish(s);
    PublishMove(s);
    hide OnPublish;
    NewTwin(s, t.el.frames[|s.el.frames|]);
    FinishedKept(s, t);
  }

  lemma DropAbortedTerminal(s: State)
    requires Terminal(s) && TransformEnabled(s, DropAborted)
    ensures Terminal(OnDropAborted(s))
  {
    SameJobsGrow(s.el, OnDropAborted(s).el);
    QuietTerminal(s, OnDropAborted(s));
  }

  lemma HardwareTakesTerminal(s: State)
    requires Terminal(s) && HeldFacts(s) && TransformEnabled(s, HardwareTakes)
    ensures Terminal(OnHardwareTakes(s))
  {
    QuietTerminal(s, OnHardwareTakes(s));
  }

  lemma SubmitReturnsWatched(s: State, fence: Fence, ok: bool, lost: bool)
    requires Watched(s) && HeldFacts(s) && Phase(s) && TransformEnabled(s, SubmitReturns(fence, ok, lost))
    ensures Watched(OnSubmitReturns(s, fence, ok, lost))
  {}

  lemma SubmitReturnsTerminal(s: State, fence: Fence, ok: bool, lost: bool)
    requires Terminal(s) && HeldFacts(s) && Phase(s) && TransformEnabled(s, SubmitReturns(fence, ok, lost))
    ensures Terminal(OnSubmitReturns(s, fence, ok, lost))
  {
    SubmitReturnsWatched(s, fence, ok, lost);
    hide Terminal, Watched, Phase;
    QuietTerminal(s, OnSubmitReturns(s, fence, ok, lost));
  }

  lemma DropSubmittedTerminal(s: State)
    requires Terminal(s) && TransformEnabled(s, DropSubmitted)
    ensures Terminal(OnDropSubmitted(s))
  {
    var t := OnDropSubmitted(s);
    SameJobsGrow(s.el, t.el);
    QuietTerminal(s, t);
  }

  lemma CloseTerminal(s: State)
    requires Terminal(s) && SlotFacts(s) && TransformEnabled(s, Close)
    ensures Terminal(OnClose(s))
  {
    var t := s.(el := SubmitClosed(s.el, s.pc.lost));
    RefuseLeaves(t);
    QuietTerminal(s, OnClose(s));
  }

  lemma BlitReturnsTerminal(s: State, ok: bool, lost: bool)
    requires Terminal(s) && TransformEnabled(s, BlitReturns(ok, lost))
    ensures Terminal(OnBlitReturns(s, ok, lost))
  {
    QuietTerminal(s, OnBlitReturns(s, ok, lost));
  }

  /** A synchronous output leaves at once; its input has no record. */
  lemma CloseBlitTerminal(s: State)
    requires Terminal(s) && Numbered(s) && Phase(s) && TransformEnabled(s, CloseBlit)
    ensures Terminal(OnCloseBlit(s))
  {
    var t := OnCloseBlit(s);
    var u := s.(el := SubmitClosed(s.el, s.pc.lost));
    if s.pc.ok && !s.el.custom {
      assert t.fates == s.fates[Current(s) := Leaving] && t.el.frames == s.el.frames && t.pc.Pushing?;
      hide OnCloseBlit;
      TwinsKept(s, t);
      FinishedKept(s, t);
    } else {
      RefuseLeaves(u);
      QuietTerminal(s, t);
    }
  }

  lemma TransformTerminal(s: State, a: TransformAction)
    requires Terminal(s) && Numbered(s) && Phase(s) && HeldFacts(s) && SlotFacts(s) && TransformEnabled(s, a)
    ensures Terminal(TransformStep(s, a))
  {
    hide Terminal, Numbered, Phase;
    match a
    case ReadSettings(ok) => ReadSettingsTerminal(s, ok);
    case Lease(staging, src, dst) => LeaseTerminal(s, staging, src, dst);
    case Publish => PublishTerminal(s);
    case DropAborted => DropAbortedTerminal(s);
    case HardwareTakes => HardwareTakesTerminal(s);
    case SubmitReturns(fence, ok, lost) => SubmitReturnsTerminal(s, fence, ok, lost);
    case DropSubmitted => DropSubmittedTerminal(s);
    case Close => CloseTerminal(s);
    case BlitReturns(ok, lost) => BlitReturnsTerminal(s, ok, lost);
    case CloseBlit => CloseBlitTerminal(s);
  }

  // ---- take_ready and the drains

  lemma GenerateTerminal(s: State)
    requires Terminal(s) && OutputEnabled(s, Generate)
    ensures Terminal(OnGenerate(s))
  {
    QuietTerminal(s, OnGenerate(s));
  }

  /** The end of a take pushes, drains on, or returns. */
  lemma AfterTakeLeaves(s: State, caller: Caller, output: Option<nat>, good: bool)
    requires Chaining(s) || caller.EventDrain?
    ensures NoneLeaves(s, AfterTake(s, caller, output, good)) && Watched(AfterTake(s, caller, output, good))
  {
    if caller.SyncDrain? { RefuseLeaves(s); }
  }

  lemma TakeTerminal(s: State)
    requires Terminal(s) && OutputEnabled(s, Take)
    ensures Terminal(OnTake(s))
  {
    SameJobsGrow(s.el, OnTake(s).el);
    if s.el.ready.None? { AfterTakeLeaves(s.(el := TakeStarted(s.el)), s.pc.caller, None, true); }
    QuietTerminal(s, OnTake(s));
  }

  lemma RecheckTerminal(s: State)
    requires Terminal(s) && OutputEnabled(s, Recheck)
    ensures Terminal(OnRecheck(s))
  {
    QuietTerminal(s, OnRecheck(s));
  }

  lemma PollReadyTerminal(s: State, status: Status, late: bool)
    requires Terminal(s) && OutputEnabled(s, PollReady(status, late))
    ensures Terminal(OnPollReady(s, status, late))
  {
    QuietTerminal(s, OnPollReady(s, status, late));
  }

  /** A completed take lets every record of its input leave, and all of them are over. */
  lemma DecideTerminal(s: State)
    requires Terminal(s) && HeldFacts(s) && OutputEnabled(s, Decide)
    ensures Terminal(OnDecide(s))
  {
    var t := OnDecide(s);
    DecideFates(s);
    SameJobsGrow(s.el, t.el);
    TwinsKept(s, t);
    if !TakenAway(s.el, s.pc.f) && s.pc.last == Complete {
      forall f | 0 <= f < |s.el.frames| && s.el.frames[f].n == s.el.frames[s.pc.f].n ensures Over(s.el.frames[f]) {}
    }
    FinishedKept(s, t);
  }

  lemma DropTakenTerminal(s: State)
    requires Terminal(s) && OutputEnabled(s, DropTaken)
    ensures Terminal(OnDropTaken(s))
  {
    SameJobsGrow(s.el, OnDropTaken(s).el);
    QuietTerminal(s, OnDropTaken(s));
  }

  lemma EndTakeTerminal(s: State)
    requires Terminal(s) && OutputEnabled(s, EndTake)
    ensures Terminal(OnEndTake(s))
  {
    hide Terminal, Watched;
    var u := s.(el := s.el.(waiters := s.el.waiters - 1));
    assert OnEndTake(s) == AfterTake(u, s.pc.caller, s.pc.output, s.pc.good);
    AfterTakeLeaves(u, s.pc.caller, s.pc.output, s.pc.good);
    hide OnEndTake, AfterTake;
    QuietTerminal(s, OnEndTake(s));
  }

  lemma PushLeaves(s: State, ok: bool)
    requires OutputEnabled(s, Push(ok)) && s.fates[s.pc.n] == Leaving
    ensures NoneLeaves(s, OnPush(s, ok)) && Watched(OnPush(s, ok)) && OnPush(s, ok).el == s.el
  {
    if s.pc.caller.SyncDrain? && !ok {
      RefuseLeaves(SetFate(s.(pushed := s.pushed + [s.pc.n]), s.pc.n, Pushed));
    } else {
      PushOnLeaves(s, ok);
    }
  }

  lemma PushOnLeaves(s: State, ok: bool)
    requires OutputEnabled(s, Push(ok)) && s.fates[s.pc.n] == Leaving && (ok || !s.pc.caller.SyncDrain?)
    ensures NoneLeaves(s, OnPush(s, ok)) && Watched(OnPush(s, ok)) && OnPush(s, ok).el == s.el
  {
    assert OnPush(s, ok).fates == s.fates[s.pc.n := Pushed];
  }

  lemma PushTerminal(s: State, ok: bool)
    requires Terminal(s) && OutputEnabled(s, Push(ok)) && s.fates[s.pc.n] == Leaving
    ensures Terminal(OnPush(s, ok))
  {
    hide Terminal;
    PushLeaves(s, ok);
    QuietTerminal(s, OnPush(s, ok));
  }

  lemma DrainHeadTerminal(s: State)
    requires Terminal(s) && OutputEnabled(s, DrainHead)
    ensures Terminal(OnDrainHead(s))
  {
    QuietTerminal(s, OnDrainHead(s));
  }

  lemma OutputTerminal(s: State, a: OutputAction)
    requires Terminal(s) && HeldFacts(s) && OutputEnabled(s, a) && FatesTell(LedgerOf(s))
    ensures Terminal(OutputStep(s, a))
  {
    hide Terminal, HeldFacts;
    match a
    case Generate => GenerateTerminal(s);
    case Take => TakeTerminal(s);
    case Recheck => RecheckTerminal(s);
    case PollReady(status, late) => PollReadyTerminal(s, status, late);
    case Decide => DecideTerminal(s);
    case DropTaken => DropTakenTerminal(s);
    case EndTake => EndTakeTerminal(s);
    case Push(ok) =>
      assert LedgerOf(s).out == Some(s.pc.n);
      PushTerminal(s, ok);
    case DrainHead => DrainHeadTerminal(s);
  }

  // ---- flushes, state changes and the hardware

  lemma FlushTerminal(s: State, t: State)
    requires Terminal(s) && t.fates == OnFlush(s).fates && t.el.frames == s.el.frames && Watched(t)
    ensures Terminal(t)
  {
    QuietTerminal(s, t);
  }

  lemma FlushingWatched(s: State, t: State)
    requires Watched(s) && t.pc == s.pc && t.fates == OnFlush(s).fates && t.el.frames == s.el.frames && t.el.flushing
    ensures Watched(t)
  {}

  lemma FlushingTerminal(s: State, t: State)
    requires Terminal(s) && t.fates == OnFlush(s).fates && t.el.frames == s.el.frames
    requires t.pc == s.pc && t.el.flushing
    ensures Terminal(t)
  {
    FlushingWatched(s, t);
    FlushTerminal(s, t);
  }

  /** A drain that finds no exposed record takes the slot of a job that is over, or none. */
  lemma DrainWatched(s: State)
    requires Books(s) && HeldFacts(s) && Phase(s) && Watched(s)
    requires forall f: nat :: !Exposed(s, f)
    ensures Watched(OnFlush(s))
  {
    if s.el.frames != [] {
      var f := |s.el.frames| - 1;
      assert Entry(s, f);
      assert !Exposed(s, f);
    }
  }

  lemma DrainTerminal(s: State)
    requires Terminal(s) && Books(s) && HeldFacts(s) && Phase(s) && forall f: nat :: !Exposed(s, f)
    ensures Terminal(OnFlush(s))
  {
    DrainWatched(s);
    FlushTerminal(s, OnFlush(s));
  }

  lemma QuietControlTerminal(s: State, a: ControlAction)
    requires Terminal(s) && ControlEnabled(s, a)
    requires a.Event? || a.Resume? || a.StopRound? || a.Retire? || a.Start?
    ensures Terminal(ControlStep(s, a))
  {
    hide Finished, TwinsOver;
    QuietTerminal(s, ControlStep(s, a));
  }

  lemma HardwareEndsTerminal(s: State, f: nat, ok: bool)
    requires Terminal(s) && ControlEnabled(s, HardwareEnds(f, ok))
    ensures Terminal(OnHardwareEnds(s, f, ok))
  {
    QuietTerminal(s, OnHardwareEnds(s, f, ok));
  }

  lemma ControlTerminal(s: State, a: ControlAction)
    requires Terminal(s) && Books(s) && HeldFacts(s) && Phase(s) && ControlEnabled(s, a) && SafeStep(s, Control(a))
    ensures Terminal(ControlStep(s, a))
  {
    hide Phase, Terminal, HeldFacts, Books;
    match a
    case FlushStopEvent => FlushTerminal(s, ControlStep(s, a));
    case FlushStart => FlushingTerminal(s, ControlStep(s, a));
    case StopBegin => FlushingTerminal(s, ControlStep(s, a));
    case StateChangeDrain => DrainTerminal(s);
    case HardwareEnds(f, ok) => HardwareEndsTerminal(s, f, ok);
    case _ => QuietControlTerminal(s, a);
  }

  // ---- the other threads

  lemma ReaperSameJobs(s: State, a: ReaperAction)
    requires ReaperEnabled(s, a)
    ensures SameJobs(s.el.frames, ReaperStep(s, a).el.frames)
  {}

  lemma SameFlowTerminal(s: State, t: State)
    requires Terminal(s) && SameFlow(s, t) && SameJobs(s.el.frames, t.el.frames)
    ensures Terminal(t)
  {
    SameJobsGrow(s.el, t.el);
    QuietTerminal(s, t);
  }

  lemma StepKeepsTerminal(s: State, a: Action)
    requires Inv(s) && Delivery(s) && Terminal(s) && Enabled(s, a) && SafeStep(s, a)
    ensures Terminal(Step(s, a))
  {
    hide Terminal;
    match a
    case Submit(x) => SubmitTerminal(s, x);
    case Transform(x) => TransformTerminal(s, x);
    case Output(x) => OutputTerminal(s, x);
    case Control(x) => ControlTerminal(s, x);
    case Reaping(w, x) => ReapSameFlow(s, w, x); ReapUnsubmitted(s, w, x); SameFlowTerminal(s, Step(s, a));
    case Reaper(x) => ReaperSameFlow(s, x); ReaperSameJobs(s, x); SameFlowTerminal(s, Step(s, a));
  }

  lemma {:induction false} RunKeepsTerminal(s: State, actions: seq<Action>, last: State)
    requires Inv(s) && Delivery(s) && Terminal(s) && Run(s, actions, last) && SafeRun(s, actions)
    ensures Inv(last) && Delivery(last) && Terminal(last)
    decreases |actions|
  {
    hide Inv, Delivery, Terminal;
    if actions != [] {
      StepKeepsInv(s, actions[0]);
      StepKeepsDelivery(s, actions[0]);
      StepKeepsTerminal(s, actions[0]);
      RunKeepsTerminal(Step(s, actions[0]), actions[1..], last);
    }
  }

  lemma InitialTerminal(capable: bool)
    ensures Terminal(Initial(capable))
  {}

  lemma NotOver(s: State, f: nat)
    requires Books(s) && f < |s.el.frames| && (s.el.frames[f].job.Running? || s.el.frames[f].fence.Missing?)
    ensures !Over(s.el.frames[f])
  {
    assert Entry(s, f);
  }

  /** The output of an unfinished job is downstream, or on its way there. */
  predicate PushedEarly(s: State, f: nat) {
    && f < |s.el.frames| && (s.el.frames[f].job.Running? || s.el.frames[f].fence.Missing?)
    && (s.el.frames[f].n in s.pushed || Outgoing(s.pc) == Some(s.el.frames[f].n))
  }

  lemma TerminalMeansNotEarly(s: State, f: nat)
    requires Books(s) && Numbered(s) && FatesTell(LedgerOf(s)) && Finished(s)
    ensures !PushedEarly(s, f)
  {
    if f < |s.el.frames| && (s.el.frames[f].job.Running? || s.el.frames[f].fence.Missing?) {
      NotOver(s, f);
      var n := s.el.frames[f].n;
      if f < |s.el.frames| - 1 { assert n <= s.el.frames[|s.el.frames| - 1].n; }
      assert n < |s.fates| && LedgerOf(s).fates[n] == s.fates[n];
    }
  }

  /** No buffer goes downstream before the job that writes it is over. */
  lemma NeverPushedBeforeTerminal(capable: bool, actions: seq<Action>, s: State, f: nat)
    requires Run(Initial(capable), actions, s) && SafeRun(Initial(capable), actions)
    ensures !PushedEarly(s, f)
  {
    InitialInv(capable);
    InitialDelivery(capable);
    InitialTerminal(capable);
    RunKeepsTerminal(Initial(capable), actions, s);
    TerminalMeansNotEarly(s, f);
  }
}
