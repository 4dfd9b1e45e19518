/** What becomes of every input: the order of delivery, the fate of each buffer, and why no buffer
    is pushed while the job that writes it still runs. */
module RgaDelivery {
  import opened Options
  import opened ImportCache
  import opened RgaFrames
  import opened RgaPipeline
  import opened RgaOwnership
  import opened DeliveryLedger

  /** The output on its way downstream. */
  function Outgoing(pc: Pc): Option<nat> {
    match pc
    case Dropping(_, output, _) => output
    case Taken(_, output, _) => output
    case Pushing(_, n) => Some(n)
    case _ => None
  }

  /** Only a good take brings an output out. */
  predicate GoodOutput(pc: Pc) {
    match pc
    case Dropping(_, output, good) => output.Some? ==> good
    case Taken(_, output, good) => output.Some? ==> good
    case Draining(caller) => !caller.Chain?
    case _ => true
  }

  /** Number of the newest record, -1 without one. */
  function Newest(frames: seq<Frame>): int {
    if frames == [] then -1 else frames[|frames| - 1].n
  }

  predicate Numbered(s: State) {
    && (forall f, g :: 0 <= f < g < |s.el.frames| ==> s.el.frames[f].n <= s.el.frames[g].n)
    && Newest(s.el.frames) <= Current(s)
  }

  predicate CurrentIs(s: State, fate: Fate) {
    |s.fates| > 0 && s.fates[|s.fates| - 1] == fate
  }

  /** The current input has a record, which is pending unless a flush or a drain took it. */
  predicate OnRecord(s: State) {
    && Newest(s.el.frames) == Current(s)
    && (s.el.pending == Some(|s.el.frames| - 1) || s.el.pending.None?)
    && NumberIn(s.el, s.el.ready) != Some(|s.fates| - 1)
    && (CurrentIs(s, Pipelined) || CurrentIs(s, Flushed))
  }

  predicate Unrecorded(s: State) { Newest(s.el.frames) < Current(s) }

  /** How far the current input has come, by the position of the streaming thread. */
  predicate Phase(s: State) {
    match s.pc
    case Resting | Resuming => true
    case Entered | Admitted =>
      Unrecorded(s) && CurrentIs(s, if s.queued then Offered else Skipped)
    case Preparing | Converting | Leasing(_) | Publishing(_, _) | Blitting(_, _) | Blitted(_, _) =>
      Unrecorded(s) && CurrentIs(s, Offered)
    case Aborting(f) => f == |s.el.frames| - 1 && CurrentIs(s, Offered)
    case Submitting(f, _) => f == |s.el.frames| - 1 && OnRecord(s)
    case Submitted(f, ok, _, _) =>
      if ok then f == |s.el.frames| - 1 && OnRecord(s) else CurrentIs(s, Refused)
    case Finishing(ok, _, _) =>
      if ok then OnRecord(s) else CurrentIs(s, Refused) || CurrentIs(s, Offered)
    case Placing => OnRecord(s) || (Unrecorded(s) && CurrentIs(s, Offered) && s.el.pending.None?)
    case Generating => if s.queued then Unrecorded(s) && CurrentIs(s, Offered) else Answered(s)
    case _ => OutputPhase(s) && GoodOutput(s.pc)
  }

  predicate Answered(s: State) {
    |s.fates| > 0 && !CurrentIs(s, Offered) && !CurrentIs(s, Refused)
  }

  /** The same inside take_ready and the drains. */
  predicate OutputPhase(s: State) {
    if BeforeSync(s.pc) then Unrecorded(s) && CurrentIs(s, if s.queued then Offered else Skipped)
    else OfChain(s.pc) ==> Answered(s)
  }

  predicate OfChain(pc: Pc) { CallerOf(pc) == Some(Chain) }

  /** A chain call is in progress. */
  predicate InChain(s: State) {
    !s.pc.Resting? && !s.pc.Resuming? && CallerOf(s.pc) != Some(EventDrain)
  }

  /** Number of the input in a slot. */
  function NumberIn(el: Element, slot: Option<nat>): Option<nat> {
    if slot.Some? && slot.value < |el.frames| then Some(el.frames[slot.value].n) else None
  }

  function LedgerOf(s: State): Ledger {
    Ledger(NumberIn(s.el, s.el.pending), NumberIn(s.el, s.el.ready), Outgoing(s.pc), s.fates, s.pushed, s.el.dropped)
  }

  predicate SlotsValid(el: Element) {
    (el.pending.Some? ==> el.pending.value < |el.frames|) && (el.ready.Some? ==> el.ready.value < |el.frames|)
  }

  lemma BooksGiveSlots(s: State)
    requires Books(s)
    ensures SlotsValid(s.el)
    ensures s.el.pending.Some? ==> s.el.pending != s.el.ready
  {
    if s.el.pending.Some? { assert Entry(s, s.el.pending.value); }
    if s.el.ready.Some? { assert Entry(s, s.el.ready.value); }
  }

  /** Only the chain call in progress is undecided, and OK was never answered for a refused input. */
  predicate Answers(s: State) {
    && (forall n :: 0 <= n < |s.fates| && s.fates[n] == Offered ==> n == Current(s) && InChain(s))
    && (forall n :: n in s.returnedOk ==>
          n < |s.fates| && s.fates[n] != Offered && s.fates[n] != Refused && (InChain(s) ==> n < Current(s)))
  }

  ghost predicate Delivery(s: State) {
    Numbered(s) && Phase(s) && Sound(LedgerOf(s)) && Answers(s)
  }

  lemma InitialDelivery(capable: bool)
    ensures Delivery(Initial(capable))
  {}

  lemma OfferSound(s: State, queued: bool)
    requires Sound(LedgerOf(s)) && s.pc.Resting?
    ensures Sound(LedgerOf(OnOffer(s, queued)))
  {
    OfferKeeps(LedgerOf(s), if queued then Offered else Skipped);
  }

  /** Refusing touches no slot. */
  lemma RefuseSound(s: State)
    requires Sound(LedgerOf(s)) && Chaining(s) && Outgoing(s.pc).None?
    ensures Sound(LedgerOf(Refuse(s)))
  {
    var l := LedgerOf(s);
    var n := |s.fates| - 1;
    if s.fates[n] == Offered || s.fates[n] == Skipped {
      LooseKeeps(l, n, Refused);
      assert LedgerOf(Refuse(s)) == l.(fates := l.fates[n := Refused]) by { hide Sound; }
    } else {
      assert LedgerOf(Refuse(s)) == l by { hide Sound; }
    }
  }

  lemma GuardSound(s: State)
    requires Sound(LedgerOf(s)) && SubmitEnabled(s, Guard)
    ensures Sound(LedgerOf(OnGuard(s)))
  {
    var t := s.(el := SubmitGuarded(s.el));
    assert LedgerOf(t) == LedgerOf(s);
    if s.el.flushing { RefuseSound(t); }
  }

  lemma RotateSound(s: State)
    requires Sound(LedgerOf(s)) && SubmitEnabled(s, Rotate) && s.el.ready.None?
    ensures Sound(LedgerOf(OnRotate(s)))
  {
    if s.queued { RotateKeeps(LedgerOf(s)); }
  }

  lemma PlaceMove(s: State)
    requires SubmitEnabled(s, Place) && SlotsValid(s.el)
    ensures var l := LedgerOf(s);
            var n := |s.fates| - 1;
            LedgerOf(OnPlace(s))
            == if s.el.pending.None? && !s.el.flushing then l.(fates := l.fates[n := Pipelined], pending := Some(n))
               else if s.el.pending.None? && CurrentIs(s, Offered) then l.(fates := l.fates[n := Flushed])
               else l
  {
    var t := OnPlace(s);
    assert NumberIn(t.el, t.el.ready) == NumberIn(s.el, s.el.ready);
  }

  lemma PlaceSound(s: State)
    requires Sound(LedgerOf(s)) && SubmitEnabled(s, Place) && Phase(s) && Numbered(s) && SlotsValid(s.el)
    ensures Sound(LedgerOf(OnPlace(s)))
  {
    var l := LedgerOf(s);
    PlaceMove(s);
    if s.el.pending.None? && !s.el.flushing {
      EnterKeeps(l, |s.fates| - 1);
    } else if s.el.pending.None? && CurrentIs(s, Offered) {
      LooseKeeps(l, |s.fates| - 1, Flushed);
    }
  }

  lemma PublishSound(s: State)
    requires Sound(LedgerOf(s)) && TransformEnabled(s, Publish) && Phase(s) && s.el.pending.None? && SlotsValid(s.el)
    ensures Sound(LedgerOf(OnPublish(s)))
  {
    var l := LedgerOf(s);
    var t := OnPublish(s);
    assert NumberIn(t.el, t.el.ready) == l.ready;
    if !s.el.flushing { EnterKeeps(l, |s.fates| - 1); }
  }

  lemma SubmitReturnsMove(s: State, fence: Fence, ok: bool, lost: bool)
    requires TransformEnabled(s, SubmitReturns(fence, ok, lost)) && Phase(s) && SlotsValid(s.el)
    requires s.el.flushing ==> s.el.pending.None? && s.el.ready.None?
    ensures var l := LedgerOf(s);
            var n := |s.fates| - 1;
            LedgerOf(OnSubmitReturns(s, fence, ok, lost))
            == if ok then l
               else l.(fates := l.fates[n := Refused], pending := if l.pending == Some(n) then None else l.pending)
  {
    var t := OnSubmitReturns(s, fence, ok, lost);
    assert NumberIn(t.el, t.el.ready) == NumberIn(s.el, s.el.ready);
  }

  lemma SubmitReturnsSound(s: State, fence: Fence, ok: bool, lost: bool)
    requires Sound(LedgerOf(s)) && TransformEnabled(s, SubmitReturns(fence, ok, lost)) && Phase(s)
    requires Numbered(s) && SlotsValid(s.el) && (s.el.pending.Some? ==> s.el.pending != s.el.ready)
    requires s.el.flushing ==> s.el.pending.None? && s.el.ready.None?
    ensures Sound(LedgerOf(OnSubmitReturns(s, fence, ok, lost)))
  {
    SubmitReturnsMove(s, fence, ok, lost);
    if !ok { WithdrawKeeps(LedgerOf(s), |s.fates| - 1); }
  }

  /** take_ready gives up, drops the record, or takes its output out. */
  lemma DecideMove(s: State)
    requires OutputEnabled(s, Decide) && SlotsValid(s.el) && Outgoing(s.pc).None?
    ensures var l := LedgerOf(s);
            LedgerOf(OnDecide(s))
            == if TakenAway(s.el, s.pc.f) then l
               else if s.pc.last == Complete then
                 l.(ready := None, out := l.ready, fates := l.fates[s.el.frames[s.pc.f].n := Leaving])
               else l.(ready := None, fates := l.fates[s.el.frames[s.pc.f].n := Dropped], dropped := l.dropped + 1)
  {
    var t := OnDecide(s);
    DecideFates(s);
    assert NumberIn(t.el, t.el.pending) == NumberIn(s.el, s.el.pending);
    if !TakenAway(s.el, s.pc.f) { assert t.el.ready.None?; }
  }

  lemma DecideSound(s: State)
    requires Sound(LedgerOf(s)) && OutputEnabled(s, Decide) && SlotsValid(s.el)
    ensures Sound(LedgerOf(OnDecide(s)))
  {
    var l := LedgerOf(s);
    DecideMove(s);
    if !TakenAway(s.el, s.pc.f) {
      assert l.ready == Some(s.el.frames[s.pc.f].n);
      if s.pc.last == Complete { TakeOutKeeps(l); } else { DropKeeps(l); }
    }
  }

  /** The state between the push and what its answer leads to. */
  function AfterPushing(s: State): State
    requires s.pc.Pushing? && s.pc.n < |s.fates|
  {
    SetFate(s.(pushed := s.pushed + [s.pc.n]), s.pc.n, Pushed).(pc := Generating)
  }

  lemma PushMove(s: State, ok: bool)
    requires OutputEnabled(s, Push(ok)) && (s.pc.caller.SyncDrain? ==> Chaining(s))
    ensures var l := LedgerOf(s);
            LedgerOf(AfterPushing(s))
            == l.(out := None, fates := l.fates[s.pc.n := Pushed], pushed := l.pushed + [s.pc.n])
    ensures LedgerOf(OnPush(s, ok))
            == LedgerOf(if s.pc.caller.SyncDrain? && !ok then Refuse(AfterPushing(s)) else AfterPushing(s))
  {}

  lemma PushSound(s: State, ok: bool)
    requires Sound(LedgerOf(s)) && OutputEnabled(s, Push(ok)) && (s.pc.caller.SyncDrain? ==> Chaining(s))
    ensures Sound(LedgerOf(OnPush(s, ok)))
  {
    PushKeeps(LedgerOf(s));
    PushMove(s, ok);
    if s.pc.caller.SyncDrain? && !ok { RefuseSound(AfterPushing(s)); }
  }

  lemma FlushSound(s: State)
    requires Sound(LedgerOf(s))
    ensures Sound(LedgerOf(OnFlush(s)))
  {
    FlushKeeps(LedgerOf(s), FlushFates(s.fates, s.el));
  }

  lemma TransformedSound(s: State, ok: bool)
    requires Sound(LedgerOf(s)) && Chaining(s) && Outgoing(s.pc).None?
    requires ok && !s.el.custom ==> CurrentIs(s, Offered) && s.el.pending.None? && s.el.ready.None?
    ensures Sound(LedgerOf(Transformed(s, ok)))
  {
    if !ok { RefuseSound(s); }
    else if !s.el.custom { SyncOutKeeps(LedgerOf(s), |s.fates| - 1); }
  }

  lemma CloseSound(s: State)
    requires Sound(LedgerOf(s)) && TransformEnabled(s, Close) && s.el.custom
    ensures Sound(LedgerOf(OnClose(s)))
  {
    var t := s.(el := SubmitClosed(s.el, s.pc.lost));
    assert LedgerOf(t) == LedgerOf(s);
    if s.pc.flushed { RefuseSound(t); } else { TransformedSound(t, s.pc.ok); }
  }

  lemma CloseBlitSound(s: State)
    requires Sound(LedgerOf(s)) && TransformEnabled(s, CloseBlit) && Phase(s)
    requires !s.el.custom ==> s.el.pending.None? && s.el.ready.None?
    ensures Sound(LedgerOf(OnCloseBlit(s)))
  {
    var t := s.(el := SubmitClosed(s.el, s.pc.lost));
    assert LedgerOf(t) == LedgerOf(s);
    TransformedSound(t, s.pc.ok);
  }

  lemma SubmitSound(s: State, a: SubmitAction)
    requires Inv(s) && Delivery(s) && SubmitEnabled(s, a)
    ensures Sound(LedgerOf(SubmitStep(s, a)))
  {
    BooksGiveSlots(s);
    match a
    case Offer(queued) => OfferSound(s, queued);
    case Guard => GuardSound(s);
    case Rotate => RotateSound(s);
    case Prepare(ok) => if !ok { RefuseSound(s); } else { assert LedgerOf(OnPrepare(s, ok)) == LedgerOf(s); }
    case Place => PlaceSound(s);
  }

  /** Steps that leave numbers, fates and deliveries alone. */
  lemma SameLedger(s: State, t: State)
    requires SameJobs(s.el.frames, t.el.frames) && t.el.pending == s.el.pending && t.el.ready == s.el.ready
    requires t.fates == s.fates && t.pushed == s.pushed && t.el.dropped == s.el.dropped
    requires Outgoing(t.pc) == Outgoing(s.pc)
    ensures LedgerOf(t) == LedgerOf(s)
  {}

  lemma QuietTransformMove(s: State, a: TransformAction)
    requires TransformEnabled(s, a)
    requires (a.ReadSettings? && a.ok) || (a.Lease? && !s.el.flushing)
             || a.DropAborted? || a.HardwareTakes? || a.DropSubmitted? || a.BlitReturns?
    ensures LedgerOf(TransformStep(s, a)) == LedgerOf(s)
  {
    if !a.HardwareTakes? { SameLedger(s, TransformStep(s, a)); }
  }

  lemma TransformSound(s: State, a: TransformAction)
    requires Inv(s) && Delivery(s) && TransformEnabled(s, a)
    ensures Sound(LedgerOf(TransformStep(s, a)))
  {
    BooksGiveSlots(s);
    match a
    case ReadSettings(ok) => if !ok { RefuseSound(s); } else { QuietTransformMove(s, a); }
    case Lease(staging, src, dst) => if s.el.flushing { RefuseSound(s); } else { QuietTransformMove(s, a); }
    case Publish => PublishSound(s);
    case DropAborted => QuietTransformMove(s, a);
    case HardwareTakes => QuietTransformMove(s, a);
    case SubmitReturns(fence, ok, lost) => SubmitReturnsSound(s, fence, ok, lost);
    case DropSubmitted => QuietTransformMove(s, a);
    case Close => CloseSound(s);
    case BlitReturns(ok, lost) => QuietTransformMove(s, a);
    case CloseBlit => CloseBlitSound(s);
  }

  /** Ending a take moves nothing; a failed one refuses the buffer waiting behind the drain. */
  lemma EndTakeMove(s: State)
    requires OutputEnabled(s, EndTake) && (s.pc.output.Some? ==> s.pc.good)
    ensures var t := s.(el := s.el.(waiters := s.el.waiters - 1));
            && LedgerOf(t) == LedgerOf(s)
            && (if !s.pc.good && s.pc.caller.SyncDrain? then OnEndTake(s) == Refuse(t)
                else LedgerOf(OnEndTake(s)) == LedgerOf(s))
  {}

  lemma EndTakeSound(s: State)
    requires Sound(LedgerOf(s)) && OutputEnabled(s, EndTake) && (s.pc.output.Some? ==> s.pc.good)
    ensures Sound(LedgerOf(OnEndTake(s)))
  {
    EndTakeMove(s);
    if !s.pc.good && s.pc.caller.SyncDrain? {
      RefuseSound(s.(el := s.el.(waiters := s.el.waiters - 1)));
    }
  }

  lemma TakeMove(s: State)
    requires OutputEnabled(s, Take)
    ensures LedgerOf(OnTake(s)) == LedgerOf(s)
  {
    if s.el.ready.Some? { SameLedger(s, OnTake(s)); }
  }

  lemma DropTakenMove(s: State)
    requires OutputEnabled(s, DropTaken)
    ensures LedgerOf(OnDropTaken(s)) == LedgerOf(s)
  {
    var t := OnDropTaken(s);
    assert SameSlots(s.el, t.el) && t.el.dropped == s.el.dropped;
    assert t.fates == s.fates && t.pushed == s.pushed && Outgoing(t.pc) == Outgoing(s.pc);
    hide OnDropTaken, LedgerOf;
    SameLedger(s, t);
  }

  lemma DrainHeadMove(s: State)
    requires OutputEnabled(s, DrainHead) && SlotsValid(s.el)
    ensures var l := LedgerOf(s);
            LedgerOf(OnDrainHead(s)) == if l.ready.None? then l.(ready := l.pending, pending := None) else l
  {}

  lemma GenerateSound(s: State)
    requires Sound(LedgerOf(s)) && Phase(s) && OutputEnabled(s, Generate)
    ensures Sound(LedgerOf(OnGenerate(s)))
  {
    if s.el.flushing && s.queued {
      LooseKeeps(LedgerOf(s), |s.fates| - 1, Refused);
    } else {
      assert LedgerOf(OnGenerate(s)) == LedgerOf(s);
    }
  }

  lemma OutputSound(s: State, a: OutputAction)
    requires SlotsValid(s.el) && Sound(LedgerOf(s)) && Phase(s) && OutputEnabled(s, a)
    ensures Sound(LedgerOf(OutputStep(s, a)))
  {
    match a
    case Generate => GenerateSound(s);
    case Take => TakeMove(s);
    case Recheck => assert LedgerOf(OnRecheck(s)) == LedgerOf(s);
    case PollReady(status, late) => assert LedgerOf(OnPollReady(s, status, late)) == LedgerOf(s);
    case Decide => DecideSound(s);
    case DropTaken => DropTakenMove(s);
    case EndTake => EndTakeSound(s);
    case Push(ok) => PushSound(s, ok);
    case DrainHead =>
      DrainHeadMove(s);
      if LedgerOf(s).ready.None? { RotateKeeps(LedgerOf(s)); }
  }

  lemma FlushStartMove(s: State)
    ensures LedgerOf(OnFlushStart(s)) == LedgerOf(OnFlush(s))
  {}

  lemma ControlSound(s: State, a: ControlAction)
    requires Sound(LedgerOf(s)) && ControlEnabled(s, a)
    ensures Sound(LedgerOf(ControlStep(s, a)))
  {
    hide Sound;
    FlushSound(s);
    FlushStartMove(s);
    match a
    case FlushStopEvent => assert LedgerOf(ControlStep(s, a)) == LedgerOf(OnFlush(s));
    case FlushStart =>
    case StateChangeDrain =>
    case StopBegin => assert LedgerOf(ControlStep(s, a)) == LedgerOf(OnFlushStart(s));
    case _ => assert LedgerOf(ControlStep(s, a)) == LedgerOf(s);
  }

  lemma SameFlowSound(s: State, t: State)
    requires Sound(LedgerOf(s)) && SameFlow(s, t)
    ensures Sound(LedgerOf(t))
  {
    assert LedgerOf(t) == LedgerOf(s);
  }

  /** What placing does to records and fates. */
  lemma PlaceAdds(s: State)
    requires SubmitEnabled(s, Place)
    ensures var t := OnPlace(s);
            && t.pc.Generating?
            && (if s.el.pending.None? && !s.el.flushing then
                  && t.el.frames == s.el.frames + [NewFrame(|s.fates| - 1, false, None, None)]
                  && t.fates == s.fates[Current(s) := Pipelined]
                else
                  && t.el.frames == s.el.frames
                  && (t.fates == s.fates || t.fates == s.fates[Current(s) := Flushed]))
  {}

  lemma PlacePhase(s: State)
    requires Numbered(s) && Phase(s) && SubmitEnabled(s, Place) && SlotFacts(s)
    ensures Numbered(OnPlace(s)) && Phase(OnPlace(s))
  {}

  lemma SubmitPhase(s: State, a: SubmitAction)
    requires Numbered(s) && Phase(s) && SubmitEnabled(s, a) && SlotFacts(s)
    ensures Numbered(SubmitStep(s, a)) && Phase(SubmitStep(s, a))
  {
    if a.Place? { PlacePhase(s); }
  }

  /** Inside take_ready and the drains the phase survives as long as the current fate does. */
  lemma OutputPhaseKept(s: State, t: State)
    requires Numbered(s) && Phase(s) && CallerOf(s.pc).Some?
    requires CallerOf(t.pc) == CallerOf(s.pc) && GoodOutput(t.pc) && t.queued == s.queued
    requires SameJobs(s.el.frames, t.el.frames) && |t.fates| == |s.fates|
    requires Answered(s) ==> Answered(t)
    requires CurrentIs(s, Offered) ==> CurrentIs(t, Offered)
    requires CurrentIs(s, Skipped) ==> CurrentIs(t, Skipped)
    ensures Numbered(t) && Phase(t)
  {
    SameNumbers(s, t);
  }

  lemma SameNumbers(s: State, t: State)
    requires Numbered(s) && SameJobs(s.el.frames, t.el.frames) && |t.fates| == |s.fates|
    ensures Numbered(t) && Newest(t.el.frames) == Newest(s.el.frames)
  {}

  /** Records are numbered in the order of their inputs. */
  lemma ReadyIsNotNewer(s: State)
    requires Numbered(s) && SlotsValid(s.el)
    ensures var n := NumberIn(s.el, s.el.ready); n.Some? ==> n.value <= Newest(s.el.frames)
  {}

  /** What publishing does to numbers and fates. */
  lemma PublishMove(s: State)
    requires TransformEnabled(s, Publish)
    ensures var t := OnPublish(s);
            var fr := t.el.frames[|s.el.frames|];
            && t.el.frames == s.el.frames + [fr] && fr.n == Current(s) && t.el.ready == s.el.ready
            && (if s.el.flushing then t.pc == Aborting(|s.el.frames|) && t.fates == s.fates
                else t.pc == Submitting(|s.el.frames|, t.el.generation) && t.el.pending == Some(|s.el.frames|)
                     && t.fates == s.fates[Current(s) := Pipelined])
  {}

  lemma PublishPhase(s: State)
    requires Numbered(s) && Phase(s) && TransformEnabled(s, Publish) && SlotsValid(s.el)
    ensures Numbered(OnPublish(s)) && Phase(OnPublish(s))
  {
    ReadyIsNotNewer(s);
    PublishMove(s);
    hide OnPublish;
  }

  lemma SubmitReturnsPhase(s: State, fence: Fence, ok: bool, lost: bool)
    requires Numbered(s) && Phase(s) && TransformEnabled(s, SubmitReturns(fence, ok, lost))
    ensures Numbered(OnSubmitReturns(s, fence, ok, lost)) && Phase(OnSubmitReturns(s, fence, ok, lost))
  {}

  lemma ClosePhase(s: State)
    requires Numbered(s) && Phase(s) && SlotFacts(s) && TransformEnabled(s, Close)
    ensures Numbered(OnClose(s)) && Phase(OnClose(s))
  {
    hide Numbered;
    SameNumbers(s, OnClose(s));
  }

  lemma CloseBlitPhase(s: State)
    requires Numbered(s) && Phase(s) && SlotFacts(s) && TransformEnabled(s, CloseBlit)
    ensures Numbered(OnCloseBlit(s)) && Phase(OnCloseBlit(s))
  {
    SameNumbers(s, OnCloseBlit(s));
  }

  lemma ReadSettingsPhase(s: State, ok: bool)
    requires Numbered(s) && Phase(s) && TransformEnabled(s, ReadSettings(ok))
    ensures Numbered(OnReadSettings(s, ok)) && Phase(OnReadSettings(s, ok))
  {
    SameNumbers(s, OnReadSettings(s, ok));
  }

  lemma LeaseMove(s: State, staging: bool, src: Lookup, dst: Lookup)
    requires TransformEnabled(s, Lease(staging, src, dst))
    ensures var t := OnLease(s, staging, src, dst);
            && t.el.frames == s.el.frames && |t.fates| == |s.fates|
            && (if s.el.flushing then t.pc.Resting? else (t.pc.Publishing? || t.pc.Blitting?) && t.fates == s.fates)
  {}

  lemma LeasePhase(s: State, staging: bool, src: Lookup, dst: Lookup)
    requires Numbered(s) && Phase(s) && TransformEnabled(s, Lease(staging, src, dst))
    ensures Numbered(OnLease(s, staging, src, dst)) && Phase(OnLease(s, staging, src, dst))
  {
    LeaseMove(s, staging, src, dst);
    hide OnLease;
    SameNumbers(s, OnLease(s, staging, src, dst));
  }

  lemma QuietTransformPhase(s: State, a: TransformAction)
    requires Numbered(s) && Phase(s) && TransformEnabled(s, a) && SlotFacts(s)
    requires a.DropAborted? || a.HardwareTakes? || a.DropSubmitted? || a.BlitReturns?
    ensures Numbered(TransformStep(s, a)) && Phase(TransformStep(s, a))
  {
    match a
    case HardwareTakes => HardwareTakesPhase(s);
    case DropAborted => DropAbortedPhase(s);
    case DropSubmitted => DropSubmittedPhase(s);
    case BlitReturns(ok, lost) => BlitReturnsPhase(s, ok, lost);
  }

  lemma DropAbortedPhase(s: State)
    requires Numbered(s) && Phase(s) && TransformEnabled(s, DropAborted)
    ensures Numbered(OnDropAborted(s)) && Phase(OnDropAborted(s))
  {
    SameNumbers(s, OnDropAborted(s));
  }

  lemma DropSubmittedPhase(s: State)
    requires Numbered(s) && Phase(s) && TransformEnabled(s, DropSubmitted)
    ensures Numbered(OnDropSubmitted(s)) && Phase(OnDropSubmitted(s))
  {
    SameNumbers(s, OnDropSubmitted(s));
  }

  lemma BlitReturnsPhase(s: State, ok: bool, lost: bool)
    requires Numbered(s) && Phase(s) && TransformEnabled(s, BlitReturns(ok, lost))
    ensures Numbered(OnBlitReturns(s, ok, lost)) && Phase(OnBlitReturns(s, ok, lost))
  {
    SameNumbers(s, OnBlitReturns(s, ok, lost));
  }

  lemma HardwareTakesPhase(s: State)
    requires Numbered(s) && Phase(s) && TransformEnabled(s, HardwareTakes)
    ensures Numbered(OnHardwareTakes(s)) && Phase(OnHardwareTakes(s))
  {}

  lemma TransformPhase(s: State, a: TransformAction)
    requires Numbered(s) && Phase(s) && TransformEnabled(s, a) && SlotFacts(s) && SlotsValid(s.el)
    ensures Numbered(TransformStep(s, a)) && Phase(TransformStep(s, a))
  {
    match a
    case ReadSettings(ok) => ReadSettingsPhase(s, ok);
    case Lease(staging, src, dst) => LeasePhase(s, staging, src, dst);
    case Publish => PublishPhase(s);
    case SubmitReturns(fence, ok, lost) => SubmitReturnsPhase(s, fence, ok, lost);
    case Close => ClosePhase(s);
    case CloseBlit => CloseBlitPhase(s);
    case _ => QuietTransformPhase(s, a);
  }

  lemma GeneratePhase(s: State)
    requires Numbered(s) && Phase(s) && OutputEnabled(s, Generate) && SlotFacts(s)
    ensures Numbered(OnGenerate(s)) && Phase(OnGenerate(s))
  {
    SameNumbers(s, OnGenerate(s));
  }

  lemma TakePhase(s: State)
    requires Numbered(s) && Phase(s) && OutputEnabled(s, Take) && SlotFacts(s)
    ensures Numbered(OnTake(s)) && Phase(OnTake(s))
  {
    if s.el.ready.Some? { TakenPhase(s); } else { SameNumbers(s, OnTake(s)); }
  }

  lemma TakenPhase(s: State)
    requires Numbered(s) && Phase(s) && OutputEnabled(s, Take) && s.el.ready.Some?
    ensures Numbered(OnTake(s)) && Phase(OnTake(s))
  {
    var t := OnTake(s);
    assert t.pc == Waiting(s.el.ready.value, s.pc.caller, Pending) && t.fates == s.fates && t.queued == s.queued;
    hide OnTake;
    OutputPhaseKept(s, t);
  }

  lemma PollReadyPhase(s: State, status: Status, late: bool)
    requires Numbered(s) && Phase(s) && OutputEnabled(s, PollReady(status, late))
    ensures Numbered(OnPollReady(s, status, late)) && Phase(OnPollReady(s, status, late))
  {
    OutputPhaseKept(s, OnPollReady(s, status, late));
  }

  lemma ReadyIsPipelined(s: State)
    requires OutputEnabled(s, Decide) && FatesTell(LedgerOf(s))
    ensures s.el.ready == Some(s.pc.f) ==> s.fates[s.el.frames[s.pc.f].n] == Pipelined
  {
    if s.el.ready == Some(s.pc.f) {
      assert LedgerOf(s).ready == Some(s.el.frames[s.pc.f].n);
    }
  }

  /** Settling a pipelined input does not disturb the fate of the current one. */
  lemma SettledFate(s: State, t: State, n: nat, to: Fate)
    requires n < |s.fates| && s.fates[n] == Pipelined && t.fates == s.fates[n := to]
    requires to == Leaving || to == Dropped
    ensures Answered(s) ==> Answered(t)
    ensures CurrentIs(s, Offered) ==> CurrentIs(t, Offered)
    ensures CurrentIs(s, Skipped) ==> CurrentIs(t, Skipped)
  {}

  lemma DecideFates(s: State)
    requires OutputEnabled(s, Decide)
    ensures var t := OnDecide(s);
            && t.pc.Dropping? && t.pc.caller == s.pc.caller && GoodOutput(t.pc) && t.queued == s.queued
            && (if TakenAway(s.el, s.pc.f) then t.fates == s.fates
                else t.fates == s.fates[s.el.frames[s.pc.f].n := if s.pc.last == Complete then Leaving else Dropped])
  {}

  lemma DecidePhase(s: State)
    requires Numbered(s) && Phase(s) && OutputEnabled(s, Decide)
    requires s.el.ready == Some(s.pc.f) ==> s.fates[s.el.frames[s.pc.f].n] == Pipelined
    ensures Numbered(OnDecide(s)) && Phase(OnDecide(s))
  {
    var t := OnDecide(s);
    DecideFates(s);
    if !TakenAway(s.el, s.pc.f) {
      SettledFate(s, t, s.el.frames[s.pc.f].n, if s.pc.last == Complete then Leaving else Dropped);
    }
    OutputPhaseKept(s, t);
  }

  lemma DropTakenPhase(s: State)
    requires Numbered(s) && Phase(s) && OutputEnabled(s, DropTaken)
    ensures Numbered(OnDropTaken(s)) && Phase(OnDropTaken(s))
  {
    OutputPhaseKept(s, OnDropTaken(s));
  }

  lemma GoodTakeMove(s: State, output: Option<nat>)
    requires s.pc.Taken? && (Chaining(s) || s.pc.caller.EventDrain?) && (s.pc.caller != Chain || output.Some?)
    ensures var t := AfterTake(s, s.pc.caller, output, true);
            CallerOf(t.pc) == CallerOf(s.pc) && GoodOutput(t.pc) && t.queued == s.queued && t.fates == s.fates
  {}

  lemma GoodTakePhase(s: State, output: Option<nat>)
    requires Numbered(s) && Phase(s) && s.pc.Taken? && (Chaining(s) || s.pc.caller.EventDrain?)
    requires s.pc.caller != Chain || output.Some?
    ensures Phase(AfterTake(s, s.pc.caller, output, true))
  {
    hide AfterTake;
    GoodTakeMove(s, output);
    OutputPhaseKept(s, AfterTake(s, s.pc.caller, output, true));
  }

  /** A chain call or a failed drain comes to rest. */
  lemma EndOfTakePhase(s: State, output: Option<nat>, good: bool)
    requires Numbered(s) && s.pc.Taken? && (Chaining(s) || s.pc.caller.EventDrain?)
    requires !good || (s.pc.caller == Chain && output.None?)
    ensures Phase(AfterTake(s, s.pc.caller, output, good))
  {}

  lemma EndTakePhase(s: State)
    requires Numbered(s) && Phase(s) && OutputEnabled(s, EndTake)
    ensures Numbered(OnEndTake(s)) && Phase(OnEndTake(s))
  {
    hide Numbered, Phase;
    var t := s.(el := s.el.(waiters := s.el.waiters - 1));
    QuietPhase(s, t);
    assert OnEndTake(s) == AfterTake(t, s.pc.caller, s.pc.output, s.pc.good);
    if s.pc.good && (s.pc.caller != Chain || s.pc.output.Some?) {
      GoodTakePhase(t, s.pc.output);
    } else {
      EndOfTakePhase(t, s.pc.output, s.pc.good);
    }
    EndTakeNumbers(s);
  }

  lemma EndTakeNumbers(s: State)
    requires Numbered(s) && OutputEnabled(s, EndTake)
    ensures Numbered(OnEndTake(s))
  {
    SameNumbers(s, OnEndTake(s));
  }

  lemma PushPhase(s: State, ok: bool)
    requires Numbered(s) && Phase(s) && OutputEnabled(s, Push(ok)) && SlotFacts(s) && s.fates[s.pc.n] == Leaving
    ensures Numbered(OnPush(s, ok)) && Phase(OnPush(s, ok))
  {
    if ok { PushedPhase(s); } else { PushFailedPhase(s); }
  }

  lemma PushedPhase(s: State)
    requires Numbered(s) && Phase(s) && OutputEnabled(s, Push(true)) && SlotFacts(s) && s.fates[s.pc.n] == Leaving
    ensures Numbered(OnPush(s, true)) && Phase(OnPush(s, true))
  {
    SameNumbers(s, OnPush(s, true));
  }

  /** The streaming thread comes to rest. */
  lemma PushFailedPhase(s: State)
    requires Numbered(s) && OutputEnabled(s, Push(false))
    ensures Numbered(OnPush(s, false)) && Phase(OnPush(s, false))
  {
    SameNumbers(s, OnPush(s, false));
  }

  lemma DrainHeadPhase(s: State)
    requires Numbered(s) && Phase(s) && OutputEnabled(s, DrainHead) && SlotFacts(s)
    ensures Numbered(OnDrainHead(s)) && Phase(OnDrainHead(s))
  {
    SameNumbers(s, OnDrainHead(s));
  }

  lemma RecheckPhase(s: State)
    requires Numbered(s) && Phase(s) && OutputEnabled(s, Recheck)
    ensures Numbered(OnRecheck(s)) && Phase(OnRecheck(s))
  {}

  lemma OutputPhases(s: State, a: OutputAction)
    requires Numbered(s) && Phase(s) && OutputEnabled(s, a)
    requires SlotFacts(s) && SlotsValid(s.el) && FatesTell(LedgerOf(s))
    ensures Numbered(OutputStep(s, a)) && Phase(OutputStep(s, a))
  {
    hide Phase, Numbered;
    match a
    case Generate => GeneratePhase(s);
    case Take => TakePhase(s);
    case Recheck => RecheckPhase(s);
    case PollReady(status, late) => PollReadyPhase(s, status, late);
    case Decide => ReadyIsPipelined(s); DecidePhase(s);
    case DropTaken => DropTakenPhase(s);
    case EndTake => EndTakePhase(s);
    case Push(ok) =>
      assert LedgerOf(s).out == Some(s.pc.n);
      PushPhase(s, ok);
    case DrainHead => DrainHeadPhase(s);
  }

  /** A flush changes the current fate only from Pipelined to Flushed. */
  lemma FlushCurrent(s: State)
    requires FatesTell(LedgerOf(s)) && SlotsValid(s.el)
    ensures forall fate :: fate != Pipelined && CurrentIs(s, fate) ==> CurrentIs(OnFlush(s), fate)
    ensures CurrentIs(s, Pipelined) ==> CurrentIs(OnFlush(s), Flushed)
    ensures Answered(s) ==> Answered(OnFlush(s))
  {}

  lemma FlushPhase(s: State, t: State)
    requires Numbered(s) && Phase(s) && SlotFacts(s) && SlotsValid(s.el) && FatesTell(LedgerOf(s))
    requires t.fates == OnFlush(s).fates && t.pc == s.pc && t.el.frames == s.el.frames && t.queued == s.queued
    requires t.el.pending.None? && t.el.ready.None?
    ensures Numbered(t) && Phase(t)
  {
    FlushCurrent(s);
    assert forall fate :: CurrentIs(t, fate) <==> CurrentIs(OnFlush(s), fate);
  }

  /** The phase depends on few fields. */
  lemma QuietPhase(s: State, t: State)
    requires Numbered(s) && Phase(s) && t.fates == s.fates && t.pc == s.pc && t.queued == s.queued
    requires |t.el.frames| == |s.el.frames| && t.el.pending == s.el.pending && t.el.ready == s.el.ready
    requires forall f :: 0 <= f < |s.el.frames| ==> t.el.frames[f].n == s.el.frames[f].n
    ensures Numbered(t) && Phase(t)
  {}

  lemma FlushStopPhase(s: State)
    requires Numbered(s)
    ensures Numbered(OnFlush(s).(pc := Resuming)) && Phase(OnFlush(s).(pc := Resuming))
  {}

  lemma EventPhase(s: State)
    requires Numbered(s) && ControlEnabled(s, Event)
    ensures Numbered(ControlStep(s, Event)) && Phase(ControlStep(s, Event))
  {
    assert GoodOutput(Draining(EventDrain));
  }

  lemma ResumePhase(s: State)
    requires Numbered(s) && ControlEnabled(s, Resume)
    ensures Numbered(OnResume(s)) && Phase(OnResume(s))
  {}

  lemma ControlPhase(s: State, a: ControlAction)
    requires Numbered(s) && Phase(s) && ControlEnabled(s, a)
    requires SlotFacts(s) && SlotsValid(s.el) && FatesTell(LedgerOf(s))
    ensures Numbered(ControlStep(s, a)) && Phase(ControlStep(s, a))
  {
    hide Numbered, Phase, FatesTell, SlotsValid;
    match a
    case FlushStart => FlushPhase(s, ControlStep(s, a));
    case StateChangeDrain => FlushPhase(s, ControlStep(s, a));
    case StopBegin => FlushPhase(s, ControlStep(s, a));
    case Event => EventPhase(s);
    case FlushStopEvent => FlushStopPhase(s);
    case Resume => ResumePhase(s);
    case _ => QuietPhase(s, ControlStep(s, a));
  }

  lemma SameFlowPhase(s: State, t: State)
    requires Numbered(s) && Phase(s) && SameFlow(s, t)
    ensures Numbered(t) && Phase(t)
  {}

  /** At most one fate changes, and not into Offered; only the current input may become Refused. */
  predicate OneFate(s: State, t: State, n: int, to: Fate) {
    && t.fates == (if 0 <= n < |s.fates| then s.fates[n := to] else s.fates)
    && to != Offered && (to == Refused && n >= 0 ==> n == Current(s) && InChain(s))
  }

  lemma AnswersKept(s: State, t: State, n: int, to: Fate)
    requires Answers(s) && OneFate(s, t, n, to) && t.returnedOk == s.returnedOk
    requires InChain(t) ==> InChain(s)
    requires !InChain(t) ==> !CurrentIs(t, Offered)
    ensures Answers(t)
  {}

  lemma AnsweredOk(s: State, t: State)
    requires Answers(s) && t.fates == s.fates && t.returnedOk == s.returnedOk + {|s.fates| - 1}
    requires Answered(s) && !InChain(t)
    ensures Answers(t)
  {}

  lemma RefuseAnswers(s: State)
    requires Answers(s) && Chaining(s) && InChain(s)
    ensures Answers(Refuse(s))
  {
    var fate := s.fates[|s.fates| - 1];
    AnswersKept(s, Refuse(s), if fate == Offered || fate == Skipped then Current(s) else -1, Refused);
  }

  lemma QuietAnswers(s: State, t: State)
    requires Answers(s) && t.fates == s.fates && t.returnedOk == s.returnedOk && (InChain(t) <==> InChain(s))
    ensures Answers(t)
  {}

  lemma TransformedAnswers(s: State, ok: bool)
    requires Answers(s) && Chaining(s) && InChain(s)
    ensures Answers(Transformed(s, ok))
  {
    if !ok { RefuseAnswers(s); }
    else if s.el.custom { QuietAnswers(s, Transformed(s, ok)); }
    else { AnswersKept(s, Transformed(s, ok), Current(s), Leaving); }
  }

  lemma GuardAnswers(s: State)
    requires Answers(s) && SubmitEnabled(s, Guard)
    ensures Answers(OnGuard(s))
  {
    var t := s.(el := SubmitGuarded(s.el));
    QuietAnswers(s, t);
    if s.el.flushing { RefuseAnswers(t); } else { QuietAnswers(s, OnGuard(s)); }
  }

  lemma PlaceAnswers(s: State)
    requires Answers(s) && SubmitEnabled(s, Place)
    ensures Answers(OnPlace(s))
  {
    var t := OnPlace(s);
    if s.el.pending.Some? { QuietAnswers(s, t); }
    else if !s.el.flushing { AnswersKept(s, t, Current(s), Pipelined); }
    else if s.fates[|s.fates| - 1] == Offered { AnswersKept(s, t, Current(s), Flushed); }
    else { QuietAnswers(s, t); }
  }

  lemma SubmitAnswers(s: State, a: SubmitAction)
    requires Answers(s) && SubmitEnabled(s, a)
    ensures Answers(SubmitStep(s, a))
  {
    match a
    case Offer(queued) =>
    case Guard => GuardAnswers(s);
    case Rotate => QuietAnswers(s, OnRotate(s));
    case Prepare(ok) => if ok { QuietAnswers(s, OnPrepare(s, ok)); } else { RefuseAnswers(s); }
    case Place => PlaceAnswers(s);
  }

  lemma PublishAnswers(s: State)
    requires Answers(s) && TransformEnabled(s, Publish)
    ensures Answers(OnPublish(s))
  {
    if s.el.flushing { QuietAnswers(s, OnPublish(s)); } else { AnswersKept(s, OnPublish(s), Current(s), Pipelined); }
  }

  lemma SubmitReturnsAnswers(s: State, fence: Fence, ok: bool, lost: bool)
    requires Answers(s) && TransformEnabled(s, SubmitReturns(fence, ok, lost))
    ensures Answers(OnSubmitReturns(s, fence, ok, lost))
  {
    var t := OnSubmitReturns(s, fence, ok, lost);
    if ok { QuietAnswers(s, t); } else { AnswersKept(s, t, Current(s), Refused); }
  }

  lemma CloseAnswers(s: State)
    requires Answers(s) && TransformEnabled(s, Close)
    ensures Answers(OnClose(s))
  {
    var t := s.(el := SubmitClosed(s.el, s.pc.lost));
    QuietAnswers(s, t);
    if s.pc.flushed { RefuseAnswers(t); } else { TransformedAnswers(t, s.pc.ok); }
  }

  lemma CloseBlitAnswers(s: State)
    requires Answers(s) && TransformEnabled(s, CloseBlit)
    ensures Answers(OnCloseBlit(s))
  {
    var t := s.(el := SubmitClosed(s.el, s.pc.lost));
    QuietAnswers(s, t);
    TransformedAnswers(t, s.pc.ok);
  }

  lemma TransformAnswers(s: State, a: TransformAction)
    requires Answers(s) && TransformEnabled(s, a)
    ensures Answers(TransformStep(s, a))
  {
    match a
    case ReadSettings(ok) => if ok { QuietAnswers(s, TransformStep(s, a)); } else { RefuseAnswers(s); }
    case Lease(_, _, _) => if s.el.flushing { RefuseAnswers(s); } else { QuietAnswers(s, TransformStep(s, a)); }
    case Publish => PublishAnswers(s);
    case SubmitReturns(fence, ok, lost) => SubmitReturnsAnswers(s, fence, ok, lost);
    case Close => CloseAnswers(s);
    case CloseBlit => CloseBlitAnswers(s);
    case _ => QuietAnswers(s, TransformStep(s, a));
  }

  lemma AfterTakeAnswers(s: State, caller: Caller, output: Option<nat>, good: bool)
    requires Answers(s) && CallerOf(s.pc) == Some(caller) && (Chaining(s) || caller.EventDrain?)
    requires caller.Chain? ==> Answered(s)
    ensures Answers(AfterTake(s, caller, output, good))
  {
    var t := AfterTake(s, caller, output, good);
    if good && output.Some? { QuietAnswers(s, t); }
    else if caller.Chain? {
      if good { AnsweredOk(s, t); } else { AnswersKept(s, t, -1, Refused); }
    } else if caller.SyncDrain? {
      if good { QuietAnswers(s, t); } else { RefuseAnswers(s); }
    } else { QuietAnswers(s, t); }
  }

  lemma TakeAnswers(s: State)
    requires Answers(s) && Phase(s) && OutputEnabled(s, Take)
    ensures Answers(OnTake(s))
  {
    var t := s.(el := TakeStarted(s.el));
    if s.el.ready.Some? { QuietAnswers(s, OnTake(s)); }
    else { AfterTakeAnswers(s, s.pc.caller, None, true); }
  }

  lemma EndTakeAnswers(s: State)
    requires Answers(s) && Phase(s) && OutputEnabled(s, EndTake)
    ensures Answers(OnEndTake(s))
  {
    var t := s.(el := s.el.(waiters := s.el.waiters - 1));
    QuietAnswers(s, t);
    AfterTakeAnswers(t, s.pc.caller, s.pc.output, s.pc.good);
    assert OnEndTake(s) == AfterTake(t, s.pc.caller, s.pc.output, s.pc.good);
  }

  lemma DecideAnswers(s: State)
    requires Answers(s) && Phase(s) && OutputEnabled(s, Decide)
    ensures Answers(OnDecide(s))
  {
    DecideFates(s);
    DecideKeepsReturned(s);
    AnswersKept(s, OnDecide(s), if TakenAway(s.el, s.pc.f) then -1 else s.el.frames[s.pc.f].n,
                if s.pc.last == Complete then Leaving else Dropped);
  }

  lemma DecideKeepsReturned(s: State)
    requires OutputEnabled(s, Decide)
    ensures OnDecide(s).returnedOk == s.returnedOk
  {}

  lemma PushedAnswers(s: State)
    requires Answers(s) && Phase(s) && s.pc.Pushing? && s.pc.n < |s.fates|
    ensures Answers(AfterPushing(s).(pc := s.pc))
  {
    AnswersKept(s, AfterPushing(s).(pc := s.pc), s.pc.n, Pushed);
  }

  /** A failed push inside a drain of the chain call refuses its input. */
  lemma PushRefusedAnswers(s: State)
    requires OutputEnabled(s, Push(false)) && s.pc.caller.SyncDrain? && Phase(s)
    requires Answers(AfterPushing(s).(pc := s.pc))
    ensures Answers(OnPush(s, false))
  {
    RefuseAnswers(AfterPushing(s).(pc := s.pc));
  }

  /** A failed push of the chain call ends it. */
  lemma PushEndsAnswers(s: State)
    requires OutputEnabled(s, Push(false)) && s.pc.caller.Chain? && Phase(s)
    requires Answers(AfterPushing(s).(pc := s.pc))
    ensures Answers(OnPush(s, false))
  {
    AnswersKept(AfterPushing(s).(pc := s.pc), OnPush(s, false), -1, Pushed);
  }

  lemma PushOnAnswers(s: State, ok: bool)
    requires OutputEnabled(s, Push(ok)) && (ok || s.pc.caller.EventDrain?)
    requires Answers(AfterPushing(s).(pc := s.pc))
    ensures Answers(OnPush(s, ok))
  {
    hide Answers;
    QuietAnswers(AfterPushing(s).(pc := s.pc), OnPush(s, ok));
  }

  lemma PushAnswers(s: State, ok: bool)
    requires Answers(s) && Phase(s) && OutputEnabled(s, Push(ok))
    ensures Answers(OnPush(s, ok))
  {
    hide Answers;
    PushedAnswers(s);
    if s.pc.caller.SyncDrain? && !ok { PushRefusedAnswers(s); }
    else if s.pc.caller.Chain? && !ok { PushEndsAnswers(s); }
    else { PushOnAnswers(s, ok); }
  }

  lemma GenerateAnswers(s: State)
    requires Answers(s) && Phase(s) && SlotFacts(s) && OutputEnabled(s, Generate)
    ensures Answers(OnGenerate(s))
  {
    var t := OnGenerate(s);
    if s.el.flushing { AnswersKept(s, t, if s.queued then Current(s) else -1, Refused); }
    else if s.el.custom || s.queued { QuietAnswers(s, t); }
    else { AnsweredOk(s, t); }
  }

  lemma DropTakenAnswers(s: State)
    requires Answers(s) && OutputEnabled(s, DropTaken)
    ensures Answers(OnDropTaken(s))
  {
    QuietAnswers(s, OnDropTaken(s));
  }

  lemma DrainHeadAnswers(s: State)
    requires Answers(s) && Phase(s) && OutputEnabled(s, DrainHead)
    ensures Answers(OnDrainHead(s))
  {
    hide Answers, OutputPhase;
    QuietAnswers(s, OnDrainHead(s));
  }

  lemma OutputAnswers(s: State, a: OutputAction)
    requires Answers(s) && Numbered(s) && Phase(s) && SlotFacts(s) && OutputEnabled(s, a)
    ensures Answers(OutputStep(s, a))
  {
    hide Answers, Numbered, Phase, SlotFacts;
    match a
    case Generate => GenerateAnswers(s);
    case Take => TakeAnswers(s);
    case Decide => DecideAnswers(s);
    case EndTake => EndTakeAnswers(s);
    case Push(ok) => PushAnswers(s, ok);
    case DropTaken => DropTakenAnswers(s);
    case DrainHead => DrainHeadAnswers(s);
    case Recheck => RecheckAnswers(s);
    case PollReady(status, late) => PollReadyAnswers(s, status, late);
  }

  lemma RecheckAnswers(s: State)
    requires Answers(s) && OutputEnabled(s, Recheck)
    ensures Answers(OnRecheck(s))
  {
    QuietAnswers(s, OnRecheck(s));
  }

  lemma PollReadyAnswers(s: State, status: Status, late: bool)
    requires Answers(s) && OutputEnabled(s, PollReady(status, late))
    ensures Answers(OnPollReady(s, status, late))
  {
    QuietAnswers(s, OnPollReady(s, status, late));
  }

  lemma ControlAnswers(s: State, a: ControlAction)
    requires Answers(s) && ControlEnabled(s, a)
    ensures Answers(ControlStep(s, a))
  {}

  lemma SameFlowDelivery(s: State, t: State)
    requires Delivery(s) && SameFlow(s, t) && Grows(s.el, t.el)
    ensures Delivery(t)
  {
    SameFlowPhase(s, t);
    SameFlowSound(s, t);
    QuietAnswers(s, t);
  }

  lemma StreamStepDelivery(s: State, a: Action)
    requires Inv(s) && Delivery(s) && Enabled(s, a) && (a.Submit? || a.Transform? || a.Output?)
    ensures Delivery(Step(s, a))
  {
    BooksGiveSlots(s);
    match a
    case Submit(x) =>
      SubmitSound(s, x); SubmitPhase(s, x); SubmitAnswers(s, x);
    case Transform(x) =>
      TransformSound(s, x); TransformPhase(s, x); TransformAnswers(s, x);
    case Output(x) =>
      OutputSound(s, x); OutputPhases(s, x); OutputAnswers(s, x);
  }

  lemma StepKeepsDelivery(s: State, a: Action)
    requires Inv(s) && Delivery(s) && Enabled(s, a)
    ensures Delivery(Step(s, a))
  {
    match a
    case Control(x) =>
      BooksGiveSlots(s);
      ControlSound(s, x); ControlPhase(s, x); ControlAnswers(s, x);
    case Reaping(w, x) =>
      ReapSameFlow(s, w, x); ReapGrows(s, w, x); SameFlowDelivery(s, Step(s, a));
    case Reaper(x) =>
      ReaperSameFlow(s, x); ReaperGrows(s, x); SameFlowDelivery(s, Step(s, a));
    case _ => StreamStepDelivery(s, a);
  }

  lemma {:induction false} RunKeepsDelivery(s: State, actions: seq<Action>, last: State)
    requires Inv(s) && Delivery(s) && Run(s, actions, last)
    ensures Inv(last) && Delivery(last)
    decreases |actions|
  {
    if actions != [] {
      StepKeepsInv(s, actions[0]);
      StepKeepsDelivery(s, actions[0]);
      RunKeepsDelivery(Step(s, actions[0]), actions[1..], last);
    }
  }

  lemma Reachable(capable: bool, actions: seq<Action>, s: State)
    requires Run(Initial(capable), actions, s)
    ensures Inv(s) && Delivery(s)
  {
    hide Inv, Delivery;
    InitialDelivery(capable);
    InitialInv(capable);
    RunKeepsDelivery(Initial(capable), actions, s);
  }

  /** Outputs leave in input order, none twice, and none that was never offered. */
  lemma InOrderDelivery(capable: bool, actions: seq<Action>, s: State)
    requires Run(Initial(capable), actions, s)
    ensures forall i, j :: 0 <= i < j < |s.pushed| ==> s.pushed[i] < s.pushed[j]
    ensures forall i :: 0 <= i < |s.pushed| ==> s.pushed[i] < |s.fates|
  {
    Reachable(capable, actions, s);
    var l := LedgerOf(s);
    assert l.pushed == s.pushed && FatesTell(l) && InOrder(l);
    forall i | 0 <= i < |s.pushed| ensures s.pushed[i] < |s.fates| { assert l.pushed[i] < |l.fates|; }
    forall i, j | 0 <= i < j < |s.pushed| ensures s.pushed[i] < s.pushed[j] { assert l.pushed[i] < l.pushed[j]; }
  }

  /** Every input whose chain call returned OK was pushed, skipped by QoS, counted as dropped, moved
      to quarantine by a flush or stop, or is still in pending, in ready or on its way out. */
  lemma EveryOkInputAccounted(capable: bool, actions: seq<Action>, s: State, n: nat)
    requires Run(Initial(capable), actions, s)
    requires n in s.returnedOk
    ensures n < |s.fates|
    ensures || n in s.pushed
            || s.fates[n] == Dropped || s.fates[n] == Flushed || s.fates[n] == Skipped
            || NumberIn(s.el, s.el.pending) == Some(n) || NumberIn(s.el, s.el.ready) == Some(n)
            || Outgoing(s.pc) == Some(n)
    ensures s.el.dropped == Count(s.fates, Dropped)
  {
    Reachable(capable, actions, s);
    var l := LedgerOf(s);
    assert l.fates[n] == s.fates[n];
  }
}
