/** What a flush or stop keeps of an input whose chain call was answered OK: its record, with the buffers, in
    quarantine or with the reaper, until the fence is terminal (gst/rockchiprga/gstrgaconvert.c:1271-1408). */
module RgaFlushed {
  import opened Options
  import opened ImportCache
  import opened RgaFrames
  import opened RgaPipeline
  import opened RgaOwnership
  import opened DeliveryLedger
  import opened RgaDelivery

  predicate HasRecord(el: Element, n: int) {
    exists f :: 0 <= f < |el.frames| && el.frames[f].n == n
  }

  /** An input answered OK, or the one of the chain call in progress unless it can no longer be answered OK: the
      element is flushing and generate_output is about to see it. */
  predicate Demanded(s: State, n: int) {
    n in s.returnedOk || (n == Current(s) && InChain(s) && !(s.pc.Generating? && s.el.flushing))
  }

  ghost predicate Documented(s: State) {
    forall n: nat :: n < |s.fates| && s.fates[n] == Flushed && Demanded(s, n) ==> HasRecord(s.el, n)
  }

  /** Records stay, no fate becomes Flushed, and nothing more is demanded of a flushed input. */
  predicate Quieter(s: State, t: State) {
    && |s.el.frames| <= |t.el.frames| && |s.fates| <= |t.fates|
    && (forall f :: 0 <= f < |s.el.frames| ==> t.el.frames[f].n == s.el.frames[f].n)
    && (forall n :: 0 <= n < |t.fates| && t.fates[n] == Flushed ==> n < |s.fates| && s.fates[n] == Flushed)
    && (forall n :: 0 <= n < |s.fates| && t.fates[n] == Flushed && Demanded(t, n) ==> Demanded(s, n))
  }

  lemma RecordStays(a: Element, b: Element, n: int)
    requires HasRecord(a, n) && |a.frames| <= |b.frames|
    requires forall f :: 0 <= f < |a.frames| ==> b.frames[f].n == a.frames[f].n
    ensures HasRecord(b, n)
  {
    var f :| 0 <= f < |a.frames| && a.frames[f].n == n;
    assert b.frames[f].n == n;
  }

  lemma QuietDocumented(s: State, t: State)
    requires Documented(s) && Quieter(s, t)
    ensures Documented(t)
  {
    forall n: nat | n < |t.fates| && t.fates[n] == Flushed && Demanded(t, n) ensures HasRecord(t.el, n) {
      RecordStays(s.el, t.el, n);
    }
  }

  /** Refusing ends the chain call and flushes nothing. */
  lemma RefuseQuieter(s: State)
    requires Chaining(s)
    ensures Quieter(s, Refuse(s))
  {}

  /** A step made of one that is not seen here and one that is quieter. */
  lemma QuieterAfter(s: State, u: State, t: State)
    requires Quieter(u, t) && u.fates == s.fates && u.returnedOk == s.returnedOk && u.pc == s.pc
    requires u.el.flushing == s.el.flushing && SameJobs(s.el.frames, u.el.frames)
    ensures Quieter(s, t)
  {}

  lemma TransformedQuieter(s: State, ok: bool)
    requires Chaining(s) && InChain(s) && !s.pc.Generating?
    ensures Quieter(s, Transformed(s, ok))
  {
    if !ok { RefuseQuieter(s); }
  }

  lemma AfterTakeQuieter(s: State, caller: Caller, output: Option<nat>, good: bool)
    requires CallerOf(s.pc) == Some(caller) && (Chaining(s) || caller.EventDrain?)
    ensures Quieter(s, AfterTake(s, caller, output, good))
  {
    if caller.SyncDrain? && !good { RefuseQuieter(s); }
  }

  // ---- the streaming thread

  lemma OfferDocumented(s: State, queued: bool)
    requires Documented(s) && SubmitEnabled(s, Offer(queued))
    ensures Documented(OnOffer(s, queued))
  {
    hide Documented;
    QuietDocumented(s, OnOffer(s, queued));
  }

  lemma GuardDocumented(s: State)
    requires Documented(s) && SubmitEnabled(s, Guard)
    ensures Documented(OnGuard(s))
  {
    hide Documented;
    QuietDocumented(s, OnGuard(s));
  }

  lemma RotateDocumented(s: State)
    requires Documented(s) && SubmitEnabled(s, Rotate)
    ensures Documented(OnRotate(s))
  {
    hide Documented;
    QuietDocumented(s, OnRotate(s));
  }

  lemma PrepareDocumented(s: State, ok: bool)
    requires Documented(s) && SubmitEnabled(s, Prepare(ok))
    ensures Documented(OnPrepare(s, ok))
  {
    hide Documented;
    QuietDocumented(s, OnPrepare(s, ok));
  }

  lemma PlaceDocumented(s: State)
    requires Documented(s) && Answers(s) && SubmitEnabled(s, Place)
    ensures Documented(OnPlace(s))
  {
    var t := OnPlace(s);
    PlaceAdds(s);
    hide OnPlace;
    forall n: nat | n < |t.fates| && t.fates[n] == Flushed && Demanded(t, n) ensures HasRecord(t.el, n) {
      RecordStays(s.el, t.el, n);
    }
  }

  lemma ReadSettingsDocumented(s: State, ok: bool)
    requires Documented(s) && TransformEnabled(s, ReadSettings(ok))
    ensures Documented(OnReadSettings(s, ok))
  {
    hide Documented;
    QuietDocumented(s, OnReadSettings(s, ok));
  }

  lemma LeaseDocumented(s: State, staging: bool, src: Lookup, dst: Lookup)
    requires Documented(s) && TransformEnabled(s, Lease(staging, src, dst))
    ensures Documented(OnLease(s, staging, src, dst))
  {
    hide Documented, LookedUp;
    QuietDocumented(s, OnLease(s, staging, src, dst));
  }

  lemma PublishDocumented(s: State)
    requires Documented(s) && TransformEnabled(s, Publish)
    ensures Documented(OnPublish(s))
  {
    hide Documented;
    QuietDocumented(s, OnPublish(s));
  }

  lemma DropAbortedDocumented(s: State)
    requires Documented(s) && TransformEnabled(s, DropAborted)
    ensures Documented(OnDropAborted(s))
  {
    hide Documented;
    QuietDocumented(s, OnDropAborted(s));
  }

  lemma HardwareTakesDocumented(s: State)
    requires Documented(s) && TransformEnabled(s, HardwareTakes)
    ensures Documented(OnHardwareTakes(s))
  {
    hide Documented;
    QuietDocumented(s, OnHardwareTakes(s));
  }

  lemma SubmitReturnsDocumented(s: State, fence: Fence, ok: bool, lost: bool)
    requires Documented(s) && TransformEnabled(s, SubmitReturns(fence, ok, lost))
    ensures Documented(OnSubmitReturns(s, fence, ok, lost))
  {
    hide Documented;
    QuietDocumented(s, OnSubmitReturns(s, fence, ok, lost));
  }

  lemma DropSubmittedDocumented(s: State)
    requires Documented(s) && TransformEnabled(s, DropSubmitted)
    ensures Documented(OnDropSubmitted(s))
  {
    hide Documented;
    QuietDocumented(s, OnDropSubmitted(s));
  }

  lemma CloseDocumented(s: State)
    requires Documented(s) && TransformEnabled(s, Close)
    ensures Documented(OnClose(s))
  {
    hide Documented, Quieter, Transformed, Refuse;
    var u := s.(el := SubmitClosed(s.el, s.pc.lost));
    if s.pc.flushed { RefuseQuieter(u); } else { TransformedQuieter(u, s.pc.ok); }
    QuieterAfter(s, u, OnClose(s));
    QuietDocumented(s, OnClose(s));
  }

  lemma BlitReturnsDocumented(s: State, ok: bool, lost: bool)
    requires Documented(s) && TransformEnabled(s, BlitReturns(ok, lost))
    ensures Documented(OnBlitReturns(s, ok, lost))
  {
    hide Documented;
    QuietDocumented(s, OnBlitReturns(s, ok, lost));
  }

  lemma CloseBlitDocumented(s: State)
    requires Documented(s) && TransformEnabled(s, CloseBlit)
    ensures Documented(OnCloseBlit(s))
  {
    hide Documented, Quieter, Transformed;
    var u := s.(el := SubmitClosed(s.el, s.pc.lost));
    TransformedQuieter(u, s.pc.ok);
    QuieterAfter(s, u, OnCloseBlit(s));
    QuietDocumented(s, OnCloseBlit(s));
  }

  lemma GenerateDocumented(s: State)
    requires Documented(s) && OutputEnabled(s, Generate)
    ensures Documented(OnGenerate(s))
  {
    hide Documented;
    QuietDocumented(s, OnGenerate(s));
  }

  lemma EndTakeIs(s: State)
    requires OutputEnabled(s, EndTake)
    ensures OnEndTake(s) == AfterTake(s.(el := s.el.(waiters := s.el.waiters - 1)), s.pc.caller, s.pc.output, s.pc.good)
  {}

  lemma TakenDocumented(s: State)
    requires Documented(s) && OutputEnabled(s, Take) && s.el.ready.Some?
    ensures Documented(OnTake(s))
  {
    hide Documented;
    QuietDocumented(s, OnTake(s));
  }

  lemma DecideKeepsFlushing(s: State)
    requires OutputEnabled(s, Decide)
    ensures OnDecide(s).el.flushing == s.el.flushing
  {}

  lemma PushQuieter(s: State, ok: bool)
    requires OutputEnabled(s, Push(ok))
    ensures Quieter(s, OnPush(s, ok))
  {
    var u := AfterPushing(s).(pc := s.pc);
    if s.pc.caller.SyncDrain? && !ok { RefuseQuieter(u); } else { PushedQuieter(s, ok); }
  }

  lemma PushedQuieter(s: State, ok: bool)
    requires OutputEnabled(s, Push(ok)) && (ok || !s.pc.caller.SyncDrain?)
    ensures Quieter(s, OnPush(s, ok))
  {}

  lemma TakeDocumented(s: State)
    requires Documented(s) && OutputEnabled(s, Take)
    ensures Documented(OnTake(s))
  {
    hide Documented;
    if s.el.ready.None? {
      AfterTakeQuieter(s, s.pc.caller, None, true);
      QuietDocumented(s, OnTake(s));
    } else {
      TakenDocumented(s);
    }
  }

  lemma RecheckDocumented(s: State)
    requires Documented(s) && OutputEnabled(s, Recheck)
    ensures Documented(OnRecheck(s))
  {
    hide Documented;
    QuietDocumented(s, OnRecheck(s));
  }

  lemma PollReadyDocumented(s: State, status: Status, late: bool)
    requires Documented(s) && OutputEnabled(s, PollReady(status, late))
    ensures Documented(OnPollReady(s, status, late))
  {
    hide Documented;
    QuietDocumented(s, OnPollReady(s, status, late));
  }

  lemma DecideDocumented(s: State)
    requires Documented(s) && OutputEnabled(s, Decide)
    ensures Documented(OnDecide(s))
  {
    hide Documented, OnDecide;
    var t := OnDecide(s);
    DecideFates(s);
    DecideKeepsReturned(s);
    DecideKeepsFlushing(s);
    QuietDocumented(s, t);
  }

  lemma DropTakenDocumented(s: State)
    requires Documented(s) && OutputEnabled(s, DropTaken)
    ensures Documented(OnDropTaken(s))
  {
    hide Documented;
    QuietDocumented(s, OnDropTaken(s));
  }

  lemma EndTakeDocumented(s: State)
    requires Documented(s) && OutputEnabled(s, EndTake)
    ensures Documented(OnEndTake(s))
  {
    hide Documented, Quieter, OnEndTake, AfterTake;
    var u := s.(el := s.el.(waiters := s.el.waiters - 1));
    EndTakeIs(s);
    AfterTakeQuieter(u, s.pc.caller, s.pc.output, s.pc.good);
    QuieterAfter(s, u, OnEndTake(s));
    QuietDocumented(s, OnEndTake(s));
  }

  lemma PushDocumented(s: State, ok: bool)
    requires Documented(s) && OutputEnabled(s, Push(ok))
    ensures Documented(OnPush(s, ok))
  {
    hide Documented, Quieter;
    PushQuieter(s, ok);
    QuietDocumented(s, OnPush(s, ok));
  }

  lemma DrainHeadDocumented(s: State)
    requires Documented(s) && OutputEnabled(s, DrainHead)
    ensures Documented(OnDrainHead(s))
  {
    hide Documented;
    QuietDocumented(s, OnDrainHead(s));
  }

  lemma SubmitDocumented(s: State, a: SubmitAction)
    requires Documented(s) && Answers(s) && SubmitEnabled(s, a)
    ensures Documented(SubmitStep(s, a))
  {
    hide Documented, Answers;
    match a
    case Offer(queued) => OfferDocumented(s, queued);
    case Guard => GuardDocumented(s);
    case Rotate => RotateDocumented(s);
    case Prepare(ok) => PrepareDocumented(s, ok);
    case Place => PlaceDocumented(s);
  }

  lemma TransformDocumented(s: State, a: TransformAction)
    requires Documented(s) && TransformEnabled(s, a)
    ensures Documented(TransformStep(s, a))
  {
    hide Documented;
    match a
    case ReadSettings(ok) => ReadSettingsDocumented(s, ok);
    case Lease(staging, src, dst) => LeaseDocumented(s, staging, src, dst);
    case Publish => PublishDocumented(s);
    case DropAborted => DropAbortedDocumented(s);
    case HardwareTakes => HardwareTakesDocumented(s);
    case SubmitReturns(fence, ok, lost) => SubmitReturnsDocumented(s, fence, ok, lost);
    case DropSubmitted => DropSubmittedDocumented(s);
    case Close => CloseDocumented(s);
    case BlitReturns(ok, lost) => BlitReturnsDocumented(s, ok, lost);
    case CloseBlit => CloseBlitDocumented(s);
  }

  lemma OutputDocumented(s: State, a: OutputAction)
    requires Documented(s) && OutputEnabled(s, a)
    ensures Documented(OutputStep(s, a))
  {
    hide Documented;
    match a
    case Generate => GenerateDocumented(s);
    case Take => TakeDocumented(s);
    case Recheck => RecheckDocumented(s);
    case PollReady(status, late) => PollReadyDocumented(s, status, late);
    case Decide => DecideDocumented(s);
    case DropTaken => DropTakenDocumented(s);
    case EndTake => EndTakeDocumented(s);
    case Push(ok) => PushDocumented(s, ok);
    case DrainHead => DrainHeadDocumented(s);
  }

  // ---- flushes, and the other threads

  /** A flush takes records out of the slots, and each of them is still there. */
  lemma FlushDocumented(s: State, t: State)
    requires Documented(s) && SlotsValid(s.el) && t.fates == OnFlush(s).fates && t.el.frames == s.el.frames
    requires forall n :: 0 <= n < |s.fates| && Demanded(t, n) ==> Demanded(s, n)
    ensures Documented(t)
  {
    forall n: nat | n < |t.fates| && t.fates[n] == Flushed && Demanded(t, n) ensures HasRecord(t.el, n) {
      if !InPipe(s.el, n) { RecordStays(s.el, t.el, n); }
    }
  }

  lemma FlushStopDocumented(s: State)
    requires Documented(s) && SlotsValid(s.el) && s.pc.Resting?
    ensures Documented(OnFlush(s).(pc := Resuming))
  {
    hide Documented;
    FlushDocumented(s, OnFlush(s).(pc := Resuming));
  }

  lemma FlushStartDocumented(s: State)
    requires Documented(s) && SlotsValid(s.el)
    ensures Documented(OnFlushStart(s))
  {
    hide Documented;
    FlushDocumented(s, OnFlushStart(s));
  }

  lemma StopBeginDocumented(s: State)
    requires Documented(s) && SlotsValid(s.el)
    ensures Documented(OnFlushStart(s).(blocked := false, stop := Stopping))
  {
    hide Documented;
    FlushDocumented(s, OnFlushStart(s).(blocked := false, stop := Stopping));
  }

  lemma DrainDocumented(s: State)
    requires Documented(s) && SlotsValid(s.el)
    ensures Documented(OnFlush(s))
  {
    hide Documented;
    FlushDocumented(s, OnFlush(s));
  }

  lemma QuietControlDocumented(s: State, a: ControlAction)
    requires Documented(s) && ControlEnabled(s, a)
    requires a.Event? || a.Resume? || a.StopRound? || a.Retire? || a.Start? || a.HardwareEnds?
    ensures Documented(ControlStep(s, a))
  {
    hide Documented;
    QuietDocumented(s, ControlStep(s, a));
  }

  lemma ControlDocumented(s: State, a: ControlAction)
    requires Documented(s) && SlotsValid(s.el) && ControlEnabled(s, a)
    ensures Documented(ControlStep(s, a))
  {
    hide Documented, SlotsValid;
    match a
    case FlushStopEvent => FlushStopDocumented(s);
    case FlushStart => FlushStartDocumented(s);
    case StopBegin => StopBeginDocumented(s);
    case StateChangeDrain => DrainDocumented(s);
    case _ => QuietControlDocumented(s, a);
  }

  lemma SameFlowDocumented(s: State, t: State)
    requires Documented(s) && SameFlow(s, t)
    ensures Documented(t)
  {
    QuietDocumented(s, t);
  }

  lemma StepDocumented(s: State, a: Action)
    requires Books(s) && Answers(s) && Documented(s) && Enabled(s, a)
    ensures Documented(Step(s, a))
  {
    hide Documented, Answers;
    match a
    case Submit(x) => SubmitDocumented(s, x);
    case Transform(x) => TransformDocumented(s, x);
    case Output(x) => OutputDocumented(s, x);
    case Control(x) => BooksGiveSlots(s); ControlDocumented(s, x);
    case Reaping(w, x) => ReapSameFlow(s, w, x); SameFlowDocumented(s, Step(s, a));
    case Reaper(x) => ReaperSameFlow(s, x); SameFlowDocumented(s, Step(s, a));
  }

  lemma {:induction false} RunDocumented(s: State, actions: seq<Action>, last: State)
    requires Inv(s) && Delivery(s) && Documented(s) && Run(s, actions, last)
    ensures Inv(last) && Delivery(last) && Documented(last)
    decreases |actions|
  {
    hide Documented, Answers, Books;
    if actions != [] {
      StepKeepsInv(s, actions[0]);
      StepKeepsDelivery(s, actions[0]);
      StepDocumented(s, actions[0]);
      RunDocumented(Step(s, actions[0]), actions[1..], last);
    }
  }

  /** Every record of a flushed input is out of the slots: owned by quarantine, by a stop that escapes or by the
      reaper, or over. */
  lemma OutOfTheSlots(s: State, f: nat)
    requires Books(s) && FatesTell(LedgerOf(s)) && f < |s.el.frames|
    requires s.el.frames[f].n < |s.fates| && s.fates[s.el.frames[f].n] == Flushed
    ensures f in s.el.quarantine || f in Escaped(s.stop) || f in s.incoming || f in s.reaper || Over(s.el.frames[f])
  {
    assert Entry(s, f);
    assert LedgerOf(s).fates[s.el.frames[f].n] == Flushed;
  }

  /** An input answered OK that a flush or stop took has a record, and every record of it stays in quarantine, with
      a stop that hands it over or with the reaper until its fence is terminal. */
  lemma FlushedInputsAreKept(capable: bool, actions: seq<Action>, s: State, n: nat)
    requires Run(Initial(capable), actions, s) && n in s.returnedOk && n < |s.fates| && s.fates[n] == Flushed
    ensures HasRecord(s.el, n)
    ensures forall f: nat :: f < |s.el.frames| && s.el.frames[f].n == n ==>
              f in s.el.quarantine || f in Escaped(s.stop) || f in s.incoming || f in s.reaper || Over(s.el.frames[f])
  {
    InitialInv(capable);
    InitialDelivery(capable);
    RunDocumented(Initial(capable), actions, s);
    forall f: nat | f < |s.el.frames| && s.el.frames[f].n == n
      ensures f in s.el.quarantine || f in Escaped(s.stop) || f in s.incoming || f in s.reaper || Over(s.el.frames[f])
    {
      OutOfTheSlots(s, f);
    }
  }
}
