/** What the encoder pipeline keeps: packets meet their frames, nothing accepted is lost or finished
    twice, and frames are submitted with the geometry they were converted to. */
module EncoderPairing {
  import opened Options
  import opened RestartBudget
  import opened EncoderPipeline

  // ---- the three lists move elements from one to the next

  lemma NumbersOf(frames: seq<Picture>, p: Picture)
    ensures Numbers(frames + [p]) == Numbers(frames) + [p.n]
    ensures frames != [] ==> Numbers(frames[1..]) == Numbers(frames)[1..]
  {}

  lemma SentNumbersOf(mpp: seq<Sent>, x: Sent)
    ensures SentNumbers(mpp + [x]) == SentNumbers(mpp) + [x.n]
    ensures mpp != [] ==> SentNumbers(mpp[1..]) == SentNumbers(mpp)[1..]
  {}

  lemma DoneNumbersOf(done: seq<Done>, more: seq<Done>)
    ensures DoneNumbers(done + more) == DoneNumbers(done) + DoneNumbers(more)
  {}

  /** The head of the middle list may as well be the tail of the first one. */
  lemma HeadMoves<T>(a: seq<T>, b: seq<T>, c: seq<T>)
    requires b != []
    ensures a + b + c == (a + [b[0]]) + b[1..] + c
    ensures (b + c)[1..] == b[1..] + c
  {
    assert b == [b[0]] + b[1..];
  }

  // ---- each kind of step keeps the pairing

  lemma RefuseKeepsInv(s: Encoder, t: Encoder)
    requires !s.over && Inv(s) && s.base != [] && !s.handling.Idle?
    requires t.base == s.base[..|s.base| - 1] && t.handling == Idle
    requires t.over == s.over && t.mpp == s.mpp && t.frames == s.frames && t.pending == s.pending
    requires t.log.accepted == s.log.accepted && t.log.done == s.log.done && t.offered == s.offered
    ensures Inv(t)
  {
    assert |Held(s.handling)| == 1;
    assert t.base == SentNumbers(s.mpp) + Numbers(s.frames) + [];
  }

  lemma OfferKeepsInv(s: Encoder)
    requires Enabled(s, Offer) && Inv(s)
    ensures Inv(OnOffer(s))
  {
    assert SentNumbers(s.mpp) + Numbers(s.frames) + [] == SentNumbers(s.mpp) + Numbers(s.frames);
  }

  /** Steps that touch neither the lists nor the frame being handled. */
  lemma HoldKeepsInv(s: Encoder, t: Encoder)
    requires !s.over && Inv(s) && Held(t.handling) == Held(s.handling)
    requires t.base == s.base && t.over == s.over && t.mpp == s.mpp && t.frames == s.frames
    requires t.pending == s.pending && t.offered == s.offered
    requires t.log.accepted == s.log.accepted && t.log.done == s.log.done
    ensures Inv(t)
  {}

  lemma AcceptKeepsInv(s: Encoder, limit: nat)
    requires Enabled(s, Accept(limit)) && Inv(s)
    ensures Inv(OnAccept(s))
  {
    if s.flushing { RefuseKeepsInv(s, OnAccept(s)); } else { AddedKeepsInv(s, limit); }
  }

  lemma AddedKeepsInv(s: Encoder, limit: nat)
    requires Enabled(s, Accept(limit)) && Inv(s) && !s.flushing
    ensures Inv(OnAccept(s))
  {
    var t, n := OnAccept(s), s.handling.picture.n;
    NumbersOf(s.frames, s.handling.picture);
    assert Held(s.handling) == [n];
    var d, m, f := DoneNumbers(s.log.done), SentNumbers(s.mpp), Numbers(s.frames);
    assert d + m + f + [n] == d + m + (f + [n]);
    assert m + f + [n] == m + (f + [n]) + [];
    assert forall i :: 0 <= i < |s.log.accepted| ==> s.log.accepted[i] < Held(s.handling)[0];
  }

  /** In MPP's order the oldest frame of the base class is the one MPP has held longest. */
  lemma OldestFrameIsThePackets(s: Encoder)
    requires Inv(s) && !s.over && s.mpp != []
    ensures s.base != [] && s.base[0] == s.mpp[0].n
  {
    assert s.base[0] == SentNumbers(s.mpp)[0];
  }

  lemma PacketKeepsInv(s: Encoder, usable: bool, flowOk: bool)
    requires Enabled(s, Packet(usable, flowOk)) && Inv(s)
    ensures Inv(OnPacket(s, usable, flowOk))
  {
    var t := OnPacket(s, usable, flowOk);
    OldestFrameIsThePackets(s);
    SentNumbersOf(s.mpp, s.mpp[0]);
    var last := t.log.done[|s.log.done|];
    DoneNumbersOf(s.log.done, [last]);
    assert DoneNumbers([last]) == [s.mpp[0].n];
    var d, m, f, h := DoneNumbers(s.log.done), SentNumbers(s.mpp), Numbers(s.frames), Held(s.handling);
    HeadMoves(d, m, f);
    HeadMoves([], m, f + h);
    assert m + f + h == m + (f + h) && m[1..] + f + h == m[1..] + (f + h);
  }

  lemma SendKeepsInv(s: Encoder, a: Attempt)
    requires Enabled(s, Send(Ok, a)) && Inv(s)
    ensures Inv(OnSend(s, Ok, a))
  {
    var t := OnSend(s, Ok, a);
    SentNumbersOf(s.mpp, Sent(s.frames[0].n, s.frames[0].made, s.template));
    NumbersOf(s.frames, s.frames[0]);
    var d, m, f, h := DoneNumbers(s.log.done), SentNumbers(s.mpp), Numbers(s.frames), Held(s.handling);
    HeadMoves(d + m, f, []);
    HeadMoves(m, f, h);
    assert d + m + f == d + m + f + [] && d + (m + [f[0]]) + f[1..] == (d + m + [f[0]]) + f[1..] + [];
  }

  /** A restart finishes exactly the submitted frames, once each, in order and without output, and leaves the
      unsubmitted frames and the frame being handled as they were, although the counter was not decremented for
      the packets it discarded. */
  lemma RestartFinishesTheSubmitted(s: Encoder)
    requires Inv(s) && !s.over
    ensures Discarded(s).log.done == s.log.done + EmptyDone(SentNumbers(s.mpp))
    ensures Discarded(s).base == Numbers(s.frames) + Held(s.handling)
    ensures Discarded(s).frames == s.frames && Discarded(s).pending == |s.frames|
  {
    var m, rest := SentNumbers(s.mpp), Numbers(s.frames) + Held(s.handling);
    assert s.base == m + rest;
    assert s.base[..|m|] == m && s.base[|m|..] == rest;
  }

  lemma EmptyDoneNumbers(numbers: seq<nat>)
    ensures DoneNumbers(EmptyDone(numbers)) == numbers && Matched(EmptyDone(numbers))
  {}

  lemma DiscardKeepsInv(s: Encoder, t: Encoder)
    requires Inv(s) && !s.over
    requires t.log.done == Discarded(s).log.done && t.base == Discarded(s).base && t.pending == Discarded(s).pending
    requires t.mpp == [] && t.frames == s.frames && t.handling == s.handling
    requires t.log.accepted == s.log.accepted && t.offered == s.offered
    ensures Inv(t)
  {
    var d, m, f, h := DoneNumbers(s.log.done), SentNumbers(s.mpp), Numbers(s.frames), Held(s.handling);
    RestartFinishesTheSubmitted(s);
    EmptyDoneNumbers(m);
    DoneNumbersOf(s.log.done, EmptyDone(m));
    assert d + m + [] + f == d + m + f && [] + f + h == f + h;
    assert SentNumbers(t.mpp) == [];
  }

  lemma FaultKeepsInv(s: Encoder, ret: Ret, a: Attempt)
    requires Inv(s) && !s.over && !ret.Ok?
    ensures Inv(Faulted(s, ret, a))
  {
    var t := Faulted(s, ret, a);
    if ret.Fault? && !s.flushing && Tried(s.budget, a.now).1 {
      DiscardKeepsInv(s, t);
    } else {
      HoldKeepsInv(s, t);
    }
  }

  lemma ResetEndKeepsInv(s: Encoder)
    requires Inv(s) && !s.over
    ensures Inv(OnResetEnds(s))
  {}

  lemma EnterKeepsInv(s: Encoder, x: Settings)
    requires Enabled(s, Enter(x)) && Inv(s)
    ensures Inv(OnEnter(s, x))
  {
    if s.flushing { RefuseKeepsInv(s, OnEnter(s, x)); } else { HoldKeepsInv(s, OnEnter(s, x)); }
  }

  /** A rescale lets the frame go on or gives it back, and touches nothing else that is counted. */
  lemma RescaledMove(s: Encoder, configured: bool)
    requires Enabled(s, Rescaled(configured))
    ensures var t := OnRescaled(s, configured);
            && t.over == s.over && t.mpp == s.mpp && t.frames == s.frames && t.pending == s.pending
            && t.log.accepted == s.log.accepted && t.log.done == s.log.done && t.offered == s.offered
            && (if t.handling.Converting? then t.base == s.base && Held(t.handling) == Held(s.handling)
                else t.base == s.base[..|s.base| - 1] && t.handling == Idle)
  {}

  lemma RescaledKeepsInv(s: Encoder, configured: bool)
    requires Enabled(s, Rescaled(configured)) && Inv(s)
    ensures Inv(OnRescaled(s, configured))
  {
    hide Inv, OnRescaled;
    var t := OnRescaled(s, configured);
    RescaledMove(s, configured);
    if t.handling.Converting? { HoldKeepsInv(s, t); } else { RefuseKeepsInv(s, t); }
  }

  lemma ConvertKeepsInv(s: Encoder, ok: bool)
    requires Enabled(s, Convert(ok)) && Inv(s)
    ensures Inv(OnConvert(s, ok))
  {
    if ok { HoldKeepsInv(s, OnConvert(s, ok)); } else { RefuseKeepsInv(s, OnConvert(s, ok)); }
  }

  lemma StepKeepsInv(s: Encoder, a: Action)
    requires Enabled(s, a) && Inv(s)
    ensures Inv(Next(s, a))
  {
    hide Inv;
    match a
    case Offer => OfferKeepsInv(s);
    case Accept(limit) => AcceptKeepsInv(s, limit);
    case Send(ret, attempt) =>
      if ret.Ok? { SendKeepsInv(s, attempt); } else { FaultKeepsInv(s, ret, attempt); }
    case Packet(usable, flowOk) => PacketKeepsInv(s, usable, flowOk);
    case PollError(ret, attempt) => FaultKeepsInv(s, ret, attempt);
    case KernelFault(attempt) => FaultKeepsInv(s, Fault, attempt);
    case ResetEnds => ResetEndKeepsInv(s);
    case Enter(x) => EnterKeepsInv(s, x);
    case DrainFailed => RefuseKeepsInv(s, OnDrainFailed(s));
    case Rescaled(configured) => RescaledKeepsInv(s, configured);
    case Convert(ok) => ConvertKeepsInv(s, ok);
    case LoopPauses => HoldKeepsInv(s, Next(s, a));
    case Resize => HoldKeepsInv(s, Next(s, a));
    case Negotiate(_, _) => HoldKeepsInv(s, Next(s, a));
    case Announce(_, _) => HoldKeepsInv(s, Next(s, a));
    case Lock => HoldKeepsInv(s, Next(s, a));
    case Stopped => HoldKeepsInv(s, Next(s, a));
  }

  lemma {:induction false} RunKeepsInv(s: Encoder, actions: seq<Action>, t: Encoder)
    requires Inv(s) && Run(s, actions, t)
    ensures Inv(t)
    decreases |actions|
  {
    if actions != [] {
      StepKeepsInv(s, actions[0]);
      RunKeepsInv(Next(s, actions[0]), actions[1..], t);
    }
  }

  /** Over every run: the base class's list is the submitted, then the unsubmitted, then the handled frame; the
      counter is the sum of the first two and at most 16; and every packet went to the frame it was coded from. */
  lemma PacketsMeetTheirFrames(d: Device, g: Geometry, actions: seq<Action>, s: Encoder)
    requires Run(Initial(d, g), actions, s)
    ensures !s.over ==> Paired(s)
    ensures Matched(s.log.done)
  {
    RunKeepsInv(Initial(d, g), actions, s);
  }

  /** When finish returns OK, every frame accepted so far has been finished exactly once, in order. */
  lemma FinishMeansEveryFrameDone(d: Device, g: Geometry, actions: seq<Action>, s: Encoder)
    requires Run(Initial(d, g), actions, s) && Enabled(s, ResetEnds) && s.reset.drain && ResetOk(s)
    ensures s.log.accepted == DoneNumbers(s.log.done)
    ensures forall i, j :: 0 <= i < j < |s.log.done| ==> s.log.done[i].n < s.log.done[j].n
    ensures Next(s, ResetEnds).base == Held(s.handling)
  {
    RunKeepsInv(Initial(d, g), actions, s);
    assert s.mpp == [] && s.frames == [];
    forall i, j | 0 <= i < j < |s.log.done| ensures s.log.done[i].n < s.log.done[j].n {
      assert s.log.accepted[i] == s.log.done[i].n && s.log.accepted[j] == s.log.done[j].n;
    }
  }

  /** Even without that, an accepted frame is never finished twice. */
  lemma NeverFinishedTwice(d: Device, g: Geometry, actions: seq<Action>, s: Encoder, i: nat, j: nat)
    requires Run(Initial(d, g), actions, s) && !s.over && i < j < |s.log.done|
    ensures s.log.done[i].n < s.log.done[j].n
  {
    RunKeepsInv(Initial(d, g), actions, s);
    assert s.log.accepted[i] == s.log.done[i].n && s.log.accepted[j] == s.log.done[j].n;
  }

  // ---- raw refusals

  /** The frames given back with their uncoded picture still attached, in order. */
  function RawNumbers(refused: seq<Refusal>): seq<nat> {
    if refused == [] then []
    else
      var last := refused[|refused| - 1];
      RawNumbers(refused[..|refused| - 1]) + if last.raw then [last.n] else []
  }

  /** The frame an accepting step finds converted and has to give back. */
  function FlushedAccept(s: Encoder, a: Action): seq<nat> {
    if a.Accept? && s.flushing && s.handling.Waiting? then [s.handling.picture.n] else []
  }

  function FlushedAccepts(s: Encoder, actions: seq<Action>): seq<nat>
    decreases |actions|
  {
    if actions == [] || !Enabled(s, actions[0]) then []
    else FlushedAccept(s, actions[0]) + FlushedAccepts(Next(s, actions[0]), actions[1..])
  }

  lemma RawNumbersOf(refused: seq<Refusal>, n: nat, raw: bool)
    ensures RawNumbers(refused + [Refusal(n, raw)]) == RawNumbers(refused) + if raw then [n] else []
  {
    assert (refused + [Refusal(n, raw)])[..|refused|] == refused;
  }

  /** The newest frame of the base class is the one being handled. */
  lemma NewestIsHandled(s: Encoder)
    requires Inv(s) && !s.over && s.handling.Waiting?
    ensures s.base != [] && s.base[|s.base| - 1] == s.handling.picture.n
  {
    assert s.base[|s.base| - 1] == Held(s.handling)[0];
  }

  lemma AcceptRefuses(s: Encoder, limit: nat)
    requires Inv(s) && Enabled(s, Accept(limit))
    ensures RawNumbers(OnAccept(s).log.refused) == RawNumbers(s.log.refused) + FlushedAccept(s, Accept(limit))
  {
    NewestIsHandled(s);
    if s.flushing { RawNumbersOf(s.log.refused, s.handling.picture.n, true); }
  }

  /** Every other refusal comes before a picture is attached. */
  lemma OthersRefuse(s: Encoder, a: Action)
    requires Enabled(s, a) && (a.Enter? || a.DrainFailed? || a.Rescaled? || a.Convert?)
    ensures RawNumbers(Next(s, a).log.refused) == RawNumbers(s.log.refused)
  {
    hide RawNumbers;
    RawNumbersOf(s.log.refused, s.base[|s.base| - 1], false);
    RefusedClean(s, a);
    hide Next;
  }

  lemma RefusedClean(s: Encoder, a: Action)
    requires Enabled(s, a) && (a.Enter? || a.DrainFailed? || a.Rescaled? || a.Convert?)
    ensures var refused := Next(s, a).log.refused;
            refused == s.log.refused || refused == s.log.refused + [Refusal(s.base[|s.base| - 1], false)]
  {}

  lemma NoneRefused(s: Encoder, a: Action)
    requires Enabled(s, a) && !a.Enter? && !a.DrainFailed? && !a.Rescaled? && !a.Convert? && !a.Accept?
    ensures Next(s, a).log.refused == s.log.refused
  {}

  lemma RawStep(s: Encoder, a: Action)
    requires Inv(s) && Enabled(s, a)
    ensures RawNumbers(Next(s, a).log.refused) == RawNumbers(s.log.refused) + FlushedAccept(s, a)
  {
    if a.Accept? { AcceptRefuses(s, a.limit); }
    else if a.Enter? || a.DrainFailed? || a.Rescaled? || a.Convert? { OthersRefuse(s, a); }
    else { NoneRefused(s, a); }
  }

  lemma {:induction false} RawRun(s: Encoder, actions: seq<Action>, t: Encoder)
    requires Inv(s) && Run(s, actions, t)
    ensures RawNumbers(t.log.refused) == RawNumbers(s.log.refused) + FlushedAccepts(s, actions)
    decreases |actions|
  {
    hide Inv, Next, Enabled, RawNumbers, FlushedAccept;
    if actions != [] {
      RawStep(s, actions[0]);
      StepKeepsInv(s, actions[0]);
      RawRun(Next(s, actions[0]), actions[1..], t);
    }
  }

  /** A frame is given back with its uncoded picture attached as its output exactly when flushing ends its wait for
      room, and those frames are the ones handle_frame had just converted. */
  lemma RawRefusalsAreFlushedAccepts(d: Device, g: Geometry, actions: seq<Action>, s: Encoder)
    requires Run(Initial(d, g), actions, s)
    ensures RawNumbers(s.log.refused) == FlushedAccepts(Initial(d, g), actions)
  {
    RawRun(Initial(d, g), actions, s);
  }

  /** It happens: a reset is announced while the first frame is being converted. */
  lemma RawRefusalIsReached(d: Device, g: Geometry)
    ensures exists actions: seq<Action>, s: Encoder ::
              Run(Initial(d, g), actions, s) && s.log.refused == [Refusal(0, true)]
  {
    var y, s := FirstConverted(d, g);
    OneMore(Initial(d, g), y, s, Announce(false, false));
    var t := Next(s, Announce(false, false));
    OneMore(Initial(d, g), y + [Announce(false, false)], t, Accept(0));
  }

  lemma FirstConverted(d: Device, g: Geometry) returns (actions: seq<Action>, s: Encoder)
    ensures Run(Initial(d, g), actions, s) && s.handling == Handling.Waiting(Picture(0, g)) && s.base == [0]
    ensures s.reset.Running? && !s.over && s.log.refused == []
  {
    var x := Settings(0, 0, 0);
    var s0 := Initial(d, g);
    OneMore(s0, [], s0, Offer);
    var s1 := Next(s0, Offer);
    OneMore(s0, [] + [Offer], s1, Enter(x));
    var s2 := Next(s1, Enter(x));
    OneMore(s0, [] + [Offer] + [Enter(x)], s2, Convert(true));
    actions, s := [] + [Offer] + [Enter(x)] + [Convert(true)], Next(s2, Convert(true));
  }
}
