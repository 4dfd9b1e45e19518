/** Every frame is submitted with the geometry it was converted to, except after one kind of refused rescale
    (gst/rockchipmpp/gstmppenc.c:1829-1958 and 2236-2278). */
module EncoderGeometry {
  import opened Options
  import opened RestartBudget
  import opened EncoderPipeline
  import opened EncoderPairing

  ghost predicate AllMatch(sent: seq<Sent>) {
    forall i :: 0 <= i < |sent| ==> sent[i].made == sent[i].used
  }

  /** The template was set from caps that align, by a converter unless it is the caps' own geometry, and aligns. */
  predicate Settled(s: Encoder) {
    && s.input.caps in s.device.fits && s.template in s.device.fits
    && (s.template != s.input.caps ==> s.device.converter)
  }

  /** Every converted picture agrees with the template, and so does the picture info wherever the next frame
      would be converted by it. */
  ghost predicate Aligned(s: Encoder) {
    && Settled(s)
    && (s.info == s.template || s.dirty || s.handling.Rescaling?)
    && (s.handling.Converting? ==> s.info == s.template)
    && (s.handling.Waiting? ==> s.handling.picture.made == s.template)
    && (forall i :: 0 <= i < |s.frames| ==> s.frames[i].made == s.template)
    && AllMatch(s.log.sent)
  }

  /** The refusal that leaves other dimensions in the info than in the template: the properties ask for a conversion,
      there is a converter, and the target does not align. */
  predicate Unaligned(d: Device, i: Input, x: Settings) {
    d.converter && NeedsConverter(i, x) && Target(i, x) !in d.fits
  }

  /** The one harmful step: such a refusal, with no other rescale pending that would repair it. */
  predicate Misleads(s: Encoder, a: Action) {
    a.Rescaled? && s.handling.Rescaling? && !s.dirty && Unaligned(s.device, s.input, s.handling.x)
  }

  /** A runtime error leaves geometry and handling alone. */
  lemma FaultMove(s: Encoder, ret: Ret, a: Attempt)
    requires !ret.Ok?
    ensures var t := Faulted(s, ret, a);
            && t.device == s.device && t.input == s.input && t.info == s.info && t.template == s.template
            && t.frames == s.frames && t.dirty == s.dirty && t.log.sent == s.log.sent
            && t.handling == s.handling && t.reset == s.reset
  {}

  lemma FaultKeepsGeometry(s: Encoder, ret: Ret, a: Attempt)
    requires Aligned(s) && !ret.Ok?
    ensures Aligned(Faulted(s, ret, a))
  {
    hide Faulted;
    FaultMove(s, ret, a);
  }

  lemma SendKeepsGeometry(s: Encoder, ret: Ret, a: Attempt)
    requires Enabled(s, Send(ret, a)) && Aligned(s)
    ensures Aligned(OnSend(s, ret, a))
  {
    if ret.Ok? {
      assert s.frames[0].made == s.template;
    } else {
      FaultKeepsGeometry(s, ret, a);
    }
  }

  lemma HandlingKeepsGeometry(s: Encoder, a: Action)
    requires Enabled(s, a) && Aligned(s) && !Misleads(s, a)
    requires a.Offer? || a.Enter? || a.DrainFailed? || a.Rescaled? || a.Convert? || a.Accept?
    ensures Aligned(Next(s, a))
  {
    match a
    case Rescaled(configured) => RescaledKeepsGeometry(s, configured);
    case _ =>
  }

  lemma RescaledKeepsGeometry(s: Encoder, configured: bool)
    requires Enabled(s, Rescaled(configured)) && Aligned(s) && !Misleads(s, Rescaled(configured))
    ensures Aligned(OnRescaled(s, configured))
  {}

  lemma StepKeepsGeometry(s: Encoder, a: Action)
    requires Enabled(s, a) && Aligned(s) && !Misleads(s, a)
    ensures Aligned(Next(s, a))
  {
    match a
    case Send(ret, attempt) => SendKeepsGeometry(s, ret, attempt);
    case PollError(ret, attempt) => FaultKeepsGeometry(s, ret, attempt);
    case KernelFault(attempt) => FaultKeepsGeometry(s, Fault, attempt);
    case Packet(_, _) =>
    case LoopPauses =>
    case Resize =>
    case Negotiate(_, _) =>
    case Announce(_, _) =>
    case Lock =>
    case Stopped =>
    case ResetEnds =>
    case _ => HandlingKeepsGeometry(s, a);
  }

  /** A run none of whose rescales was refused that way. */
  ghost predicate Unmisled(s: Encoder, actions: seq<Action>)
    decreases |actions|
  {
    actions != [] && Enabled(s, actions[0]) ==>
      !Misleads(s, actions[0]) && Unmisled(Next(s, actions[0]), actions[1..])
  }

  lemma {:induction false} RunKeepsGeometry(s: Encoder, actions: seq<Action>, t: Encoder)
    requires Aligned(s) && Run(s, actions, t) && Unmisled(s, actions)
    ensures Aligned(t)
    decreases |actions|
  {
    if actions != [] {
      StepKeepsGeometry(s, actions[0]);
      RunKeepsGeometry(Next(s, actions[0]), actions[1..], t);
    }
  }

  /** However property changes, sends and polls interleave, as long as no rescale is refused like that. */
  lemma FramesKeepTheirGeometry(d: Device, g: Geometry, actions: seq<Action>, s: Encoder)
    requires g in d.fits && Run(Initial(d, g), actions, s) && Unmisled(Initial(d, g), actions)
    ensures AllMatch(s.log.sent)
  {
    RunKeepsGeometry(Initial(d, g), actions, s);
  }

  lemma {:induction false} FittingRunIsUnmisled(s: Encoder, actions: seq<Action>)
    requires !s.device.converter || forall t: Geometry :: t in s.device.fits
    ensures Unmisled(s, actions)
    decreases |actions|
  {
    if actions != [] && Enabled(s, actions[0]) {
      SameDevice(s, actions[0]);
      FittingRunIsUnmisled(Next(s, actions[0]), actions[1..]);
    }
  }

  lemma SameDevice(s: Encoder, a: Action)
    requires Enabled(s, a)
    ensures Next(s, a).device == s.device
  {
    hide Faulted;
    match a
    case Send(ret, attempt) => if !ret.Ok? { FaultMove(s, ret, attempt); }
    case PollError(ret, attempt) => FaultMove(s, ret, attempt);
    case KernelFault(attempt) => FaultMove(s, Fault, attempt);
    case _ =>
  }

  /** Without a converter, or where every geometry aligns, no run is misled: every frame keeps its geometry. */
  lemma FittingFramesKeepTheirGeometry(d: Device, g: Geometry, actions: seq<Action>, s: Encoder)
    requires g in d.fits && (!d.converter || forall t: Geometry :: t in d.fits) && Run(Initial(d, g), actions, s)
    ensures AllMatch(s.log.sent)
  {
    FittingRunIsUnmisled(Initial(d, g), actions);
    FramesKeepTheirGeometry(d, g, actions, s);
  }

  // ---- and the condition is exact

  /** No step settles a rescale. */
  predicate NoRescale(actions: seq<Action>) {
    forall i :: 0 <= i < |actions| ==> !actions[i].Rescaled?
  }

  lemma {:induction false} NoRescaleIsUnmisled(s: Encoder, actions: seq<Action>)
    requires NoRescale(actions)
    ensures Unmisled(s, actions)
    decreases |actions|
  {
    if actions != [] && Enabled(s, actions[0]) { NoRescaleIsUnmisled(Next(s, actions[0]), actions[1..]); }
  }

  /** While a reset owns the encoder no frame is being worked on. */
  predicate Steady(s: Encoder) {
    s.reset.Stopping? || s.reset.Emptying? ==> s.handling.Idle? || s.handling.Offered?
  }

  lemma FaultKeepsSteady(s: Encoder, ret: Ret, a: Attempt)
    requires Steady(s) && !ret.Ok?
    ensures Steady(Faulted(s, ret, a))
  {
    hide Faulted;
    FaultMove(s, ret, a);
  }

  lemma StepKeepsSteady(s: Encoder, a: Action)
    requires Steady(s) && Enabled(s, a)
    ensures Steady(Next(s, a))
  {
    match a
    case Send(ret, attempt) => if !ret.Ok? { FaultKeepsSteady(s, ret, attempt); }
    case PollError(ret, attempt) => FaultKeepsSteady(s, ret, attempt);
    case KernelFault(attempt) => FaultKeepsSteady(s, Fault, attempt);
    case _ =>
  }

  lemma {:induction false} RunKeepsSteady(s: Encoder, actions: seq<Action>, t: Encoder)
    requires Steady(s) && Run(s, actions, t)
    ensures Steady(t)
    decreases |actions|
  {
    if actions != [] {
      StepKeepsSteady(s, actions[0]);
      RunKeepsSteady(Next(s, actions[0]), actions[1..], t);
    }
  }

  /** At rest and empty, with an info that is not the template's. */
  predicate Misled(s: Encoder) {
    && !s.over && s.handling.Idle? && FullyDrained(s) && !s.dirty && s.info != s.template
    && (s.reset.Running? || s.reset.Announced?)
  }

  /** A reset of an empty encoder leaves the geometry alone. */
  lemma AnnouncedToRunning(s: Encoder) returns (actions: seq<Action>, t: Encoder)
    requires Misled(s) && s.reset.Announced?
    ensures NoRescale(actions) && Run(s, actions, t) && Misled(t) && t.reset.Running? && t.flushing == s.reset.final
  {
    OneMore(s, [], s, Lock);
    var u := Next(s, Lock);
    OneMore(s, [] + [Lock], u, Stopped);
    var v := Next(u, Stopped);
    OneMore(s, [] + [Lock] + [Stopped], v, ResetEnds);
    actions, t := [] + [Lock] + [Stopped] + [ResetEnds], Next(v, ResetEnds);
  }

  lemma {:induction false} Joined(s: Encoder, x: seq<Action>, t: Encoder, y: seq<Action>, u: Encoder)
    requires Run(s, x, t) && Run(t, y, u)
    ensures Run(s, x + y, u)
    decreases |x|
  {
    if x == [] {
      assert x + y == y;
    } else {
      Joined(Next(s, x[0]), x[1..], t, y, u);
      assert (x + y)[1..] == x[1..] + y;
    }
  }

  /** Flushing ends. */
  lemma RunningAgain(s: Encoder) returns (actions: seq<Action>, t: Encoder)
    requires Misled(s)
    ensures NoRescale(actions) && Run(s, actions, t) && Misled(t) && t.reset.Running? && !t.flushing
  {
    var u := s;
    actions := [];
    if s.reset.Announced? {
      actions, u := AnnouncedToRunning(s);
    }
    if u.flushing {
      var announce := Announce(false, false);
      OneMore(s, actions, u, announce);
      var y, v := AnnouncedToRunning(Next(u, announce));
      Joined(s, actions + [announce], Next(u, announce), y, v);
      actions, u := actions + [announce] + y, v;
    }
    t := u;
  }

  /** The next frame is converted by the info and submitted by the template. */
  lemma NextFrameIsMislabelled(s: Encoder) returns (actions: seq<Action>, t: Encoder)
    requires Misled(s) && s.reset.Running? && !s.flushing
    ensures NoRescale(actions) && Run(s, actions, t) && !AllMatch(t.log.sent)
  {
    var x, send := Settings(0, 0, 0), Send(Ok, Attempt(1, true));
    OneMore(s, [], s, Offer);
    var s1 := Next(s, Offer);
    OneMore(s, [] + [Offer], s1, Enter(x));
    var s2 := Next(s1, Enter(x));
    OneMore(s, [] + [Offer] + [Enter(x)], s2, Convert(true));
    var s3 := Next(s2, Convert(true));
    OneMore(s, [] + [Offer] + [Enter(x)] + [Convert(true)], s3, Accept(1));
    var s4 := Next(s3, Accept(1));
    assert s4.frames == [Picture(s.offered, s.info)] && s4.template == s.template;
    OneMore(s, [] + [Offer] + [Enter(x)] + [Convert(true)] + [Accept(1)], s4, send);
    actions, t := [] + [Offer] + [Enter(x)] + [Convert(true)] + [Accept(1)] + [send], Next(s4, send);
    assert t.log.sent[|t.log.sent| - 1] == Sent(s.offered, s.info, s.template);
  }

  /** Some steps on, without another misleading refusal, a frame is submitted with dimensions it does not have. */
  ghost predicate CanMislabel(s: Encoder) {
    exists actions: seq<Action>, t: Encoder :: Run(s, actions, t) && Unmisled(s, actions) && !AllMatch(t.log.sent)
  }

  lemma MisleadingRefusalLeadsToMislabelling(s: Encoder, configured: bool)
    requires Enabled(s, Rescaled(configured)) && Misleads(s, Rescaled(configured)) && Steady(s) && Settled(s)
    ensures CanMislabel(Next(s, Rescaled(configured)))
  {
    var u := Next(s, Rescaled(configured));
    var x, t := RunningAgain(u);
    var y, w := NextFrameIsMislabelled(t);
    Joined(u, x, t, y, w);
    NoRescaleIsUnmisled(u, x + y);
  }

  lemma OtherwiseNothingIsMislabelled(s: Encoder)
    requires Aligned(s)
    ensures !CanMislabel(s)
  {
    forall actions: seq<Action>, t: Encoder | Run(s, actions, t) && Unmisled(s, actions) ensures AllMatch(t.log.sent) {
      RunKeepsGeometry(s, actions, t);
    }
  }

  /** Exactly when a rescale that has come to its end makes it possible that a frame is mislabelled: when its target
      does not align although there is a converter, and no other rescale is pending. */
  lemma RescaleMislabelsIffUnaligned(d: Device, g: Geometry, before: seq<Action>, s: Encoder, configured: bool)
    requires g in d.fits && Run(Initial(d, g), before, s) && Unmisled(Initial(d, g), before)
    requires Enabled(s, Rescaled(configured))
    ensures CanMislabel(Next(s, Rescaled(configured))) <==> !s.dirty && Unaligned(s.device, s.input, s.handling.x)
  {
    RunKeepsGeometry(Initial(d, g), before, s);
    RunKeepsSteady(Initial(d, g), before, s);
    if Misleads(s, Rescaled(configured)) {
      MisleadingRefusalLeadsToMislabelling(s, configured);
    } else {
      StepKeepsGeometry(s, Rescaled(configured));
      OtherwiseNothingIsMislabelled(Next(s, Rescaled(configured)));
    }
  }

  /** A run: the first frame after a new width meets a target that does not align. */
  lemma MislabelledRun(d: Device, g: Geometry, width: int)
    requires g in d.fits && d.converter && width != 0 && width != g.width
    requires Geometry(width, g.height, NV12) !in d.fits
    ensures exists actions: seq<Action>, s: Encoder :: Run(Initial(d, g), actions, s) && !AllMatch(s.log.sent)
  {
    var x := Settings(0, width, 0);
    var s0 := Initial(d, g);
    OneMore(s0, [], s0, Resize);
    var s1 := Next(s0, Resize);
    OneMore(s0, [] + [Resize], s1, Offer);
    var s2 := Next(s1, Offer);
    OneMore(s0, [] + [Resize] + [Offer], s2, Enter(x));
    var s3 := Next(s2, Enter(x));
    OneMore(s0, [] + [Resize] + [Offer] + [Enter(x)], s3, Rescaled(true));
    var s4 := Next(s3, Rescaled(true));
    assert s4.info == Geometry(width, g.height, NV12) && s4.template == g;
    var y, t := NextFrameIsMislabelled(s4);
    Joined(s0, [] + [Resize] + [Offer] + [Enter(x)] + [Rescaled(true)], s4, y, t);
  }
}
