/** The frame pipeline of the encoder element (gst/rockchipmpp/gstmppenc.c:1225-1480, 1789-1958 and
    2224-2533) as a state machine: the streaming thread, the output task, property changes, a reset and
    MPP interleave freely. Frames are numbered in the order they are offered. */
module EncoderPipeline {
  import opened Options
  import opened RestartBudget

  const MAX_PENDING := 16

  datatype Geometry = Geometry(width: int, height: int, format: int)

  /** The negotiated input: its caps, and whether MPP takes their format. */
  datatype Input = Input(caps: Geometry, known: bool)

  /** The properties a rescale reads. */
  datatype Settings = Settings(rotation: int, width: int, height: int)

  /** The converter's output format. */
  const NV12 := 0

  function Width(i: Input, x: Settings): int {
    if x.width != 0 then x.width else if x.rotation % 180 != 0 then i.caps.height else i.caps.width
  }

  function Height(i: Input, x: Settings): int {
    if x.height != 0 then x.height else if x.rotation % 180 != 0 then i.caps.width else i.caps.height
  }

  predicate NeedsConverter(i: Input, x: Settings) {
    x.rotation != 0 || !i.known || Width(i, x) != i.caps.width || Height(i, x) != i.caps.height
  }

  /** What no run changes: whether a 2D converter may be used (the answer is latched at the first question), and which
      geometries have an alignment. */
  datatype Device = Device(converter: bool, fits: iset<Geometry>)

  /** What pictures are converted to, in set_format and in a rescale alike. */
  function Target(i: Input, x: Settings): Geometry {
    if NeedsConverter(i, x) then Geometry(Width(i, x), Height(i, x), NV12) else i.caps
  }

  /** set_format gets to its template. */
  predicate Negotiable(d: Device, i: Input, x: Settings) {
    i.caps in d.fits && (NeedsConverter(i, x) ==> d.converter && Target(i, x) in d.fits)
  }

  /** An accepted, unsubmitted frame; `made` is what its picture was converted to. */
  datatype Picture = Picture(n: nat, made: Geometry)

  /** A frame MPP holds, with the dimensions the submission named. */
  datatype Sent = Sent(n: nat, made: Geometry, used: Geometry)

  /** How a frame left the pipeline: with a packet's data or without any output. */
  datatype Outcome = Coded | Empty

  /** A finished frame; `packet` is the frame the packet was coded from, if there was a packet. */
  datatype Done = Done(n: nat, packet: Option<nat>, outcome: Outcome)

  /** A frame handle_frame gave back; `raw` when its uncoded picture was still attached as its output. */
  datatype Refusal = Refusal(n: nat, raw: bool)

  /** Where handle_frame is. */
  datatype Handling =
    | Idle
    | Offered(n: nat)
    | Rescaling(n: nat, x: Settings)
    | Converting(n: nat)
    | Waiting(picture: Picture)

  datatype Reset =
    | Running
    | Announced(drain: bool, final: bool)
    | Stopping(drain: bool, final: bool)
    | Emptying(drain: bool, final: bool)

  /** What an MPP call returned; every other error is a Fault. */
  datatype Ret = Ok | Nok | Timeout | Fault

  /** How a restart ended: the time of the error, and whether the new context came up. */
  datatype Attempt = Attempt(now: int, created: bool)

  /** What happened so far: frames accepted, given back, finished and submitted. */
  datatype Log = Log(accepted: seq<nat>, refused: seq<Refusal>, done: seq<Done>, sent: seq<Sent>)

  /** `base` is the base class's list of pending frames and `mpp` the frames inside MPP, both oldest
      first; `over` ends the model (a drain that timed out, or no context left). */
  datatype Encoder = Encoder(base: seq<nat>, frames: seq<Picture>, mpp: seq<Sent>, pending: int,
                             taskOk: bool, flushing: bool, draining: bool, dirty: bool,
                             device: Device, input: Input, info: Geometry, template: Geometry,
                             handling: Handling, reset: Reset,
                             budget: Budget, over: bool, offered: nat, log: Log)

  /** Caps that need no conversion have been negotiated. */
  function Initial(d: Device, g: Geometry): Encoder {
    Encoder([], [], [], 0, true, false, false, false, d, Input(g, true), g, g,
            Idle, Running, Fresh, false, 0, Log([], [], [], []))
  }

  function Numbers(s: seq<Picture>): (r: seq<nat>)
    ensures |r| == |s| && forall i :: 0 <= i < |s| ==> r[i] == s[i].n
  {
    seq(|s|, i requires 0 <= i < |s| => s[i].n)
  }

  function SentNumbers(s: seq<Sent>): (r: seq<nat>)
    ensures |r| == |s| && forall i :: 0 <= i < |s| ==> r[i] == s[i].n
  {
    seq(|s|, i requires 0 <= i < |s| => s[i].n)
  }

  function DoneNumbers(s: seq<Done>): (r: seq<nat>)
    ensures |r| == |s| && forall i :: 0 <= i < |s| ==> r[i] == s[i].n
  {
    seq(|s|, i requires 0 <= i < |s| => s[i].n)
  }

  /** The frame handle_frame holds. */
  function Held(h: Handling): seq<nat> {
    match h
    case Idle => []
    case Offered(n) => [n]
    case Rescaling(n, _) => [n]
    case Converting(n) => [n]
    case Waiting(picture) => [picture.n]
  }

  // ---- handle_frame

  function OnOffer(s: Encoder): Encoder {
    s.(base := s.base + [s.offered], handling := Offered(s.offered), offered := s.offered + 1)
  }

  /** The base class finishes the frame just handled; it is the newest one. */
  function Refuse(s: Encoder, raw: bool): Encoder
    requires s.base != []
  {
    s.(base := s.base[..|s.base| - 1], handling := Idle,
       log := s.log.(refused := s.log.refused + [Refusal(s.base[|s.base| - 1], raw)]))
  }

  /** The mutex is taken: refuse while flushing, otherwise see to a pending rescale first. */
  function OnEnter(s: Encoder, x: Settings): Encoder
    requires s.handling.Offered? && s.base != []
  {
    if s.flushing then Refuse(s, false)
    else if s.dirty then s.(dirty := false, handling := Rescaling(s.handling.n, x))
    else s.(handling := Converting(s.handling.n))
  }

  /** The boundary drain failed or timed out: the rescale stays pending. */
  function OnDrainFailed(s: Encoder): Encoder
    requires s.base != []
  {
    Refuse(s.(dirty := true), false)
  }

  /** How a rescale ends once everything is drained: refused before the template is set (having already
      overwritten the picture info), refused after, or done. */
  datatype Rescale = Early(info: Geometry) | Late(target: Geometry) | Applied(target: Geometry)

  /** gst_mpp_enc_apply_pending_resolution after its drain; `configured` is the answer of everything from the
      strides on. */
  function RescaleOf(d: Device, i: Input, x: Settings, configured: bool): Rescale {
    if i.caps !in d.fits then Early(i.caps)
    else if NeedsConverter(i, x) && !d.converter then Early(i.caps)
    else if NeedsConverter(i, x) && Target(i, x) !in d.fits then Early(Target(i, x))
    else if !configured then Late(Target(i, x))
    else Applied(Target(i, x))
  }

  function OnRescaled(s: Encoder, configured: bool): Encoder
    requires s.handling.Rescaling? && s.base != []
  {
    match RescaleOf(s.device, s.input, s.handling.x, configured)
    case Early(info) => Refuse(s.(info := info), false)
    case Late(target) => Refuse(s.(info := target, template := target), false)
    case Applied(target) => s.(info := target, template := target, handling := Converting(s.handling.n))
  }

  function OnConvert(s: Encoder, ok: bool): Encoder
    requires s.handling.Converting? && s.base != []
  {
    if ok then s.(handling := Waiting(Picture(s.handling.n, s.info))) else Refuse(s, false)
  }

  /** Room was found, or flushing ended the wait. */
  function OnAccept(s: Encoder): Encoder
    requires s.handling.Waiting? && s.base != []
  {
    if s.flushing then Refuse(s, true)
    else s.(pending := s.pending + 1, frames := s.frames + [s.handling.picture],
            log := s.log.(accepted := s.log.accepted + [s.handling.picture.n]), handling := Idle)
  }

  // ---- send_frame_locked, poll_packet_locked and restart_context

  /** gst_mpp_enc_discard_submitted_frames: as many of the oldest frames as are not waiting to be sent. */
  function Discarded(s: Encoder): Encoder {
    var n := if s.pending - |s.frames| < 0 then 0
             else if s.pending - |s.frames| > |s.base| then |s.base| else s.pending - |s.frames|;
    s.(base := s.base[n..], log := s.log.(done := s.log.done + EmptyDone(s.base[..n])), pending := |s.frames|)
  }

  function EmptyDone(numbers: seq<nat>): (r: seq<Done>)
    ensures |r| == |numbers| && forall i :: 0 <= i < |numbers| ==> r[i] == Done(numbers[i], None, Empty)
  {
    seq(|numbers|, i requires 0 <= i < |numbers| => Done(numbers[i], None, Empty))
  }

  /** The old context goes with everything it held; the new one may fail to come up. */
  function Reopened(s: Encoder, created: bool): Encoder {
    s.(mpp := [], taskOk := s.taskOk && created, over := !created)
  }

  /** gst_mpp_enc_restart_context: the packets MPP still gives out are dropped without touching the counter. */
  function Restarted(s: Encoder, a: Attempt): Encoder {
    var (budget, granted) := Tried(s.budget, a.now);
    var t := s.(budget := budget);
    if granted then Reopened(Discarded(t), a.created) else t.(taskOk := false)
  }

  /** gst_mpp_enc_handle_runtime_error. */
  function Faulted(s: Encoder, ret: Ret, a: Attempt): Encoder
    requires !ret.Ok?
  {
    if ret.Timeout? || ret.Nok? then s
    else if s.flushing then s.(taskOk := false)
    else Restarted(s, a)
  }

  function OnSend(s: Encoder, ret: Ret, a: Attempt): Encoder
    requires s.frames != []
  {
    var sent := Sent(s.frames[0].n, s.frames[0].made, s.template);
    if ret.Ok? then s.(frames := s.frames[1..], mpp := s.mpp + [sent],
                        log := s.log.(sent := s.log.sent + [sent]))
    else Faulted(s, ret, a)
  }

  /** The base class's oldest frame is finished with the packet coded from `packet`. */
  function Finished(s: Encoder, packet: nat, outcome: Outcome, flowOk: bool): Encoder
    requires s.base != []
  {
    s.(base := s.base[1..], taskOk := flowOk,
       log := s.log.(done := s.log.done + [Done(s.base[0], Some(packet), outcome)]))
  }

  /** A packet coded from MPP's oldest frame; `usable` says it has a buffer, data and room for it. */
  function OnPacket(s: Encoder, usable: bool, flowOk: bool): Encoder
    requires s.mpp != []
  {
    var t := s.(mpp := s.mpp[1..], pending := s.pending - 1);
    if s.base == [] then t
    else Finished(t, s.mpp[0].n, if usable && (s.draining || !s.flushing) then Coded else Empty, flowOk)
  }

  // ---- reset

  function OnAnnounce(s: Encoder, drain: bool, final: bool): Encoder {
    s.(draining := true, flushing := true, reset := Announced(drain, final))
  }

  function OnStopped(s: Encoder): Encoder
    requires s.reset.Stopping?
  {
    s.(flushing := s.reset.final, draining := false, taskOk := true, reset := Emptying(s.reset.drain, s.reset.final))
  }

  predicate FullyDrained(s: Encoder) { s.pending == 0 && s.frames == [] }

  /** The result of a reset whose last poll is over. */
  predicate ResetOk(s: Encoder)
    requires s.reset.Emptying?
  {
    s.taskOk && (s.reset.drain ==> FullyDrained(s))
  }

  function OnResetEnds(s: Encoder): Encoder {
    s.(taskOk := true, pending := 0, frames := [], reset := Running, over := !FullyDrained(s))
  }

  // ---- all steps

  datatype Action =
    | Offer
    | Enter(x: Settings)
    | DrainFailed
    | Rescaled(configured: bool)
    | Convert(ok: bool)
    | Accept(limit: nat)
    | Send(ret: Ret, a: Attempt)
    | Packet(usable: bool, flowOk: bool)
    | PollError(ret: Ret, a: Attempt)
    | KernelFault(a: Attempt)
    | LoopPauses
    | Resize
    | Negotiate(i: Input, x: Settings)
    | Announce(drain: bool, final: bool)
    | Lock
    | Stopped
    | ResetEnds

  predicate Enabled(s: Encoder, a: Action) {
    !s.over &&
    match a
    case Offer => s.handling.Idle?
    case Enter(_) => s.handling.Offered? && s.base != [] && (s.reset.Running? || s.reset.Announced?)
    case DrainFailed => s.handling.Rescaling? && s.base != []
    case Rescaled(_) => s.handling.Rescaling? && s.base != [] && FullyDrained(s)
    case Convert(_) => s.handling.Converting? && s.base != []
    case Accept(limit) =>
      s.handling.Waiting? && s.base != [] && (s.flushing || s.pending < limit <= MAX_PENDING)
    case Send(_, _) => s.frames != []
    case Packet(_, _) => s.mpp != []
    case PollError(ret, _) => !ret.Ok?
    case KernelFault(_) => true
    case LoopPauses => s.flushing
    case Resize => true
    case Negotiate(i, x) => s.handling.Idle? && s.reset.Running? && FullyDrained(s) && Negotiable(s.device, i, x)
    case Announce(_, _) => s.reset.Running?
    case Lock => s.reset.Announced? && (s.handling.Idle? || s.handling.Offered?)
    case Stopped => s.reset.Stopping?
    case ResetEnds => s.reset.Emptying?
  }

  function Next(s: Encoder, a: Action): Encoder
    requires Enabled(s, a)
  {
    match a
    case Offer => OnOffer(s)
    case Enter(x) => OnEnter(s, x)
    case DrainFailed => OnDrainFailed(s)
    case Rescaled(configured) => OnRescaled(s, configured)
    case Convert(ok) => OnConvert(s, ok)
    case Accept(_) => OnAccept(s)
    case Send(ret, attempt) => OnSend(s, ret, attempt)
    case Packet(usable, flowOk) => OnPacket(s, usable, flowOk)
    case PollError(ret, attempt) => Faulted(s, ret, attempt)
    case KernelFault(attempt) => Faulted(s, Fault, attempt)
    case LoopPauses => s.(taskOk := false)
    case Resize => s.(dirty := true)
    case Negotiate(i, x) => s.(input := i, info := Target(i, x), template := Target(i, x))
    case Announce(drain, final) => OnAnnounce(s, drain, final)
    case Lock => s.(reset := Stopping(s.reset.drain, s.reset.final))
    case Stopped => OnStopped(s)
    case ResetEnds => OnResetEnds(s)
  }

  ghost predicate Run(s: Encoder, actions: seq<Action>, last: Encoder)
    decreases |actions|
  {
    if actions == [] then last == s
    else Enabled(s, actions[0]) && Run(Next(s, actions[0]), actions[1..], last)
  }

  lemma {:induction false} OneMore(s: Encoder, steps: seq<Action>, t: Encoder, a: Action)
    requires Run(s, steps, t) && Enabled(t, a)
    ensures Run(s, steps + [a], Next(t, a))
    decreases |steps|
  {
    if steps != [] {
      OneMore(Next(s, steps[0]), steps[1..], t, a);
      assert (steps + [a])[1..] == steps[1..] + [a];
    } else {
      assert ([] + [a])[1..] == [];
    }
  }

  // ---- the pairing invariant

  /** Nothing but the order ties a packet to its frame: the base class's list is what MPP holds, then
      what waits to be sent, then the frame being handled; and the counter is the first two. */
  ghost predicate Paired(s: Encoder) {
    && s.base == SentNumbers(s.mpp) + Numbers(s.frames) + Held(s.handling)
    && s.pending == |s.mpp| + |s.frames| <= MAX_PENDING
  }

  /** Every accepted frame is finished, in MPP or waiting to be sent, in the order of acceptance. */
  ghost predicate Conserved(s: Encoder) {
    s.log.accepted == DoneNumbers(s.log.done) + SentNumbers(s.mpp) + Numbers(s.frames)
  }

  /** Accepted frames are in the order they were offered, and the one being handled is newer than all. */
  ghost predicate InOrder(s: Encoder) {
    && (forall i, j :: 0 <= i < j < |s.log.accepted| ==> s.log.accepted[i] < s.log.accepted[j])
    && (forall i :: 0 <= i < |s.log.accepted| ==> s.log.accepted[i] < s.offered)
    && (forall i, j :: 0 <= i < |s.log.accepted| && 0 <= j < |Held(s.handling)| ==>
          s.log.accepted[i] < Held(s.handling)[j])
    && (forall j :: 0 <= j < |Held(s.handling)| ==> Held(s.handling)[j] < s.offered)
  }

  /** A packet is only ever given to the frame it was coded from. */
  ghost predicate Matched(done: seq<Done>) {
    forall i :: 0 <= i < |done| ==>
      && (done[i].packet.Some? ==> done[i].packet.value == done[i].n)
      && (done[i].outcome.Coded? ==> done[i].packet.Some?)
  }

  ghost predicate Inv(s: Encoder) {
    Matched(s.log.done) && (!s.over ==> Paired(s) && Conserved(s) && InOrder(s))
  }
}
