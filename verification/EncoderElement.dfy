/** The encoder's own routines on the fields they update, each proved to be the steps of the
    pipeline model (gst/rockchipmpp/gstmppenc.c:1225-1335, 1416-1480, 1789-1827 and 2224-2406). */
module EncoderElement {
  import opened Options
  import opened RestartBudget
  import opened EncoderPipeline
  import opened EncoderPairing

  /** What MPP answers to encode_get_packet. */
  datatype Answer = NoPacket | Got(usable: bool, flowOk: bool) | Failed(ret: Ret, a: Attempt)

  /** One round of the boundary drain: the answers to its sends and to its polls; after the last of
      them MPP takes or gives nothing more. */
  datatype Round = Round(sends: seq<(Ret, Attempt)>, polls: seq<Answer>)

  /** What the drain does. */
  predicate Pumps(a: Action) { a.Send? || a.Packet? || a.PollError? }

  class MppEnc {
    var base: seq<nat>
    var frames: seq<Picture>
    var pending: int
    var taskOk: bool
    var flushing: bool
    var draining: bool
    var info: Geometry
    var template: Geometry
    var windowStarted: int
    var attempts: nat

    /** What is inside MPP; `over` once no context is left. */
    var mpp: seq<Sent>
    var over: bool

    /** The rest of the model's state: the positions of other threads and the record of frames. */
    ghost var dirty: bool
    ghost var device: Device
    ghost var input: Input
    ghost var handling: Handling
    ghost var reset: Reset
    ghost var offered: nat
    ghost var log: Log

    ghost function View(): Encoder
      reads this
    {
      Encoder(base, frames, mpp, pending, taskOk, flushing, draining, dirty,
              device, input, info, template, handling, reset,
              Budget(windowStarted, attempts), over, offered, log)
    }

    /** The base class's list is what MPP holds, then what waits, then the frame being handled, the counter is the
        first two, and nothing accepted has been lost. */
    ghost predicate Valid()
      reads this
    {
      Inv(View())
    }

    constructor (ghost d: Device, g: Geometry)
      ensures View() == Initial(d, g) && Valid()
    {
      base, frames, mpp, pending := [], [], [], 0;
      taskOk, flushing, draining, over := true, false, false, false;
      info, template := g, g;
      windowStarted, attempts := 0, 0;
      dirty, device, input, handling, reset, offered := false, d, Input(g, true), Idle, Running, 0;
      log := Log([], [], [], []);
    }

    /** gst_mpp_enc_discard_submitted_frames. */
    method DiscardSubmittedFrames()
      modifies this`base, this`pending, this`log
      ensures View() == Discarded(old(View()))
    {
      var submitted := pending - |frames|;
      ghost var was, before, count := base, log, submitted;
      ghost var n := 0;
      while submitted > 0 && base != []
        modifies this`base, this`log
        invariant 0 <= n <= |was| && base == was[n..] && submitted == count - n
        invariant n == 0 || submitted >= 0
        invariant log == before.(done := before.done + EmptyDone(was[..n]))
      {
        assert EmptyDone(was[..n + 1]) == EmptyDone(was[..n]) + [Done(base[0], None, Empty)];
        log := log.(done := log.done + [Done(base[0], None, Empty)]);
        base := base[1..];
        submitted := submitted - 1;
        n := n + 1;
      }
      pending := |frames|;
    }

    /** The accounting at the head of gst_mpp_enc_restart_context. */
    method TryBudget(now: int) returns (granted: bool)
      modifies this`windowStarted, this`attempts
      ensures (Budget(windowStarted, attempts), granted) == Tried(old(Budget(windowStarted, attempts)), now)
    {
      if windowStarted == 0 || now - windowStarted >= RestartBudget.WINDOW {
        windowStarted := now;
        attempts := 0;
      }
      if attempts >= BUDGET { return false; }
      attempts := attempts + 1;
      granted := true;
    }

    /** gst_mpp_enc_restart_context. */
    method RestartContext(a: Attempt) returns (restarted: bool)
      modifies this`base, this`pending, this`log, this`mpp, this`over, this`taskOk, this`windowStarted, this`attempts
      ensures View() == Restarted(old(View()), a)
      ensures restarted ==> !over
    {
      restarted := TryBudget(a.now);
      if !restarted {
        taskOk := false;
        return;
      }
      DiscardSubmittedFrames();
      ReopenContext(a.created);
      restarted := a.created;
    }

    /** The rest of gst_mpp_enc_restart_context: the old context goes, a new one may come up. */
    method ReopenContext(created: bool)
      modifies this`mpp, this`over, this`taskOk
      ensures View() == Reopened(old(View()), created)
    {
      mpp := [];
      over := !created;
      if !created { taskOk := false; }
    }

    /** gst_mpp_enc_handle_runtime_error. */
    method HandleRuntimeError(ret: Ret, a: Attempt)
      requires !ret.Ok?
      modifies this`base, this`pending, this`log, this`mpp, this`over, this`taskOk, this`windowStarted, this`attempts
      ensures View() == Faulted(old(View()), ret, a)
      ensures old(over ==> !taskOk) ==> (over ==> !taskOk)
    {
      if ret.Timeout? || ret.Nok? { return; }
      if flushing {
        taskOk := false;
        return;
      }
      var _ := RestartContext(a);
    }

    /** gst_mpp_enc_send_frame_locked. */
    method SendFrameLocked(ret: Ret, a: Attempt) returns (progress: bool)
      modifies this`base, this`frames, this`pending, this`log, this`mpp, this`over, this`taskOk,
               this`windowStarted, this`attempts
      ensures View() == if old(frames) == [] then old(View()) else OnSend(old(View()), ret, a)
      ensures old(Valid() && !over) ==> Valid()
      ensures progress <==> old(frames) != [] && ret.Ok?
      ensures progress ==> over == old(over) && |frames| < |old(frames)|
      ensures old(over ==> !taskOk) ==> (over ==> !taskOk)
    {
      hide Inv, Faulted;
      if frames == [] { return false; }
      if Valid() && !over { SentKeepsInv(View(), ret, a); }
      var frame := frames[0];
      var sent := Sent(frame.n, frame.made, template);
      if !ret.Ok? {
        HandleRuntimeError(ret, a);
        return false;
      }
      mpp := mpp + [sent];
      frames := frames[1..];
      log := log.(sent := log.sent + [sent]);
      progress := true;
    }

    /** The part of gst_mpp_enc_poll_packet_locked after a packet arrived. */
    method TakePacket(usable: bool, flowOk: bool)
      requires mpp != []
      modifies this`base, this`pending, this`log, this`mpp, this`taskOk
      ensures View() == OnPacket(old(View()), usable, flowOk)
    {
      ghost var source := mpp[0].n;
      mpp := mpp[1..];
      pending := pending - 1;
      if base == [] { return; }
      var coded := usable && (draining || !flushing);
      FinishOldest(source, coded, flowOk);
    }

    /** gst_video_encoder_finish_frame on the oldest frame, with or without the packet's data. */
    method FinishOldest(ghost packet: nat, coded: bool, flowOk: bool)
      requires base != []
      modifies this`base, this`log, this`taskOk
      ensures View() == Finished(old(View()), packet, if coded then Coded else Empty, flowOk)
    {
      log := log.(done := log.done + [Done(base[0], Some(packet), if coded then Coded else Empty)]);
      base := base[1..];
      taskOk := flowOk;
    }

    /** gst_mpp_enc_poll_packet_locked; MPP gives a packet only for a frame it holds. */
    method PollPacketLocked(answer: Answer) returns (progress: bool)
      requires answer.Failed? ==> !answer.ret.Ok?
      requires answer.Got? ==> mpp != []
      modifies this`base, this`pending, this`log, this`mpp, this`over, this`taskOk, this`windowStarted, this`attempts
      ensures answer.NoPacket? ==> View() == old(View())
      ensures answer.Got? ==> View() == OnPacket(old(View()), answer.usable, answer.flowOk)
      ensures answer.Failed? ==> View() == Faulted(old(View()), answer.ret, answer.a)
      ensures old(Valid() && !over) ==> Valid()
      ensures progress <==> answer.Got?
      ensures old(over ==> !taskOk) && !progress ==> (over ==> !taskOk)
      ensures progress ==> over == old(over)
    {
      progress := answer.Got?;
      if Valid() && !over { AnswerKeepsInv(View(), answer); }
      match answer
      case Failed(ret, a) => HandleRuntimeError(ret, a);
      case NoPacket =>
      case Got(usable, flowOk) => TakePacket(usable, flowOk);
    }

    /** What the drain has done since `start`. */
    ghost predicate Pumped(start: Encoder, steps: seq<Action>)
      reads this
    {
      Run(start, steps, View()) && (forall a :: a in steps ==> Pumps(a)) && (over ==> !taskOk)
    }

    /** The inner loop that sends until MPP takes no more. */
    method SendAll(sends: seq<(Ret, Attempt)>, ghost start: Encoder, ghost before: seq<Action>)
      returns (ghost steps: seq<Action>)
      requires Pumped(start, before) && !over
      modifies this`base, this`frames, this`pending, this`log, this`mpp, this`over, this`taskOk,
               this`windowStarted, this`attempts
      ensures Pumped(start, steps)
    {
      hide OnSend, Faulted;
      steps := before;
      var i, more := 0, true;
      while more && i < |sends|
        invariant 0 <= i <= |sends|
        invariant Pumped(start, steps) && (more ==> !over)
      {
        var (ret, a) := sends[i];
        ghost var was := View();
        more := SendFrameLocked(ret, a);
        if was.frames != [] {
          OneMore(start, steps, was, Send(ret, a));
          steps := steps + [Send(ret, a)];
        }
        i := i + 1;
      }
    }

    /** The inner loop that polls until MPP gives no more. */
    method PollAll(polls: seq<Answer>, ghost start: Encoder, ghost before: seq<Action>)
      returns (ghost steps: seq<Action>)
      requires Pumped(start, before)
      requires forall p :: p in polls ==> p.Failed? ==> !p.ret.Ok?
      modifies this`base, this`pending, this`log, this`mpp, this`over, this`taskOk, this`windowStarted, this`attempts
      ensures Pumped(start, steps)
    {
      hide OnPacket, Faulted;
      steps := before;
      var i, more := 0, !over;
      while more && i < |polls|
        invariant 0 <= i <= |polls|
        invariant Pumped(start, steps) && (more ==> !over)
      {
        var answer := polls[i];
        if answer.Got? && mpp == [] { answer := NoPacket; }
        ghost var was := View();
        more := PollPacketLocked(answer);
        if !answer.NoPacket? {
          ghost var step := if answer.Failed? then PollError(answer.ret, answer.a)
                            else Packet(answer.usable, answer.flowOk);
          OneMore(start, steps, was, step);
          steps := steps + [step];
        }
        i := i + 1;
      }
    }

    /** gst_mpp_enc_drain_resolution_boundary: a run of sends and polls, which is told to have succeeded
        only when nothing is left. The rounds end when the no-progress deadline passes. */
    method DrainResolutionBoundary(rounds: seq<Round>) returns (drained: bool, ghost steps: seq<Action>)
      requires !over
      requires forall r :: r in rounds ==> forall p :: p in r.polls ==> p.Failed? ==> !p.ret.Ok?
      modifies this
      ensures Run(old(View()), steps, View()) && forall a :: a in steps ==> Pumps(a)
      ensures old(Valid()) ==> Valid()
      ensures drained ==> FullyDrained(View())
    {
      steps := [];
      ghost var start := View();
      KeptOnEveryRun(start);
      var k := 0;
      while frames != [] || pending != 0
        invariant 0 <= k <= |rounds|
        invariant Pumped(start, steps) && !over
        decreases |rounds| - k
      {
        if k == |rounds| { return false, steps; }
        assert rounds[k] in rounds;
        steps := SendAll(rounds[k].sends, start, steps);
        steps := PollAll(rounds[k].polls, start, steps);
        if !taskOk { return false, steps; }
        k := k + 1;
      }
      drained := true;
    }

    /** The end of handle_frame, once room was found or flushing ended the wait: the frame is the last to be sent and is
        counted, or it is given back with its uncoded picture and nothing else changes. */
    method AcceptFrame(picture: Picture) returns (ok: bool)
      requires Valid() && !over && handling == Handling.Waiting(picture) && (flushing || pending < MAX_PENDING)
      modifies this`base, this`pending, this`frames, this`handling, this`log
      ensures Valid() && View() == OnAccept(old(View())) && ok == !flushing && handling == Idle
      ensures pending == |mpp| + |frames| <= MAX_PENDING && base == SentNumbers(mpp) + Numbers(frames)
      ensures ok ==> frames == old(frames) + [picture] && log.accepted == old(log).accepted + [picture.n]
      ensures !ok ==> frames == old(frames)
                      && log == old(log).(refused := old(log).refused + [Refusal(picture.n, true)])
    {
      hide Inv;
      NewestIsHandled(View());
      AcceptKeepsInv(View(), MAX_PENDING);
      AcceptedIsLast(View());
      ghost var was := View();
      if flushing {
        log := log.(refused := log.refused + [Refusal(base[|base| - 1], true)]);
        base, handling := base[..|base| - 1], Idle;
        ok := false;
      } else {
        pending := pending + 1;
        frames := frames + [picture];
        log, handling := log.(accepted := log.accepted + [picture.n]), Idle;
        ok := true;
      }
      assert View() == OnAccept(was);
      hide OnAccept;
    }

    /** The end of gst_mpp_enc_reset: OK exactly if no flow error came and, for a drain, every frame ever accepted has
        been finished; what the model says about lists and counter ends exactly where one has not. */
    method EndReset(drain: bool) returns (ok: bool)
      requires Valid() && !over && reset.Emptying? && reset.drain == drain
      modifies this`taskOk, this`pending, this`frames, this`over, this`reset
      ensures Valid() && View() == OnResetEnds(old(View()))
      ensures ok <==> old(taskOk) && (drain ==> AllFinished(log))
      ensures over <==> !AllFinished(log)
      ensures !over ==> base == Held(handling)
    {
      hide Inv, AllFinished, Held;
      ghost var was := View();
      ResetEndKeepsInv(was);
      UnfinishedIsCounted(was);
      ok := taskOk;
      var fullyDrained := pending == 0 && frames == [];
      if drain && !fullyDrained { ok := false; }
      StartOver(fullyDrained);
    }

    /** The last assignments of gst_mpp_enc_reset. */
    method StartOver(fullyDrained: bool)
      requires fullyDrained == FullyDrained(View())
      modifies this`taskOk, this`pending, this`frames, this`over, this`reset
      ensures View() == OnResetEnds(old(View()))
    {
      taskOk := true;
      pending := 0;
      frames := [];
      over := !fullyDrained;
      reset := Running;
    }
  }

  lemma AcceptedIsLast(s: Encoder)
    requires Inv(s) && !s.over && s.handling.Waiting? && (s.flushing || s.pending < MAX_PENDING)
    ensures s.base != [] && s.base[|s.base| - 1] == s.handling.picture.n
    ensures var t := OnAccept(s);
            t.pending == |t.mpp| + |t.frames| <= MAX_PENDING && t.base == SentNumbers(t.mpp) + Numbers(t.frames)
  {
    NewestIsHandled(s);
    AcceptKeepsInv(s, MAX_PENDING);
    var t := OnAccept(s);
    assert SentNumbers(t.mpp) + Numbers(t.frames) + [] == SentNumbers(t.mpp) + Numbers(t.frames);
  }

  lemma SentKeepsInv(s: Encoder, ret: Ret, a: Attempt)
    requires Inv(s) && !s.over && s.frames != []
    ensures Inv(OnSend(s, ret, a))
  {
    if ret.Ok? { SendKeepsInv(s, a); } else { FaultKeepsInv(s, ret, a); }
  }

  lemma AnswerKeepsInv(s: Encoder, answer: Answer)
    requires Inv(s) && !s.over && (answer.Failed? ==> !answer.ret.Ok?) && (answer.Got? ==> s.mpp != [])
    ensures answer.Got? ==> Inv(OnPacket(s, answer.usable, answer.flowOk))
    ensures answer.Failed? ==> Inv(Faulted(s, answer.ret, answer.a))
  {
    match answer
    case Got(usable, flowOk) => PacketKeepsInv(s, usable, flowOk);
    case Failed(ret, a) => FaultKeepsInv(s, ret, a);
    case NoPacket =>
  }

  lemma KeptOnEveryRun(s: Encoder)
    ensures Inv(s) ==> forall steps: seq<Action>, t: Encoder :: Run(s, steps, t) ==> Inv(t)
  {
    if Inv(s) {
      forall steps: seq<Action>, t: Encoder | Run(s, steps, t) ensures Inv(t) { RunKeepsInv(s, steps, t); }
    }
  }

  /** Every accepted frame has been finished. */
  ghost predicate AllFinished(log: Log) { log.accepted == DoneNumbers(log.done) }

  /** The counter tells whether an accepted frame is unfinished. */
  lemma UnfinishedIsCounted(s: Encoder)
    requires Inv(s) && !s.over
    ensures FullyDrained(s) <==> AllFinished(s.log)
    ensures FullyDrained(s) ==> s.base == Held(s.handling)
  {
    assert |s.log.accepted| == |s.log.done| + |s.mpp| + |s.frames|;
    if FullyDrained(s) {
      assert s.mpp == [] && SentNumbers(s.mpp) == [] && Numbers(s.frames) == [];
      assert s.log.accepted == DoneNumbers(s.log.done) + [] + [];
      assert s.base == [] + [] + Held(s.handling);
    }
  }
}
