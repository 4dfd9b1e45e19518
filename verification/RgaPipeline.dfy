/** The converter as a state machine: the streaming thread, two concurrent reap calls, stop,
    the process-lifetime reaper, FLUSH_START, state changes and the hardware interleave freely,
    one step for each critical section, each reference drop and each poll. */
module RgaPipeline {
  import opened Options
  import opened ImportCache
  import opened RgaFrames
  import opened DeliveryLedger

  /** Who called take_ready: generate_output of the chain, the drain before a synchronous
      conversion, or the drain of a serialized event. */
  datatype Caller = Chain | SyncDrain | EventDrain

  /** Where the streaming thread is. */
  datatype Pc =
    | Resting
    | Entered
    | Admitted
    | Preparing
    | Converting
    | Leasing(async: bool)
    | Publishing(src: Option<nat>, dst: Option<nat>)
    | Aborting(f: nat)
    | Submitting(f: nat, generation: nat)
    | Submitted(f: nat, ok: bool, lost: bool, flushed: bool)
    | Finishing(ok: bool, lost: bool, flushed: bool)
    | Blitting(src: Option<nat>, dst: Option<nat>)
    | Blitted(ok: bool, lost: bool)
    | Placing
    | Generating
    | Taking(caller: Caller)
    | Waiting(f: nat, caller: Caller, last: Status)
    | Deciding(f: nat, caller: Caller, last: Status)
    | Dropping(caller: Caller, output: Option<nat>, good: bool)
    | Taken(caller: Caller, output: Option<nat>, good: bool)
    | Pushing(caller: Caller, n: nat)
    | Draining(caller: Caller)
    | Resuming

  /** On whose behalf take_ready or a drain is running. */
  function CallerOf(pc: Pc): Option<Caller> {
    match pc
    case Taking(c) => Some(c)
    case Waiting(_, c, _) => Some(c)
    case Deciding(_, c, _) => Some(c)
    case Dropping(c, _, _) => Some(c)
    case Taken(c, _, _) => Some(c)
    case Pushing(c, _) => Some(c)
    case Draining(c) => Some(c)
    case _ => None
  }

  /** One call of gst_rga_convert_reap: records still to visit, the visited ones, what was read
      of the first one, and whether its quarantine reference is being dropped. */
  datatype Reap =
    | NoReap
    | Reap(todo: seq<nat>, visited: seq<nat>, seen: Option<Seen>, dropping: bool)

  datatype Seen = Seen(submitted: bool, fence: Fence)

  datatype Stop = NotStopping | Stopping | Escaping(frames: seq<nat>)

  /** `capable` is async-depth > 0 with improcessOpt present, fixed for the run;
      `held` are the record references of the streaming thread, `queued` whether the base class
      still holds the input, `blocked` the caller's promise after a refused buffer, `incoming`
      and `reaper` the two lists of the reaper, `sole` the record it found itself sole owner of.
      `pushed` and `fates` record the deliveries, `returnedOk` the chain calls that returned OK. */
  datatype State = State(capable: bool, el: Element, pc: Pc, held: seq<nat>, queued: bool, blocked: bool,
                         reapA: Reap, reapB: Reap, stop: Stop,
                         incoming: seq<nat>, reaper: seq<nat>, sole: Option<nat>,
                         pushed: seq<nat>, fates: seq<Fate>, returnedOk: set<nat>)

  /** submit_input_buffer; QoS may leave nothing queued when a buffer is offered. */
  datatype SubmitAction = Offer(queued: bool) | Guard | Rotate | Prepare(ok: bool) | Place

  datatype TransformAction =
    | ReadSettings(ok: bool)
    | Lease(staging: bool, src: Lookup, dst: Lookup)
    | Publish
    | DropAborted
    | HardwareTakes
    | SubmitReturns(fence: Fence, ok: bool, lost: bool)
    | DropSubmitted
    | Close
    | BlitReturns(ok: bool, lost: bool)
    | CloseBlit

  /** generate_output, take_ready and the pushing drain. */
  datatype OutputAction =
    | Generate
    | Take
    | Recheck
    | PollReady(status: Status, late: bool)
    | Decide
    | DropTaken
    | EndTake
    | Push(ok: bool)
    | DrainHead

  /** Events, flushes, state changes, stop and the hardware. */
  datatype ControlAction =
    | Event
    | FlushStopEvent
    | Resume
    | FlushStart
    | StateChangeDrain
    | StopBegin
    | StopRound(late: bool)
    | Retire
    | Start
    | HardwareEnds(f: nat, ok: bool)

  datatype ReapAction =
    | ReapBegin
    | ReapRead
    | ReapDecide(status: Status)
    | ReapUnref
    | ReapRelease
    | ReapEnd

  datatype ReaperAction = Collect | FindSole(i: nat) | ReaperPoll(status: Status)

  datatype Action =
    | Submit(s: SubmitAction)
    | Transform(t: TransformAction)
    | Output(o: OutputAction)
    | Control(c: ControlAction)
    | Reaping(w: bool, r: ReapAction)
    | Reaper(e: ReaperAction)

  /** One request to the import cache: no answer at all, or the descriptor's attributes and what
      fcntl and librga would answer. */
  datatype Lookup =
    | NoLookup
    | Lookup(fd: int, identity: Identity, param: Param, dup: int, handle: nat, id: nat)

  function LookedUp(imports: seq<Import>, l: Lookup): Request {
    match l
    case NoLookup => Request(imports, None, None)
    case Lookup(fd, identity, param, dup, handle, id) => Requested(imports, fd, identity, param, dup, handle, id)
  }

  function LeasedId(r: Request): Option<nat> {
    if r.leased.Some? then Some(r.leased.value.id) else None
  }

  predicate FreshLookup(imports: seq<Import>, l: Lookup) {
    l.Lookup? ==> FreshId(imports, l.id)
  }

  function Initial(capable: bool): State {
    State(capable, Element([], None, None, [], false, false, false, 0, 0, 0, 0, []),
          Resting, [], false, false, NoReap, NoReap, NotStopping, [], [], None, [], [], {})
  }

  /** The streaming thread and what it decides by are the same. */
  predicate SameFlow(s: State, t: State) {
    && t.capable == s.capable && t.pc == s.pc && t.held == s.held && t.queued == s.queued && t.blocked == s.blocked
    && t.fates == s.fates && t.pushed == s.pushed && t.returnedOk == s.returnedOk
    && t.el.pending == s.el.pending && t.el.ready == s.el.ready && t.el.flushing == s.el.flushing
    && t.el.disabled == s.el.disabled && t.el.custom == s.el.custom && t.el.dropped == s.el.dropped
    && t.el.generation == s.el.generation
    && |t.el.frames| == |s.el.frames|
    && forall f :: 0 <= f < |s.el.frames| ==> t.el.frames[f].n == s.el.frames[f].n
  }

  /** The reap calls and the reaper's own list are the same. */
  predicate SameRest(s: State, t: State) {
    t.reapA == s.reapA && t.reapB == s.reapB && t.reaper == s.reaper && t.sole == s.sole
  }

  function TheReap(s: State, a: bool): Reap { if a then s.reapA else s.reapB }

  function WithReap(s: State, a: bool, r: Reap): (t: State)
    ensures SameFlow(s, t) && TheReap(t, a) == r && TheReap(t, !a) == TheReap(s, !a)
  {
    if a then s.(reapA := r) else s.(reapB := r)
  }

  /** Everything but the streaming thread's position and the record of deliveries is the same. */
  predicate SameCore(s: State, t: State) {
    && t.capable == s.capable && t.el == s.el && t.held == s.held
    && t.reapA == s.reapA && t.reapB == s.reapB && t.stop == s.stop
    && t.incoming == s.incoming && t.reaper == s.reaper && t.sole == s.sole
  }

  /** The input the chain call in progress was given. */
  function Current(s: State): int { |s.fates| - 1 }

  function SetFate(s: State, n: int, fate: Fate): (t: State)
    requires 0 <= n < |s.fates|
    ensures SameCore(s, t)
  {
    s.(fates := s.fates[n := fate])
  }

  /** The inputs whose record a flush takes out of the pipeline. */
  function FlushFates(fates: seq<Fate>, el: Element): (r: seq<Fate>)
    ensures |r| == |fates|
    ensures forall n :: 0 <= n < |fates| ==> r[n] == if InPipe(el, n) then Flushed else fates[n]
  {
    seq(|fates|, n requires 0 <= n < |fates| => if InPipe(el, n) then Flushed else fates[n])
  }

  predicate HoldsInput(el: Element, slot: Option<nat>, n: int) {
    slot.Some? && slot.value < |el.frames| && el.frames[slot.value].n == n
  }

  predicate InPipe(el: Element, n: int) {
    HoldsInput(el, el.pending, n) || HoldsInput(el, el.ready, n)
  }

  /** The chain call returns; `refused` when submit_input_buffer was not OK. */
  function Return(s: State, ok: bool, refused: bool): (t: State)
    requires |s.fates| > 0
    ensures SameCore(s, t)
  {
    s.(pc := Resting, queued := false, blocked := s.blocked || refused,
       returnedOk := if ok then s.returnedOk + {|s.fates| - 1} else s.returnedOk)
  }

  predicate Converts(pc: Pc) {
    pc.Converting? || pc.Leasing? || pc.Blitting? || pc.Blitted?
  }

  /** The input goes no further. Only a synchronous conversion fails outside submit_input_buffer. */
  function Refuse(s: State): (t: State)
    requires |s.fates| > 0
    ensures SameCore(s, t)
  {
    var fate := s.fates[|s.fates| - 1];
    Return(if fate == Offered || fate == Skipped then SetFate(s, Current(s), Refused) else s,
           false, s.el.custom || !Converts(s.pc))
  }

  /** take_ready is over: `good` is its OK, `output` what it produced. */
  function AfterTake(s: State, caller: Caller, output: Option<nat>, good: bool): (t: State)
    requires |s.fates| > 0 || caller.EventDrain?
    ensures SameCore(s, t)
  {
    if good && output.Some? then s.(pc := Pushing(caller, output.value))
    else
      match caller
      case Chain => Return(s, good, false)
      case SyncDrain => if good then s.(pc := Draining(SyncDrain)) else Refuse(s)
      case EventDrain => if good then s.(pc := Draining(EventDrain)) else s.(pc := Resting, blocked := false)
  }

  /** A push consumes the buffer whatever it returns. */
  function AfterPush(s: State, caller: Caller, n: nat, ok: bool): (r: State)
    requires n < |s.fates|
    ensures SameCore(s, r)
  {
    var t := SetFate(s.(pushed := s.pushed + [n]), n, Pushed);
    match caller
    case Chain => if ok then t.(pc := Generating) else Return(t, false, false)
    case SyncDrain => if ok then t.(pc := Draining(SyncDrain)) else Refuse(t)
    case EventDrain => if ok then t.(pc := Draining(EventDrain)) else t.(pc := Resting, blocked := false)
  }

  /** What the transform leads to: into the pipeline for a converted buffer, or straight downstream. */
  function Transformed(s: State, ok: bool): (t: State)
    requires |s.fates| > 0
    ensures SameCore(s, t)
  {
    if !ok then Refuse(s)
    else if s.el.custom then s.(pc := Placing)
    else SetFate(s, Current(s), Leaving).(pc := Pushing(Chain, Current(s)))
  }

  predicate Valid(el: Element, f: nat) { f < |el.frames| }

  predicate Chaining(s: State) { |s.fates| > 0 }

  predicate Visiting(s: State, a: bool) {
    TheReap(s, a).Reap? && TheReap(s, a).todo != [] && Valid(s.el, TheReap(s, a).todo[0])
  }

  predicate Releasing(s: State, a: bool) {
    var r := TheReap(s, a);
    r.Reap? && r.todo == [] && r.visited != [] && Valid(s.el, r.visited[0])
  }

  // ---- submit_input_buffer

  function OnOffer(s: State, queued: bool): State {
    s.(pc := Entered, queued := queued, fates := s.fates + [if queued then Offered else Skipped])
  }

  function OnGuard(s: State): State
    requires Chaining(s)
  {
    var t := s.(el := SubmitGuarded(s.el));
    if s.el.flushing then Refuse(t)
    else t.(pc := if AsyncEnabled(s.el, s.capable) then Admitted else Draining(SyncDrain))
  }

  function OnRotate(s: State): State {
    if s.queued then s.(el := Rotated(s.el), queued := false, pc := Preparing) else s.(pc := Generating)
  }

  function OnPrepare(s: State, ok: bool): State
    requires Chaining(s)
  {
    if ok then s.(pc := Converting) else Refuse(s)
  }

  function OnPlace(s: State): State
    requires Chaining(s)
  {
    var t := s.(el := Placed(s.el, |s.fates| - 1), pc := Generating);
    if s.el.pending.Some? then t
    else if !s.el.flushing then SetFate(t, Current(s), Pipelined)
    else if s.fates[|s.fates| - 1] == Offered then SetFate(t, Current(s), Flushed) else t
  }

  // ---- transform

  function OnReadSettings(s: State, ok: bool): State
    requires Chaining(s)
  {
    if ok then s.(pc := Leasing(AsyncEnabled(s.el, s.capable))) else Refuse(s)
  }

  function OnLease(s: State, staging: bool, src: Lookup, dst: Lookup): State
    requires s.pc.Leasing? && Chaining(s)
  {
    if s.el.flushing then Refuse(s)
    else
      var r := LookedUp(s.el.imports, src);
      var q := LookedUp(r.list, dst);
      s.(el := s.el.(submits := s.el.submits + 1, imports := q.list),
         pc := if s.pc.async && !staging then Publishing(LeasedId(r), LeasedId(q))
               else Blitting(LeasedId(r), LeasedId(q)))
  }

  function OnPublish(s: State): State
    requires s.pc.Publishing? && Chaining(s)
  {
    var f := |s.el.frames|;
    var t := s.(el := Published(s.el, |s.fates| - 1, s.pc.src, s.pc.dst), held := [f]);
    if s.el.flushing then t.(pc := Aborting(f))
    else SetFate(t, Current(s), Pipelined).(pc := Submitting(f, s.el.generation))
  }

  function OnDropAborted(s: State): State
    requires s.pc.Aborting? && Valid(s.el, s.pc.f)
  {
    s.(el := Unref(s.el, s.pc.f), held := [], pc := Finishing(false, false, true))
  }

  function OnHardwareTakes(s: State): State
    requires s.pc.Submitting? && Valid(s.el, s.pc.f)
  {
    s.(el := s.el.(frames := s.el.frames[s.pc.f := s.el.frames[s.pc.f].(job := Running)]))
  }

  function OnSubmitReturns(s: State, fence: Fence, ok: bool, lost: bool): State
    requires s.pc.Submitting? && Valid(s.el, s.pc.f) && Chaining(s)
  {
    var t := s.(el := SubmissionEnded(s.el, s.pc.f, fence, ok),
                pc := Submitted(s.pc.f, ok, lost, s.el.flushing || s.pc.generation != s.el.generation));
    if ok then t else SetFate(t, Current(s), Refused)
  }

  function OnDropSubmitted(s: State): State
    requires s.pc.Submitted? && Valid(s.el, s.pc.f)
  {
    s.(el := Unref(s.el, s.pc.f), held := [], pc := Finishing(s.pc.ok, s.pc.lost, s.pc.flushed))
  }

  function OnClose(s: State): State
    requires s.pc.Finishing? && Chaining(s)
  {
    var t := s.(el := SubmitClosed(s.el, s.pc.lost));
    if s.pc.flushed then Refuse(t) else Transformed(t, s.pc.ok)
  }

  function OnBlitReturns(s: State, ok: bool, lost: bool): State
    requires s.pc.Blitting?
  {
    s.(el := s.el.(imports := PutOption(PutOption(s.el.imports, s.pc.src), s.pc.dst)), pc := Blitted(ok, lost))
  }

  function OnCloseBlit(s: State): State
    requires s.pc.Blitted? && Chaining(s)
  {
    Transformed(s.(el := SubmitClosed(s.el, s.pc.lost)), s.pc.ok)
  }

  // ---- generate_output, take_ready and the pushing drain

  function OnGenerate(s: State): (t: State)
    requires Chaining(s)
    ensures SameRest(s, t)
  {
    if s.el.flushing then Return(if s.queued then SetFate(s, Current(s), Refused) else s, false, false)
    else if s.el.custom then s.(pc := Taking(Chain))
    else if s.queued then s.(queued := false, pc := Converting)
    else Return(s, true, false)
  }

  function OnTake(s: State): (t: State)
    requires s.pc.Taking? && (Chaining(s) || s.pc.caller.EventDrain?)
    requires s.el.ready.Some? ==> Valid(s.el, s.el.ready.value)
    ensures SameJobs(s.el.frames, t.el.frames) && SameRest(s, t)
  {
    var t := s.(el := TakeStarted(s.el));
    if s.el.ready.Some? then t.(held := [s.el.ready.value], pc := Waiting(s.el.ready.value, s.pc.caller, Pending))
    else AfterTake(t, s.pc.caller, None, true)
  }

  function OnRecheck(s: State): (t: State)
    requires s.pc.Waiting?
    ensures SameRest(s, t)
  {
    if TakenAway(s.el, s.pc.f) then s.(pc := Deciding(s.pc.f, s.pc.caller, s.pc.last)) else s
  }

  function OnPollReady(s: State, status: Status, late: bool): (t: State)
    requires s.pc.Waiting?
    ensures SameRest(s, t)
  {
    if status != Pending || late then s.(pc := Deciding(s.pc.f, s.pc.caller, status))
    else s.(pc := Waiting(s.pc.f, s.pc.caller, status))
  }

  function OnDecide(s: State): (t: State)
    requires s.pc.Deciding? && Valid(s.el, s.pc.f) && s.el.frames[s.pc.f].n < |s.fates|
    ensures SameJobs(s.el.frames, t.el.frames)
    ensures t.el == TakeDecided(s.el, s.pc.f, s.pc.last) && SameRest(s, t)
  {
    var f := s.pc.f;
    var n := s.el.frames[f].n;
    var t := s.(el := TakeDecided(s.el, f, s.pc.last));
    if TakenAway(s.el, f) then t.(pc := Dropping(s.pc.caller, None, false))
    else
      match s.pc.last
      case Pending => SetFate(t, n, Dropped).(pc := Dropping(s.pc.caller, None, true))
      case Complete => SetFate(t, n, Leaving).(held := s.held + [f], pc := Dropping(s.pc.caller, Some(n), true))
      case Error => SetFate(t, n, Dropped).(held := s.held + [f], pc := Dropping(s.pc.caller, None, false))
  }

  function OnDropTaken(s: State): (t: State)
    requires s.pc.Dropping? && s.held != [] && Valid(s.el, s.held[0])
    ensures SameJobs(s.el.frames, t.el.frames) && SameRest(s, t)
  {
    var t := s.(el := Unref(s.el, s.held[0]), held := s.held[1..]);
    if |s.held| == 1 then t.(pc := Taken(s.pc.caller, s.pc.output, s.pc.good)) else t
  }

  function OnEndTake(s: State): (t: State)
    requires s.pc.Taken? && (Chaining(s) || s.pc.caller.EventDrain?)
    ensures SameJobs(s.el.frames, t.el.frames) && SameRest(s, t)
  {
    AfterTake(s.(el := s.el.(waiters := s.el.waiters - 1)), s.pc.caller, s.pc.output, s.pc.good)
  }

  function OnPush(s: State, ok: bool): (t: State)
    requires s.pc.Pushing? && s.pc.n < |s.fates|
    ensures SameJobs(s.el.frames, t.el.frames) && SameRest(s, t)
  {
    AfterPush(s, s.pc.caller, s.pc.n, ok)
  }

  function OnDrainHead(s: State): (t: State)
    requires s.pc.Draining?
    ensures SameJobs(s.el.frames, t.el.frames) && SameRest(s, t)
  {
    var t := s.(el := DrainRotated(s.el));
    if t.el.ready.Some? then t.(pc := Taking(s.pc.caller))
    else if s.pc.caller.SyncDrain? then t.(pc := Generating)
    else t.(pc := Resting, blocked := false)
  }

  // ---- events, flushes, state changes, stop and the hardware

  function OnFlush(s: State): State {
    s.(el := Quarantined(s.el), fates := FlushFates(s.fates, s.el))
  }

  function OnResume(s: State): State {
    s.(el := s.el.(flushing := false), blocked := false, pc := Resting)
  }

  function OnFlushStart(s: State): State {
    s.(el := FlushStarted(s.el), fates := FlushFates(s.fates, s.el))
  }

  function OnStopRound(s: State, late: bool): State {
    s.(el := StopChecked(s.el, late),
       stop := if StopEmpty(s.el) then NotStopping else if late then Escaping(s.el.quarantine) else Stopping)
  }

  function OnHardwareEnds(s: State, f: nat, ok: bool): State
    requires Valid(s.el, f)
  {
    s.(el := s.el.(frames := s.el.frames[f := s.el.frames[f].(job := if ok then Completed else Failed)]))
  }

  // ---- gst_rga_convert_reap

  function OnReapBegin(s: State, a: bool): (t: State)
    ensures SameFlow(s, t)
  {
    WithReap(s.(el := ReapStarted(s.el)), a, Reap(Reversed(s.el.quarantine), [], None, false))
  }

  function OnReapRead(s: State, a: bool): (t: State)
    requires Visiting(s, a)
    ensures SameFlow(s, t)
  {
    var r := TheReap(s, a);
    var fr := s.el.frames[r.todo[0]];
    WithReap(s, a, r.(seen := Some(Seen(fr.submitted, fr.fence))))
  }

  function OnReapDecide(s: State, a: bool, status: Status): (t: State)
    requires Visiting(s, a)
    ensures SameFlow(s, t)
  {
    var r := TheReap(s, a);
    var f := r.todo[0];
    var t := s.(el := ReapDecided(s.el, f, status));
    if status != Pending && f in s.el.quarantine then WithReap(t, a, r.(seen := None, dropping := true))
    else WithReap(t, a, Reap(r.todo[1..], r.visited + [f], None, false))
  }

  function OnReapUnref(s: State, a: bool): (t: State)
    requires Visiting(s, a)
    ensures SameFlow(s, t)
  {
    var r := TheReap(s, a);
    WithReap(s.(el := Unref(s.el, r.todo[0])), a, Reap(r.todo[1..], r.visited + [r.todo[0]], None, false))
  }

  function OnReapRelease(s: State, a: bool): (t: State)
    requires Releasing(s, a)
    ensures SameFlow(s, t)
  {
    var r := TheReap(s, a);
    WithReap(s.(el := Unref(s.el, r.visited[0])), a, r.(visited := r.visited[1..]))
  }

  // ---- the process-lifetime reaper

  function OnReaperPoll(s: State, status: Status): (t: State)
    requires s.sole.Some? && Valid(s.el, s.sole.value) && s.sole.value in s.reaper
    ensures SameFlow(s, t)
  {
    if status == Pending then s.(sole := None)
    else s.(sole := None, reaper := Removed(s.reaper, s.sole.value), el := Unref(s.el, s.sole.value))
  }

  // ---- all steps: the thread is where the step begins, and the step's choices are ones the callee
  // can make (a successful submission returns a sync file, one that returns none was never taken)

  predicate SubmitEnabled(s: State, a: SubmitAction) {
    match a
    case Offer(_) => s.pc.Resting? && !s.blocked
    case Guard => s.pc.Entered? && Chaining(s)
    case Rotate => s.pc.Admitted?
    case Prepare(_) => s.pc.Preparing? && Chaining(s)
    case Place => s.pc.Placing? && Chaining(s)
  }

  function SubmitStep(s: State, a: SubmitAction): (t: State)
    requires SubmitEnabled(s, a)
    ensures SameRest(s, t)
  {
    match a
    case Offer(queued) => OnOffer(s, queued)
    case Guard => OnGuard(s)
    case Rotate => OnRotate(s)
    case Prepare(ok) => OnPrepare(s, ok)
    case Place => OnPlace(s)
  }

  predicate TransformEnabled(s: State, a: TransformAction) {
    match a
    case ReadSettings(_) => s.pc.Converting? && Chaining(s)
    case Lease(_, src, dst) =>
      s.pc.Leasing? && Chaining(s) && FreshLookup(s.el.imports, src)
      && FreshLookup(LookedUp(s.el.imports, src).list, dst)
    case Publish => s.pc.Publishing? && Chaining(s)
    case DropAborted => s.pc.Aborting? && Valid(s.el, s.pc.f)
    case HardwareTakes => s.pc.Submitting? && Valid(s.el, s.pc.f) && s.el.frames[s.pc.f].job.NotTaken?
    case SubmitReturns(fence, ok, lost) =>
      s.pc.Submitting? && Chaining(s) && Valid(s.el, s.pc.f)
      && (ok ==> fence.SyncFile? && !lost)
      && (fence.NoFence? ==> s.el.frames[s.pc.f].job.NotTaken?)
      && (fence.SyncFile? ==> !s.el.frames[s.pc.f].job.NotTaken?)
    case DropSubmitted => s.pc.Submitted? && Valid(s.el, s.pc.f)
    case Close => s.pc.Finishing? && Chaining(s)
    case BlitReturns(ok, lost) => s.pc.Blitting? && (ok ==> !lost)
    case CloseBlit => s.pc.Blitted? && Chaining(s)
  }

  function TransformStep(s: State, a: TransformAction): (t: State)
    requires TransformEnabled(s, a)
    ensures SameRest(s, t)
  {
    match a
    case ReadSettings(ok) => OnReadSettings(s, ok)
    case Lease(staging, src, dst) => OnLease(s, staging, src, dst)
    case Publish => OnPublish(s)
    case DropAborted => OnDropAborted(s)
    case HardwareTakes => OnHardwareTakes(s)
    case SubmitReturns(fence, ok, lost) => OnSubmitReturns(s, fence, ok, lost)
    case DropSubmitted => OnDropSubmitted(s)
    case Close => OnClose(s)
    case BlitReturns(ok, lost) => OnBlitReturns(s, ok, lost)
    case CloseBlit => OnCloseBlit(s)
  }

  predicate OutputEnabled(s: State, a: OutputAction) {
    match a
    case Generate => s.pc.Generating? && Chaining(s)
    case Take =>
      s.pc.Taking? && (Chaining(s) || s.pc.caller.EventDrain?)
      && (s.el.ready.Some? ==> Valid(s.el, s.el.ready.value))
    case Recheck => s.pc.Waiting?
    case PollReady(status, _) =>
      s.pc.Waiting? && Valid(s.el, s.pc.f)
      && MayPoll(s.el.frames[s.pc.f].fence, s.el.frames[s.pc.f].job, status)
    case Decide => s.pc.Deciding? && Valid(s.el, s.pc.f) && s.el.frames[s.pc.f].n < |s.fates|
    case DropTaken => s.pc.Dropping? && s.held != [] && Valid(s.el, s.held[0])
    case EndTake => s.pc.Taken? && (Chaining(s) || s.pc.caller.EventDrain?)
    case Push(_) => s.pc.Pushing? && s.pc.n < |s.fates|
    case DrainHead => s.pc.Draining?
  }

  function OutputStep(s: State, a: OutputAction): (t: State)
    requires OutputEnabled(s, a)
    ensures SameRest(s, t)
  {
    match a
    case Generate => OnGenerate(s)
    case Take => OnTake(s)
    case Recheck => OnRecheck(s)
    case PollReady(status, late) => OnPollReady(s, status, late)
    case Decide => OnDecide(s)
    case DropTaken => OnDropTaken(s)
    case EndTake => OnEndTake(s)
    case Push(ok) => OnPush(s, ok)
    case DrainHead => OnDrainHead(s)
  }

  predicate ControlEnabled(s: State, a: ControlAction) {
    match a
    case Event => s.pc.Resting?
    case FlushStopEvent => s.pc.Resting?
    case Resume => s.pc.Resuming?
    case FlushStart => true
    case StateChangeDrain => true
    case StopBegin => s.stop.NotStopping?
    case StopRound(_) => s.stop.Stopping?
    case Retire => s.stop.Escaping?
    case Start => s.pc.Resting? && s.stop.NotStopping? && CanStart(s.el)
    case HardwareEnds(f, _) => Valid(s.el, f) && s.el.frames[f].job.Running?
  }

  function ControlStep(s: State, a: ControlAction): (t: State)
    requires ControlEnabled(s, a)
    ensures SameRest(s, t)
  {
    match a
    case Event => s.(pc := Draining(EventDrain))
    case FlushStopEvent => OnFlush(s).(pc := Resuming)
    case Resume => OnResume(s)
    case FlushStart => OnFlushStart(s)
    case StateChangeDrain => OnFlush(s)
    case StopBegin => OnFlushStart(s).(blocked := false, stop := Stopping)
    case StopRound(late) => OnStopRound(s, late)
    case Retire => s.(incoming := s.incoming + s.stop.frames, stop := NotStopping)
    case Start => s.(el := RgaFrames.Started(s.el))
    case HardwareEnds(f, ok) => OnHardwareEnds(s, f, ok)
  }

  predicate ReapEnabled(s: State, w: bool, a: ReapAction) {
    match a
    case ReapBegin => TheReap(s, w).NoReap?
    case ReapRead => Visiting(s, w) && !TheReap(s, w).dropping && TheReap(s, w).seen.None?
    case ReapDecide(status) =>
      Visiting(s, w) && !TheReap(s, w).dropping && TheReap(s, w).seen.Some?
      && (var seen := TheReap(s, w).seen.value;
          if seen.submitted then MayPoll(seen.fence, s.el.frames[TheReap(s, w).todo[0]].job, status)
          else status.Pending?)
    case ReapUnref => Visiting(s, w) && TheReap(s, w).dropping
    case ReapRelease => Releasing(s, w)
    case ReapEnd => TheReap(s, w).Reap? && TheReap(s, w).todo == [] && TheReap(s, w).visited == []
  }

  function ReapStep(s: State, w: bool, a: ReapAction): (t: State)
    requires ReapEnabled(s, w, a)
    ensures t.reaper == s.reaper && t.sole == s.sole && TheReap(t, !w) == TheReap(s, !w)
  {
    match a
    case ReapBegin => OnReapBegin(s, w)
    case ReapRead => OnReapRead(s, w)
    case ReapDecide(status) => OnReapDecide(s, w, status)
    case ReapUnref => OnReapUnref(s, w)
    case ReapRelease => OnReapRelease(s, w)
    case ReapEnd => WithReap(s.(el := s.el.(waiters := s.el.waiters - 1)), w, NoReap)
  }

  predicate ReaperEnabled(s: State, a: ReaperAction) {
    match a
    case Collect => s.sole.None?
    case FindSole(i) =>
      s.sole.None? && i < |s.reaper| && Valid(s.el, s.reaper[i])
      && s.el.frames[s.reaper[i]].refs == 1 && s.el.frames[s.reaper[i]].submitted
    case ReaperPoll(status) =>
      s.sole.Some? && Valid(s.el, s.sole.value) && s.sole.value in s.reaper
      && MayPoll(s.el.frames[s.sole.value].fence, s.el.frames[s.sole.value].job, status)
  }

  function ReaperStep(s: State, a: ReaperAction): (t: State)
    requires ReaperEnabled(s, a)
    ensures t.reapA == s.reapA && t.reapB == s.reapB
  {
    match a
    case Collect => s.(reaper := s.reaper + s.incoming, incoming := [])
    case FindSole(i) => s.(sole := Some(s.reaper[i]))
    case ReaperPoll(status) => OnReaperPoll(s, status)
  }

  predicate Enabled(s: State, a: Action) {
    match a
    case Submit(x) => SubmitEnabled(s, x)
    case Transform(x) => TransformEnabled(s, x)
    case Output(x) => OutputEnabled(s, x)
    case Control(x) => ControlEnabled(s, x)
    case Reaping(w, x) => ReapEnabled(s, w, x)
    case Reaper(x) => ReaperEnabled(s, x)
  }

  function Step(s: State, a: Action): State
    requires Enabled(s, a)
  {
    match a
    case Submit(x) => SubmitStep(s, x)
    case Transform(x) => TransformStep(s, x)
    case Output(x) => OutputStep(s, x)
    case Control(x) => ControlStep(s, x)
    case Reaping(w, x) => ReapStep(s, w, x)
    case Reaper(x) => ReaperStep(s, x)
  }

  ghost predicate Run(s: State, actions: seq<Action>, last: State)
    decreases |actions|
  {
    if actions == [] then last == s
    else Enabled(s, actions[0]) && Run(Step(s, actions[0]), actions[1..], last)
  }
}
