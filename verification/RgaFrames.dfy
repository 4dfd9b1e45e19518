/** Frame records and the lock-protected state of the asynchronous converter
    (gst/rockchiprga/gstrgaconvert.c:96-160 and 1108-1643), one function per critical section. */
module RgaFrames {
  import opened Options
  import opened ImportCache

  /** The descriptor a submission returned: -1, -2 (GST_MPP_RGA_FENCE_MISSING) or a sync file. */
  datatype Fence = NoFence | Missing | SyncFile

  /** What the hardware has done with the job of a frame; nothing in the element can read it directly. */
  datatype Job = NotTaken | Running | Completed | Failed

  /** gst_mpp_rga_fence_status. */
  datatype Status = Pending | Complete | Error

  /** A reference counted record of one conversion. `n` numbers the input buffer it was made for,
      `input` and `output` say whether it still holds the two buffers, `frees` counts destructions. */
  datatype Frame = Frame(refs: int, n: nat, input: bool, output: bool, fence: Fence, submitted: bool,
                         src: Option<nat>, dst: Option<nat>, job: Job, frees: nat)

  datatype Element = Element(frames: seq<Frame>, pending: Option<nat>, ready: Option<nat>, quarantine: seq<nat>,
                             flushing: bool, disabled: bool, custom: bool, generation: nat,
                             waiters: int, submits: int, dropped: nat, imports: seq<Import>)

  /** A poll of a fence may always answer PENDING (an interrupted or failed query does);
      it answers COMPLETE or ERROR only for no fence at all or for a job that is over. */
  predicate MayPoll(fence: Fence, job: Job, status: Status) {
    match status
    case Pending => fence != NoFence
    case Complete => fence == NoFence || (fence == SyncFile && job == Completed)
    case Error => fence == SyncFile && job == Failed
  }

  /** gst_rga_frame_new. */
  function NewFrame(n: nat, withInput: bool, src: Option<nat>, dst: Option<nat>): Frame {
    Frame(1, n, withInput, true, NoFence, true, src, dst, NotTaken, 0)
  }

  /** Everything but the records, the counters and the imports. */
  predicate SameSlots(a: Element, b: Element) {
    && a.pending == b.pending && a.ready == b.ready && a.quarantine == b.quarantine
    && a.flushing == b.flushing && a.disabled == b.disabled && a.custom == b.custom && a.generation == b.generation
  }

  /** Same submissions: only references and buffers differ. */
  predicate SameJobs(a: seq<Frame>, b: seq<Frame>) {
    |a| == |b| && forall f :: 0 <= f < |a| ==> SameJob(a[f], b[f])
  }

  predicate SameJob(a: Frame, b: Frame) {
    a.n == b.n && a.fence == b.fence && a.submitted == b.submitted && a.job == b.job
  }

  function Ref(el: Element, f: nat): (r: Element)
    requires f < |el.frames|
    ensures SameSlots(el, r) && SameJobs(el.frames, r.frames)
  {
    el.(frames := el.frames[f := el.frames[f].(refs := el.frames[f].refs + 1)])
  }

  function PutOption(imports: seq<Import>, id: Option<nat>): seq<Import> {
    if id.Some? then Put(imports, id.value) else imports
  }

  /** gst_rga_frame_unref: the last reference closes the fence, drops the leases and both buffers. */
  function Unref(el: Element, f: nat): (r: Element)
    requires f < |el.frames|
    ensures SameSlots(el, r) && SameJobs(el.frames, r.frames)
  {
    var fr := el.frames[f];
    if fr.refs != 1 then el.(frames := el.frames[f := fr.(refs := fr.refs - 1)])
    else el.(frames := el.frames[f := fr.(refs := 0, input := false, output := false,
                                          src := None, dst := None, frees := fr.frees + 1)],
             imports := PutOption(PutOption(el.imports, fr.src), fr.dst))
  }

  function Listed(slot: Option<nat>): seq<nat> {
    if slot.Some? then [slot.value] else []
  }

  /** gst_rga_convert_quarantine_locked: ready first, then pending. */
  function Quarantined(el: Element): Element {
    el.(quarantine := el.quarantine + Listed(el.ready) + Listed(el.pending), ready := None, pending := None)
  }

  /** First section of FLUSH_START and of stop. */
  function FlushStarted(el: Element): Element {
    Quarantined(el.(flushing := true, generation := el.generation + 1))
  }

  function RefAll(frames: seq<Frame>, q: seq<nat>): (r: seq<Frame>)
    ensures |r| == |frames|
    ensures forall f :: 0 <= f < |r| ==> r[f] == frames[f].(refs := frames[f].refs + multiset(q)[f])
  {
    seq(|frames|, f requires 0 <= f < |frames| => frames[f].(refs := frames[f].refs + multiset(q)[f]))
  }

  function Reversed(q: seq<nat>): (r: seq<nat>)
    ensures multiset(r) == multiset(q)
  {
    if q == [] then [] else
      assert q == [q[0]] + q[1..];
      Reversed(q[1..]) + [q[0]]
  }

  /** First section of a reap: every quarantined record is referenced; the snapshot is built by prepending. */
  function ReapStarted(el: Element): (r: Element)
    ensures SameSlots(el, r) && SameJobs(el.frames, r.frames)
  {
    el.(waiters := el.waiters + 1, frames := RefAll(el.frames, el.quarantine))
  }

  function IndexOf(q: seq<nat>, f: nat): (i: nat)
    ensures i <= |q|
    ensures i < |q| ==> q[i] == f
    ensures i == |q| <==> f !in q
  {
    if q == [] then 0 else if q[0] == f then 0 else 1 + IndexOf(q[1..], f)
  }

  /** g_list_remove. */
  function Removed(q: seq<nat>, f: nat): (r: seq<nat>)
    requires f in q
    ensures multiset(r) == multiset(q) - multiset{f}
  {
    var i := IndexOf(q, f);
    assert q == q[..i] + [q[i]] + q[i + 1..];
    q[..i] + q[i + 1..]
  }

  /** Last section of a reap's visit: a record seen terminal leaves quarantine, if it is still there. */
  function ReapDecided(el: Element, f: nat, status: Status): (r: Element)
    ensures r == el.(quarantine := r.quarantine) && SameJobs(el.frames, r.frames)
    ensures f in el.quarantine && status != Pending ==> multiset(r.quarantine) == multiset(el.quarantine) - multiset{f}
    ensures f !in el.quarantine || status == Pending ==> r == el
  {
    if status != Pending && f in el.quarantine then el.(quarantine := Removed(el.quarantine, f)) else el
  }

  /** gst_rga_convert_take_ready, first section. */
  function TakeStarted(el: Element): Element
    requires el.ready.Some? ==> el.ready.value < |el.frames|
  {
    if el.ready.Some? then Ref(el.(waiters := el.waiters + 1), el.ready.value) else el
  }

  /** Both the poll loop and the decision give up when a flush took the record away. */
  predicate TakenAway(el: Element, f: nat) {
    el.flushing || el.ready != Some(f)
  }

  /** take_ready, decision: a timed-out record is quarantined and counted, a failed one counted,
      a completed one gives its output away. */
  function TakeDecided(el: Element, f: nat, status: Status): (r: Element)
    requires f < |el.frames|
    ensures SameJobs(el.frames, r.frames)
    ensures forall g :: 0 <= g < |el.frames| ==> r.frames[g].refs == el.frames[g].refs
  {
    if TakenAway(el, f) then el
    else
      match status
      case Pending =>
        el.(ready := None, disabled := true, quarantine := el.quarantine + [f], dropped := el.dropped + 1)
      case Complete => el.(ready := None, frames := el.frames[f := el.frames[f].(output := false)])
      case Error => el.(ready := None, disabled := true, dropped := el.dropped + 1)
  }

  /** gst_rga_convert_drain_pending, head of the pushing loop. */
  function DrainRotated(el: Element): Element {
    if el.ready.None? then el.(ready := el.pending, pending := None) else el
  }

  /** submit_input_buffer, first section; `capable` is async-depth > 0 and improcessOpt present. */
  function SubmitGuarded(el: Element): Element { el.(custom := false) }

  predicate AsyncEnabled(el: Element, capable: bool) { capable && !el.disabled }

  /** submit_input_buffer, second section. */
  function Rotated(el: Element): Element {
    el.(ready := el.pending, pending := None, custom := true)
  }

  /** The asynchronous half of transform: the record is created, then published unless a flush came first. */
  function Published(el: Element, n: nat, src: Option<nat>, dst: Option<nat>): Element {
    var fr := NewFrame(n, true, src, dst);
    var f := |el.frames|;
    if el.flushing then el.(frames := el.frames + [fr])
    else el.(frames := el.frames + [fr.(submitted := false, refs := 2)], pending := Some(f))
  }

  /** The section after the submission returned. */
  function SubmissionEnded(el: Element, f: nat, fence: Fence, ok: bool): Element
    requires f < |el.frames|
  {
    var e := el.(frames := el.frames[f := el.frames[f].(fence := fence, submitted := true)]);
    if ok then e
    else if e.pending == Some(f) then
      e.(pending := None, quarantine := e.quarantine + [f], disabled := true)
    else e.(disabled := true)
  }

  /** Last section of a submit; a lost device invalidates every import. */
  function SubmitClosed(el: Element, lost: bool): Element {
    el.(submits := el.submits - 1, imports := if lost then Cleared(el.imports) else el.imports)
  }

  /** submit_input_buffer, after a transform that ran synchronously: its output enters the pipeline as done. */
  function Placed(el: Element, n: nat): Element {
    if el.pending.None? && !el.flushing
    then el.(frames := el.frames + [NewFrame(n, false, None, None)], pending := Some(|el.frames|))
    else el
  }

  /** gst_rga_convert_start. */
  predicate CanStart(el: Element) { el.waiters == 0 && el.submits == 0 }

  function Started(el: Element): Element {
    el.(flushing := false, disabled := false, custom := false)
  }

  /** stop, end of one round. */
  predicate StopEmpty(el: Element) {
    el.quarantine == [] && el.waiters == 0 && el.submits == 0
  }

  function StopChecked(el: Element, late: bool): Element {
    if StopEmpty(el) then el.(imports := Cleared(el.imports))
    else if late then el.(quarantine := [], imports := Cleared(el.imports))
    else el
  }
}
