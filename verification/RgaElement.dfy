/** The converter's critical sections on the fields they update (gst/rockchiprga/gstrgaconvert.c:1123-1152,
    1268-1444, 1500-1643 and 1840-1923). Each is the function the state machine is made of, and each keeps the
    books: every reference of a record has a holder, and no record is left without an owner before its fence
    is terminal. */
module RgaElement {
  import opened Options
  import opened ImportCache
  import opened RgaFrames
  import opened RgaPipeline
  import opened RgaOwnership

  /** The converter; `frames` are the frame records ever made, named by their number. */
  class RgaConvert {
    const cache: ImportList
    var frames: seq<Frame>
    var pending: Option<nat>
    var ready: Option<nat>
    var quarantine: seq<nat>
    var flushing: bool
    var asyncDisabled: bool
    var customOutput: bool
    var flushGeneration: nat
    var activeWaiters: int
    var activeSubmits: int
    var dropped: nat

    /** References lent to the calls in progress, records handed to the process-lifetime reaper, and the record
        whose submission is in progress. */
    ghost var lent: seq<nat>
    ghost var handed: seq<nat>
    ghost var submitting: Option<nat>

    function View(): Element
      reads this, cache
    {
      Element(frames, pending, ready, quarantine, flushing, asyncDisabled, customOutput, flushGeneration,
              activeWaiters, activeSubmits, dropped, cache.imports)
    }

    /** The books of the state machine, with every reference a call holds in `lent`. */
    ghost function Accounts(): State
      reads this, cache
    {
      AccountsOf(View(), lent, handed, submitting)
    }

    ghost predicate Valid()
      reads this, cache
    {
      Books(Accounts()) && (flushing ==> pending.None? && ready.None?)
    }

    constructor ()
      ensures Valid() && fresh(cache)
      ensures View() == Element([], None, None, [], false, false, false, 0, 0, 0, 0, [])
      ensures lent == [] && handed == [] && submitting == None
    {
      cache := new ImportList();
      frames, pending, ready, quarantine := [], None, None, [];
      flushing, asyncDisabled, customOutput, flushGeneration := false, false, false, 0;
      activeWaiters, activeSubmits, dropped := 0, 0, 0;
      lent, handed, submitting := [], [], None;
    }

    /** gst_rga_frame_ref, by somebody who already has a reference. */
    method FrameRef(f: nat)
      requires Valid() && f < |frames| && frames[f].refs > 0
      modifies this`frames, this`lent
      ensures Valid() && View() == Ref(old(View()), f) && lent == old(lent) + [f]
    {
      ghost var was := Accounts();
      frames := frames[f := frames[f].(refs := frames[f].refs + 1)];
      lent := lent + [f];
      LentBooks(was, Accounts(), f);
    }

    /** gst_rga_import_put on a lease that may be absent. */
    method ImportPut(id: Option<nat>)
      modifies cache
      ensures cache.imports == PutOption(old(cache.imports), id)
    {
      if id.Some? { cache.PutLease(id.value); }
    }

    /** gst_rga_frame_unref with gst_rga_frame_free, by a call that holds a reference. */
    method FrameUnref(f: nat)
      requires Valid() && f in lent && f < |frames| && submitting != Some(f)
      modifies this`frames, this`lent, cache
      ensures Valid() && View() == Unref(old(View()), f) && lent == Removed(old(lent), f)
      ensures NobodyHolds(Accounts(), f) ==>
                frames[f].frees == 1 && !frames[f].input && !frames[f].output
    {
      hide Books, Owners;
      ghost var was := Accounts();
      LentExists(was, f);
      lent := Removed(lent, f);
      var fr := frames[f];
      if fr.refs != 1 {
        frames := frames[f := fr.(refs := fr.refs - 1)];
      } else {
        ImportPut(fr.src);
        ImportPut(fr.dst);
        frames := frames[f := fr.(refs := 0, input := false, output := false,
                                  src := None, dst := None, frees := fr.frees + 1)];
      }
      ReturnedBooks(was, Accounts(), f);
    }

    /** gst_rga_convert_quarantine_locked. */
    method QuarantineLocked()
      modifies this`pending, this`ready, this`quarantine
      ensures old(Books(Accounts())) ==> Valid()
      ensures View() == Quarantined(old(View()))
      ensures multiset(quarantine) == old(multiset(quarantine) + multiset(Listed(ready)) + multiset(Listed(pending)))
    {
      ghost var was := Accounts();
      hide Books;
      if ready.Some? {
        quarantine := quarantine + [ready.value];
        ready := None;
      }
      if pending.Some? {
        quarantine := quarantine + [pending.value];
        pending := None;
      }
      if Books(was) {
        FlushBooks(was);
        SameRefsKeepBooks(OnFlush(was), Accounts());
      }
    }

    /** The section of FLUSH_START and of stop: both slots are empty afterwards, nothing they owned is lost, and
        every submission that began before it can tell. */
    method StartFlush()
      requires Valid()
      modifies this`pending, this`ready, this`quarantine, this`flushing, this`flushGeneration
      ensures Valid() && View() == FlushStarted(old(View()))
      ensures pending.None? && ready.None? && flushing && flushGeneration > old(flushGeneration)
      ensures SameOwners(old(Accounts()), Accounts())
    {
      hide Books, Owners, AccountsOf;
      ghost var was := View();
      FlushSection(was, lent, handed, submitting);
      flushing := true;
      flushGeneration := flushGeneration + 1;
      QuarantineLocked();
    }

    /** The loop of gst_rga_convert_reap over the quarantine: every record is referenced, the newest ends up first. */
    method RefQuarantined() returns (snapshot: seq<nat>)
      requires forall f :: f in quarantine ==> f < |frames|
      modifies this`frames
      ensures frames == RefAll(old(frames), quarantine) && snapshot == Reversed(quarantine)
    {
      hide Reversed, RefAll;
      snapshot := [];
      ghost var was := frames;
      NothingYet(was);
      var i := 0;
      while i < |quarantine|
        invariant 0 <= i <= |quarantine| && |frames| == |was|
        invariant frames == RefAll(was, quarantine[..i]) && snapshot == Reversed(quarantine[..i])
      {
        var f := quarantine[i];
        assert f in quarantine && quarantine[..i + 1] == quarantine[..i] + [f];
        RefOneMore(was, quarantine[..i], f);
        ReversedOneMore(quarantine[..i], f);
        frames := frames[f := frames[f].(refs := frames[f].refs + 1)];
        snapshot := [f] + snapshot;
        i := i + 1;
      }
      assert quarantine[..i] == quarantine;
    }

    /** The first section of gst_rga_convert_reap. */
    method ReapStart() returns (snapshot: seq<nat>)
      requires Valid()
      modifies this`frames, this`activeWaiters, this`lent
      ensures Valid() && View() == ReapStarted(old(View()))
      ensures snapshot == Reversed(quarantine) && lent == old(lent) + quarantine
    {
      hide Books, Owners, AccountsOf, Reversed, RefAll;
      OwnedExist(View(), lent, handed, submitting);
      ReapSection(View(), lent, handed, submitting);
      activeWaiters := activeWaiters + 1;
      snapshot := RefQuarantined();
      lent := lent + quarantine;
    }

    /** The last section of a reap's visit to a record; quarantine's reference becomes the reap's. */
    method ReapDecide(f: nat, status: Status) returns (removed: bool)
      requires Valid() && (status != Pending && f in quarantine ==> f < |frames| && Over(frames[f]))
      modifies this`quarantine, this`lent
      ensures Valid() && View() == ReapDecided(old(View()), f, status)
      ensures removed <==> status != Pending && f in old(quarantine)
      ensures removed ==> f !in quarantine && lent == old(lent) + [f]
      ensures !removed ==> quarantine == old(quarantine) && lent == old(lent)
    {
      ghost var was := Accounts();
      removed := status != Pending && f in quarantine;
      if removed {
        quarantine := Removed(quarantine, f);
        lent := lent + [f];
        UnquarantinedBooks(was, Accounts(), f);
      }
    }

    /** The first section of gst_rga_convert_take_ready. */
    method TakeStart() returns (frame: Option<nat>)
      requires Valid() && (ready.Some? ==> ready.value < |frames|)
      modifies this`frames, this`activeWaiters, this`lent
      ensures Valid() && View() == TakeStarted(old(View())) && frame == ready
      ensures lent == old(lent) + Listed(ready)
    {
      frame := ready;
      if frame.Some? {
        ReadyExists(Accounts());
        FrameRef(frame.value);
        activeWaiters := activeWaiters + 1;
        SameRefsKeepBooks(AccountsOf(View().(waiters := activeWaiters - 1), lent, handed, submitting), Accounts());
      }
    }

    /** The decision of gst_rga_convert_take_ready: unless a flush came, the ready slot's reference goes to quarantine
        after a timeout and to the caller otherwise, and the output leaves its record exactly on success. */
    method TakeDecide(f: nat, status: Status)
      requires Valid() && f < |frames| && submitting.None?
      requires status != Pending ==> Over(frames[f])
      modifies this`frames, this`ready, this`quarantine, this`asyncDisabled, this`dropped, this`lent
      ensures Valid() && View() == TakeDecided(old(View()), f, status)
      ensures old(TakenAway(View(), f)) ==> View() == old(View()) && lent == old(lent)
      ensures !old(TakenAway(View(), f)) ==> ready.None? && lent == old(lent) + (if status == Pending then [] else [f])
      ensures !old(TakenAway(View(), f)) ==> (f in quarantine <==> status == Pending)
      ensures forall g :: 0 <= g < |frames| ==> frames[g].refs == old(frames[g].refs)
    {
      hide Books, Owners, AccountsOf;
      if flushing || ready != Some(f) { return; }
      ReadyIsOwnedOnce(View(), lent, handed, None);
      DecideSection(View(), lent, handed, f, status);
      ready := None;
      match status
      case Pending =>
        asyncDisabled := true;
        quarantine := quarantine + [f];
        dropped := dropped + 1;
        assert lent + [] == lent;
      case Complete =>
        frames := frames[f := frames[f].(output := false)];
        lent := lent + [f];
      case Error =>
        asyncDisabled := true;
        dropped := dropped + 1;
        lent := lent + [f];
    }

    /** The head of the pushing loop of gst_rga_convert_drain_pending: a record is ready exactly if a slot held one,
        the older one if both did, and no record changes owners. */
    method DrainRotate() returns (haveFrame: bool)
      requires Valid()
      modifies this`pending, this`ready
      ensures Valid() && View() == DrainRotated(old(View()))
      ensures haveFrame == old(pending.Some? || ready.Some?) == ready.Some?
      ensures old(ready).Some? ==> ready == old(ready) && pending == old(pending)
      ensures SameOwners(old(Accounts()), Accounts())
    {
      ghost var was := Accounts();
      if ready.None? {
        ready := pending;
        pending := None;
        RotatedBooks(was, Accounts());
      }
      haveFrame := ready.Some?;
    }

    /** The section of submit_input_buffer that makes room. The ready slot has to be empty, as the source asserts:
        whatever it held would lose its owner. */
    method Rotate()
      requires Valid() && ready.None?
      modifies this`pending, this`ready, this`customOutput
      ensures Valid() && View() == Rotated(old(View()))
      ensures pending.None? && ready == old(pending)
      ensures SameOwners(old(Accounts()), Accounts())
    {
      ghost var was := Accounts();
      ready := pending;
      pending := None;
      customOutput := true;
      RotatedBooks(was, Accounts());
    }

    /** The section of transform that publishes the record, unless a flush came first. The caller holds a reference
        of a record that owns both buffers either way, and the pending slot, which has to be free, a second one. */
    method Publish(n: nat, src: Option<nat>, dst: Option<nat>) returns (published: bool)
      requires Valid() && pending.None? && submitting.None?
      modifies this`frames, this`pending, this`lent, this`submitting
      ensures Valid() && View() == Published(old(View()), n, src, dst)
      ensures published == !flushing && lent == old(lent) + [|old(frames)|] && frames[..|old(frames)|] == old(frames)
      ensures var f := |old(frames)|;
              && frames[f].input && frames[f].output
              && Owners(Accounts(), f) == (if published then 1 else 0)
              && submitting == if published then Some(f) else None
    {
      hide Books, Owners, AccountsOf;
      PublishSection(View(), lent, handed, n, src, dst);
      var frame := NewFrame(n, true, src, dst);
      ghost var f := |frames|;
      published := !flushing;
      if flushing {
        frames := frames + [frame];
      } else {
        pending := Some(|frames|);
        frames := frames + [frame.(submitted := false, refs := 2)];
        submitting := Some(f);
      }
      lent := lent + [f];
      assert frames[..f] == old(frames);
    }

    /** The section after the submission returned. A refused record is in no slot afterwards; a record whose
        submission succeeded stays where it is. */
    method EndSubmission(f: nat, fence: Fence, ok: bool)
      requires Valid() && submitting == Some(f) && f < |frames| && !frames[f].submitted
      requires fence.NoFence? ==> frames[f].job.NotTaken?
      requires fence.SyncFile? ==> !frames[f].job.NotTaken?
      requires ready != Some(f)
      modifies this`frames, this`pending, this`quarantine, this`asyncDisabled, this`submitting
      ensures Valid() && View() == SubmissionEnded(old(View()), f, fence, ok)
      ensures submitting.None? && frames[f].submitted && frames[f].fence == fence
      ensures SameOwners(old(Accounts()), Accounts())
      ensures ok ==> pending == old(pending) && quarantine == old(quarantine)
      ensures !ok ==> pending != Some(f) && ready != Some(f)
    {
      hide Books, Owners, AccountsOf;
      SubmittedSection(View(), lent, handed, f, fence, ok);
      frames := frames[f := frames[f].(fence := fence, submitted := true)];
      if !ok {
        if pending == Some(f) {
          pending := None;
          quarantine := quarantine + [f];
        }
        asyncDisabled := true;
      }
      submitting := None;
    }

    /** The hardware's part while the submission has not returned. */
    method HardwareTook(f: nat, job: Job)
      requires Valid() && submitting == Some(f) && f < |frames| && !frames[f].submitted
      modifies this`frames
      ensures Valid() && View() == old(View()).(frames := old(frames)[f := old(frames)[f].(job := job)])
    {
      ghost var was := Accounts();
      frames := frames[f := frames[f].(job := job)];
      TakenBooks(was, Accounts(), f, job);
    }

    /** The last section of a submit; after a lost device only leased imports are left, and none can be hit. */
    method CloseSubmit(lost: bool)
      requires Valid()
      modifies this`activeSubmits, cache
      ensures Valid() && View() == SubmitClosed(old(View()), lost)
      ensures lost ==> forall e :: e in cache.imports ==> e.retired && !Idle(e)
      ensures !lost ==> cache.imports == old(cache.imports)
    {
      ghost var was := Accounts();
      if lost {
        ClearedAreRetired(cache.imports);
        var _ := cache.ClearLocked();
      }
      activeSubmits := activeSubmits - 1;
      SameRefsKeepBooks(was, Accounts());
    }

    /** The asynchronous half of transform as a whole, when nobody else comes in between: afterwards the new record is
        the pending slot's alone with both its buffers, or quarantine's alone after a failure, or freed after a flush,
        and the call holds no reference any more. */
    method SubmitAsync(n: nat, src: Option<nat>, dst: Option<nat>, job: Job, fence: Fence, ok: bool, lost: bool)
      requires Valid() && pending.None? && submitting.None? && (ready.Some? ==> ready.value < |frames|)
      requires (fence.NoFence? ==> job.NotTaken?) && (fence.SyncFile? ==> !job.NotTaken?)
      modifies this, cache
      ensures Valid() && submitting.None? && lent == old(lent) && |frames| == |old(frames)| + 1
      ensures ready == old(ready) && activeSubmits == old(activeSubmits) - 1
      ensures var f := |old(frames)|;
              if old(flushing) then
                frames[f].frees == 1 && !frames[f].input && !frames[f].output && quarantine == old(quarantine)
              else
                && frames[f].refs == 1 && frames[f].frees == 0 && frames[f].input && frames[f].output
                && (if ok then pending == Some(f) && quarantine == old(quarantine)
                    else pending.None? && quarantine == old(quarantine) + [f])
    {
      hide Books, Owners, Removed;
      var f := |frames|;
      NotLent(Accounts(), f);
      RemovedAgain(lent, f);
      var published := Publish(n, src, dst);
      if published { Submission(f, job, fence, ok); }
      FrameUnref(f);
      CloseSubmit(lost);
    }

    /** The submission between publishing and closing. */
    method Submission(f: nat, job: Job, fence: Fence, ok: bool)
      requires Valid() && submitting == Some(f) && f < |frames| && !frames[f].submitted && ready != Some(f)
      requires (fence.NoFence? ==> job.NotTaken?) && (fence.SyncFile? ==> !job.NotTaken?)
      modifies this`frames, this`pending, this`quarantine, this`asyncDisabled, this`submitting
      ensures Valid() && submitting.None? && |frames| == |old(frames)|
      ensures frames[f] == old(frames)[f].(job := job, fence := fence, submitted := true)
      ensures if ok || old(pending) != Some(f) then pending == old(pending) && quarantine == old(quarantine)
              else pending.None? && quarantine == old(quarantine) + [f]
    {
      hide Books, Owners, AccountsOf;
      HardwareTook(f, job);
      EndSubmission(f, fence, ok);
    }

    /** The section of submit_input_buffer after a transform that ran synchronously: either a new record, complete
        from the start, owns the output and is pending, or nothing changes. */
    method Place(n: nat)
      requires Valid()
      modifies this`frames, this`pending
      ensures Valid() && View() == Placed(old(View()), n)
      ensures if old(pending).None? && !flushing then
                && |frames| == |old(frames)| + 1 && pending == Some(|old(frames)|)
                && Over(frames[|old(frames)|]) && frames[|old(frames)|].refs == 1 && frames[|old(frames)|].output
              else View() == old(View())
    {
      ghost var was := Accounts();
      if pending.None? && !flushing {
        pending := Some(|frames|);
        frames := frames + [NewFrame(n, false, None, None)];
        PlacedBooks(was, Accounts(), n);
      }
    }

    /** gst_rga_convert_start: refused while a call is counted, otherwise a flush is over and the asynchronous path
        open again; records and slots stay as they are. */
    method Start() returns (ok: bool)
      requires Valid()
      modifies this`flushing, this`asyncDisabled, this`customOutput
      ensures Valid() && ok == CanStart(old(View()))
      ensures View() == if ok then Started(old(View())) else old(View())
    {
      ghost var was := Accounts();
      if activeWaiters != 0 || activeSubmits != 0 { return false; }
      flushing := false;
      asyncDisabled := false;
      customOutput := false;
      ok := true;
      SameRefsKeepBooks(was, Accounts());
    }

    /** The end of one round of gst_rga_convert_stop; a late one hands exactly the quarantine to the reaper. */
    method StopRound(late: bool) returns (done: bool, escaped: seq<nat>)
      requires Valid()
      modifies this`quarantine, this`handed, cache
      ensures Valid() && View() == StopChecked(old(View()), late)
      ensures done == (StopEmpty(old(View())) || late) && (done ==> quarantine == [])
      ensures escaped == (if done then old(quarantine) else []) && handed == old(handed) + escaped
      ensures SameOwners(old(Accounts()), Accounts())
    {
      hide Books, Owners, AccountsOf;
      StopSection(View(), lent, handed, submitting, late);
      escaped := [];
      var empty := quarantine == [] && activeWaiters == 0 && activeSubmits == 0;
      if empty {
        var _ := cache.ClearLocked();
      } else if late {
        escaped := quarantine;
        quarantine := [];
        var _ := cache.ClearLocked();
      }
      done := empty || late;
      handed := handed + escaped;
    }
  }

  ghost function AccountsOf(el: Element, lent: seq<nat>, handed: seq<nat>, submitting: Option<nat>): State {
    Initial(true).(el := el, held := lent, reaper := handed,
                   pc := if submitting.Some? then Submitting(submitting.value, 0) else Resting)
  }

  /** Every record has as many owners as before. */
  ghost predicate SameOwners(s: State, t: State) {
    forall f: nat :: Owners(t, f) == Owners(s, f)
  }

  // ---- what each section does to the books

  /** A flush turns the slots' references into quarantine's. */
  lemma FlushSection(el: Element, lent: seq<nat>, handed: seq<nat>, submitting: Option<nat>)
    requires Books(AccountsOf(el, lent, handed, submitting))
    ensures var s, t := AccountsOf(el, lent, handed, submitting),
                        AccountsOf(FlushStarted(el), lent, handed, submitting);
            Books(t) && SameOwners(s, t)
  {
    var s, t := AccountsOf(el, lent, handed, submitting), AccountsOf(FlushStarted(el), lent, handed, submitting);
    FlushBooks(s);
    SameRefsKeepBooks(OnFlush(s), t);
    forall f: nat ensures Owners(t, f) == Owners(s, f) { assert Entry(s, f); }
  }

  lemma OwnedExist(el: Element, lent: seq<nat>, handed: seq<nat>, submitting: Option<nat>)
    requires Books(AccountsOf(el, lent, handed, submitting))
    ensures forall f :: f in el.quarantine ==> f < |el.frames|
  {
    forall f | f in el.quarantine ensures f < |el.frames| { assert Entry(AccountsOf(el, lent, handed, submitting), f); }
  }

  lemma ReadyExists(s: State)
    requires Books(s)
    ensures s.el.ready.Some? ==> s.el.ready.value < |s.el.frames| && s.el.frames[s.el.ready.value].refs > 0
  {
    if s.el.ready.Some? { assert Entry(s, s.el.ready.value); }
  }

  /** The ready slot's reference goes to quarantine or to the caller. */
  lemma DecideSection(el: Element, lent: seq<nat>, handed: seq<nat>, f: nat, status: Status)
    requires Books(AccountsOf(el, lent, handed, None)) && f < |el.frames| && !TakenAway(el, f)
    requires status != Pending ==> Over(el.frames[f])
    ensures Books(AccountsOf(TakeDecided(el, f, status), lent + if status == Pending then [] else [f], handed, None))
  {
    var s := AccountsOf(el, lent, handed, None);
    var t := AccountsOf(TakeDecided(el, f, status), lent + if status == Pending then [] else [f], handed, None);
    if status == Pending { QuarantineReadyBooks(s, t); } else { ReleaseReadyBooks(s, t); }
  }

  lemma ReadyIsOwnedOnce(el: Element, lent: seq<nat>, handed: seq<nat>, submitting: Option<nat>)
    requires Books(AccountsOf(el, lent, handed, submitting)) && el.ready.Some?
    ensures el.ready.value !in el.quarantine
  {
    assert Entry(AccountsOf(el, lent, handed, submitting), el.ready.value);
  }

  lemma LentExists(s: State, f: nat)
    requires Books(s) && f in s.held
    ensures f < |s.el.frames| && s.el.frames[f].refs > 0
  {
    assert Entry(s, f);
  }

  lemma LentBooks(s: State, t: State, f: nat)
    requires Books(s) && f < |s.el.frames| && s.el.frames[f].refs > 0
    requires SameRefs(s.(el := s.el.(frames := s.el.frames[f := s.el.frames[f].(refs := s.el.frames[f].refs + 1)]),
                         held := s.held + [f]), t) && t.pc == s.pc
    ensures Books(t)
  {
    forall g: nat ensures Entry(t, g) { assert Entry(s, g); }
  }

  lemma ReturnedBooks(s: State, t: State, f: nat)
    requires Books(s) && f in s.held && f < |s.el.frames| && !(s.pc.Submitting? && s.pc.f == f)
    requires s.reapA.NoReap? && s.reapB.NoReap? && s.stop.NotStopping? && s.incoming == []
    requires SameRefs(s.(el := Unref(s.el, f), held := Removed(s.held, f)), t) && t.pc == s.pc
    ensures Books(t)
    ensures NobodyHolds(t, f) ==> s.el.frames[f].refs == 1 && s.el.frames[f].frees == 0
  {
    LastReturned(s, t, f);
    forall g: nat ensures Entry(t, g) {
      assert Entry(s, g);
      assert Entry(s, f);
      UnrefEntry(s, t, f, g);
    }
  }

  lemma TakenBooks(s: State, t: State, f: nat, job: Job)
    requires Books(s) && s.pc.Submitting? && f < |s.el.frames| && !s.el.frames[f].submitted && t.pc == s.pc
    requires SameRefs(s.(el := s.el.(frames := s.el.frames[f := s.el.frames[f].(job := job)])), t)
    ensures Books(t)
  {
    forall g: nat ensures Entry(t, g) { assert Entry(s, g); }
  }

  lemma NotLent(s: State, f: nat)
    requires Books(s) && f >= |s.el.frames|
    ensures f !in s.held && f !in s.el.quarantine && f !in s.reaper && s.el.ready != Some(f)
  {
    assert Entry(s, f);
  }

  lemma {:induction false} RemovedAgain(q: seq<nat>, f: nat)
    requires f !in q
    ensures Removed(q + [f], f) == q
  {
    assert IndexOf(q + [f], f) == |q|;
  }

  /** No owner is left, and no call in progress. */
  predicate NobodyHolds(s: State, f: nat) {
    f !in s.held && f !in s.el.quarantine && f !in s.reaper && s.el.pending != Some(f) && s.el.ready != Some(f)
  }

  lemma LastReturned(s: State, t: State, f: nat)
    requires Books(s) && f in s.held && f < |s.el.frames|
    requires s.reapA.NoReap? && s.reapB.NoReap? && s.stop.NotStopping? && s.incoming == []
    requires SameRefs(s.(el := Unref(s.el, f), held := Removed(s.held, f)), t)
    ensures NobodyHolds(t, f) ==> s.el.frames[f].refs == 1 && s.el.frames[f].frees == 0
  {
    assert Entry(s, f);
    if NobodyHolds(t, f) {
      assert multiset(t.held)[f] == 0;
      assert Locals(s, f) == 1 && Owners(s, f) == 0;
    }
  }

  lemma ReapSection(el: Element, lent: seq<nat>, handed: seq<nat>, submitting: Option<nat>)
    requires Books(AccountsOf(el, lent, handed, submitting))
    ensures Books(AccountsOf(ReapStarted(el), lent + el.quarantine, handed, submitting))
  {
    var s, t := AccountsOf(el, lent, handed, submitting),
                AccountsOf(ReapStarted(el), lent + el.quarantine, handed, submitting);
    forall g: nat ensures Entry(t, g) { assert Entry(s, g); }
  }

  lemma UnquarantinedBooks(s: State, t: State, f: nat)
    requires Books(s) && f in s.el.quarantine && f < |s.el.frames| && Over(s.el.frames[f]) && t.pc == s.pc
    requires SameRefs(s.(el := s.el.(quarantine := Removed(s.el.quarantine, f)), held := s.held + [f]), t)
    ensures Books(t) && f !in t.el.quarantine
  {
    assert Entry(s, f);
    forall g: nat ensures Entry(t, g) { assert Entry(s, g); }
  }

  lemma RotatedBooks(s: State, t: State)
    requires Books(s) && s.el.ready.None? && t.pc == s.pc
    requires SameRefs(s.(el := s.el.(ready := s.el.pending, pending := None)), t)
    ensures Books(t) && SameOwners(s, t)
  {
    forall g: nat ensures Entry(t, g) { assert Entry(s, g); }
  }

  /** The caller and, unless a flush came first, the pending slot share the new record. */
  lemma PublishSection(el: Element, lent: seq<nat>, handed: seq<nat>, n: nat, src: Option<nat>, dst: Option<nat>)
    requires Books(AccountsOf(el, lent, handed, None)) && el.pending.None?
    ensures var f := |el.frames|;
            var t := AccountsOf(Published(el, n, src, dst), lent + [f], handed, if el.flushing then None else Some(f));
            Books(t) && Owners(t, f) == if el.flushing then 0 else 1
  {
    var f, s := |el.frames|, AccountsOf(el, lent, handed, None);
    var t := AccountsOf(Published(el, n, src, dst), lent + [f], handed, if el.flushing then None else Some(f));
    forall g: nat ensures Entry(t, g) { assert Entry(s, g); }
    assert Entry(s, f) && Entry(t, f);
  }

  /** A refused record goes from the pending slot to quarantine. */
  lemma SubmittedSection(el: Element, lent: seq<nat>, handed: seq<nat>, f: nat, fence: Fence, ok: bool)
    requires Books(AccountsOf(el, lent, handed, Some(f))) && f < |el.frames| && !el.frames[f].submitted
    requires fence.NoFence? ==> el.frames[f].job.NotTaken?
    requires fence.SyncFile? ==> !el.frames[f].job.NotTaken?
    ensures var s, t := AccountsOf(el, lent, handed, Some(f)),
                        AccountsOf(SubmissionEnded(el, f, fence, ok), lent, handed, None);
            Books(t) && SameOwners(s, t)
  {
    var s, t := AccountsOf(el, lent, handed, Some(f)),
                AccountsOf(SubmissionEnded(el, f, fence, ok), lent, handed, None);
    assert Entry(s, f);
    forall g: nat ensures Entry(t, g) && Owners(t, g) == Owners(s, g) { assert Entry(s, g); }
  }

  lemma PlacedBooks(s: State, t: State, n: nat)
    requires Books(s) && s.el.pending.None? && t.pc == s.pc
    requires SameRefs(s.(el := s.el.(frames := s.el.frames + [NewFrame(n, false, None, None)],
                                     pending := Some(|s.el.frames|))), t)
    ensures Books(t)
  {
    forall g: nat ensures Entry(t, g) { assert Entry(s, g); }
  }

  /** What the end of a round hands to the reaper. */
  function Escapes(el: Element, late: bool): seq<nat> {
    if !StopEmpty(el) && late then el.quarantine else []
  }

  lemma StopSection(el: Element, lent: seq<nat>, handed: seq<nat>, submitting: Option<nat>, late: bool)
    requires Books(AccountsOf(el, lent, handed, submitting))
    ensures var s, t := AccountsOf(el, lent, handed, submitting),
                        AccountsOf(StopChecked(el, late), lent, handed + Escapes(el, late), submitting);
            Books(t) && SameOwners(s, t)
  {
    var s, t := AccountsOf(el, lent, handed, submitting),
                AccountsOf(StopChecked(el, late), lent, handed + Escapes(el, late), submitting);
    forall g: nat ensures Entry(t, g) && Owners(t, g) == Owners(s, g) { assert Entry(s, g); }
  }

  lemma {:induction false} ClearedAreRetired(s: seq<Import>)
    ensures forall e :: e in Cleared(s) ==> e.retired && !Idle(e)
  {
    if s != [] { ClearedAreRetired(s[1..]); }
  }

  lemma NothingYet(frames: seq<Frame>)
    ensures RefAll(frames, []) == frames && Reversed([]) == []
  {}

  lemma RefOneMore(frames: seq<Frame>, q: seq<nat>, f: nat)
    requires f < |frames|
    ensures var r := RefAll(frames, q);
            RefAll(frames, q + [f]) == r[f := r[f].(refs := r[f].refs + 1)]
  {
    assert forall g: nat :: multiset(q + [f])[g] == multiset(q)[g] + if g == f then 1 else 0;
  }

  lemma {:induction false} ReversedOneMore(q: seq<nat>, f: nat)
    ensures Reversed(q + [f]) == [f] + Reversed(q)
    decreases |q|
  {
    if q == [] {
      assert [] + [f] == [f] && [f][1..] == [];
      assert Reversed([f]) == Reversed([]) + [f];
    } else {
      ReversedOneMore(q[1..], f);
      assert (q + [f])[1..] == q[1..] + [f];
      assert [f] + (Reversed(q[1..]) + [q[0]]) == ([f] + Reversed(q[1..])) + [q[0]];
    }
  }
}
