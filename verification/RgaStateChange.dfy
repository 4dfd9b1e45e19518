/** The one interleaving in which an output is pushed too early: leaving PAUSED or READY drains without announcing
    a flush (gst/rockchiprga/gstrgaconvert.c:2097-2117), so a submission in progress does not notice that its
    record is gone (1526-1531) and wraps the same output a second time, as if nothing had ever been written to it. */
module RgaStateChange {
  import opened Options
  import opened ImportCache
  import opened RgaFrames
  import opened RgaPipeline
  import opened RgaOwnership
  import opened DeliveryLedger
  import opened RgaDelivery
  import opened RgaTerminal

  lemma {:induction false} OneMore(s: State, actions: seq<Action>, t: State, a: Action)
    requires Run(s, actions, t) && Enabled(t, a)
    ensures Run(s, actions + [a], Step(t, a))
    decreases |actions|
  {
    hide Step, Enabled;
    if actions != [] {
      OneMore(Step(s, actions[0]), actions[1..], t, a);
      assert (actions + [a])[1..] == actions[1..] + [a];
    } else {
      assert ([] + [a])[1..] == [];
    }
  }

  lemma {:induction false} Joined(s: State, x: seq<Action>, t: State, y: seq<Action>, u: State)
    requires Run(s, x, t) && Run(t, y, u)
    ensures Run(s, x + y, u)
    decreases |x|
  {
    hide Step, Enabled;
    if x == [] {
      assert x + y == y;
    } else {
      Joined(Step(s, x[0]), x[1..], t, y, u);
      assert (x + y)[1..] == x[1..] + y;
    }
  }

  lemma One(s: State, a: Action)
    requires Enabled(s, a)
    ensures Run(s, [a], Step(s, a))
  {
    assert [a][1..] == [] && Run(Step(s, a), [], Step(s, a));
  }

  /** No state change drains. */
  predicate DrainFree(actions: seq<Action>) {
    forall i :: 0 <= i < |actions| ==> actions[i] != Control(StateChangeDrain)
  }

  lemma {:induction false} DrainFreeIsSafe(s: State, actions: seq<Action>)
    requires DrainFree(actions)
    ensures SafeRun(s, actions)
    decreases |actions|
  {
    hide Step, Enabled;
    if actions != [] && Enabled(s, actions[0]) {
      DrainFreeIsSafe(Step(s, actions[0]), actions[1..]);
    }
  }

  /** The record of the current input is in no slot, and its job still runs. */
  predicate Astray(s: State, f: nat) {
    && Chaining(s) && Valid(s.el, f) && s.el.frames[f].n == Current(s) && s.el.frames[f].job.Running?
    && !s.el.flushing && s.el.custom && s.el.pending.None? && s.el.ready.None?
  }

  /** The submission succeeds while the job runs. */
  lemma AfterTakenOver(s: State, f: nat) returns (actions: seq<Action>, t: State)
    requires Astray(s, f) && s.pc == Submitting(f, s.el.generation)
    ensures DrainFree(actions) && Run(s, actions, t) && t.pc == Submitted(f, true, false, false) && Astray(t, f)
  {
    var a := Transform(SubmitReturns(SyncFile, true, false));
    One(s, a);
    actions, t := [a], Step(s, a);
  }

  lemma AfterSubmitting(s: State, f: nat) returns (actions: seq<Action>, t: State)
    requires Chaining(s) && Valid(s.el, f) && s.el.frames[f].n == Current(s) && !Ended(s.el.frames[f].job)
    requires !s.el.flushing && s.el.custom && s.el.pending.None? && s.el.ready.None?
    requires s.pc == Submitting(f, s.el.generation)
    ensures DrainFree(actions) && Run(s, actions, t) && t.pc == Submitted(f, true, false, false) && Astray(t, f)
  {
    if s.el.frames[f].job.NotTaken? {
      var a := Transform(HardwareTakes);
      One(s, a);
      var u := Step(s, a);
      assert Astray(u, f) && u.pc == s.pc;
      var x, v := AfterTakenOver(u, f);
      Joined(s, [a], u, x, v);
      actions, t := [a] + x, v;
    } else {
      actions, t := AfterTakenOver(s, f);
    }
  }

  lemma AfterSubmitted(s: State, f: nat) returns (actions: seq<Action>, t: State)
    requires s.pc.Submitted? && s.pc.ok && !s.pc.flushed && s.pc.f == f && Astray(s, f)
    ensures DrainFree(actions) && Run(s, actions, t) && t.pc.Finishing? && t.pc.ok && !t.pc.flushed && Astray(t, f)
  {
    One(s, Transform(DropSubmitted));
    actions, t := [Transform(DropSubmitted)], Step(s, Transform(DropSubmitted));
    assert SameJob(s.el.frames[f], t.el.frames[f]);
  }

  lemma AfterFinishing(s: State, f: nat) returns (actions: seq<Action>, t: State)
    requires s.pc.Finishing? && s.pc.ok && !s.pc.flushed && Astray(s, f)
    ensures DrainFree(actions) && Run(s, actions, t) && t.pc.Placing? && Astray(t, f)
  {
    One(s, Transform(Close));
    actions, t := [Transform(Close)], Step(s, Transform(Close));
  }

  /** The output is wrapped again, by a record that has no fence, and the chain call answers OK. */
  lemma AfterPlacing(s: State, f: nat) returns (actions: seq<Action>, t: State)
    requires s.pc.Placing? && Astray(s, f)
    ensures DrainFree(actions) && Run(s, actions, t) && t.pc.Resting? && Chaining(t)
    ensures var g := |s.el.frames|;
            && t.el.frames == s.el.frames + [NewFrame(Current(s), false, None, None)]
            && t.el.pending == Some(g) && t.el.ready.None? && !t.el.flushing && Current(t) == Current(s)
  {
    var u := Step(s, Submit(Place));
    One(s, Submit(Place));
    var v := Step(u, Output(Generate));
    OneMore(s, [Submit(Place)], u, Output(Generate));
    assert v.pc == Taking(Chain) && v.el.ready.None?;
    OneMore(s, [Submit(Place)] + [Output(Generate)], v, Output(Take));
    actions, t := [Submit(Place)] + [Output(Generate)] + [Output(Take)], Step(v, Output(Take));
  }

  lemma JobsStay(a: seq<Frame>, b: seq<Frame>, c: seq<Frame>)
    requires SameJobs(a, b) && SameJobs(b, c)
    ensures SameJobs(a, c)
  {
    assert forall h :: 0 <= h < |a| ==> SameJob(a[h], b[h]) && SameJob(b[h], c[h]);
  }

  lemma AfterEvent(s: State, g: nat) returns (actions: seq<Action>, t: State)
    requires s.pc.Resting? && s.el.pending == Some(g) && s.el.ready.None?
    ensures DrainFree(actions) && Run(s, actions, t) && t.pc == Taking(EventDrain) && t.el.ready == Some(g)
    ensures t.el.frames == s.el.frames && t.el.flushing == s.el.flushing && t.fates == s.fates && t.held == s.held
  {
    var u := Step(s, Control(Event));
    One(s, Control(Event));
    OneMore(s, [Control(Event)], u, Output(DrainHead));
    actions, t := [Control(Event)] + [Output(DrainHead)], Step(u, Output(DrainHead));
  }

  /** The next serialized event drains the pipeline. */
  lemma AfterResting(s: State, g: nat) returns (actions: seq<Action>, t: State)
    requires s.pc.Resting? && Chaining(s) && s.el.pending == Some(g) && s.el.ready.None? && !s.el.flushing
    requires Valid(s.el, g) && s.el.frames[g] == NewFrame(Current(s), false, None, None)
    ensures DrainFree(actions) && Run(s, actions, t)
    ensures t.pc == Waiting(g, EventDrain, Pending) && t.held == [g] && t.fates == s.fates
    ensures t.el.ready == Some(g) && !t.el.flushing && SameJobs(s.el.frames, t.el.frames)
  {
    var x, v := AfterEvent(s, g);
    OneMore(s, x, v, Output(Take));
    actions, t := x + [Output(Take)], Step(v, Output(Take));
  }

  /** A record without a fence is complete at once. */
  lemma AfterWaiting(s: State, g: nat) returns (actions: seq<Action>, t: State)
    requires Chaining(s) && s.pc == Waiting(g, EventDrain, Pending) && s.held == [g]
    requires s.el.ready == Some(g) && !s.el.flushing && Valid(s.el, g)
    requires s.el.frames[g].fence == NoFence && s.el.frames[g].n == Current(s)
    ensures DrainFree(actions) && Run(s, actions, t) && t.held == [g, g] && Current(t) == Current(s)
    ensures t.pc == Dropping(EventDrain, Some(Current(s)), true) && SameJobs(s.el.frames, t.el.frames)
  {
    var poll := Output(PollReady(Complete, false));
    var u := Step(s, poll);
    One(s, poll);
    assert u.pc == Deciding(g, EventDrain, Complete) && u.el == s.el && u.fates == s.fates && u.held == s.held;
    OneMore(s, [poll], u, Output(Decide));
    actions, t := [poll] + [Output(Decide)], Step(u, Output(Decide));
  }

  lemma AfterDropping(s: State, g: nat) returns (actions: seq<Action>, t: State)
    requires Chaining(s) && s.pc == Dropping(EventDrain, Some(Current(s)), true)
    requires s.held == [g, g] && Valid(s.el, g)
    ensures DrainFree(actions) && Run(s, actions, t) && Current(t) == Current(s)
    ensures t.pc == Taken(EventDrain, Some(Current(s)), true) && SameJobs(s.el.frames, t.el.frames)
  {
    var u := Step(s, Output(DropTaken));
    One(s, Output(DropTaken));
    assert u.pc == s.pc && u.held == [g] && u.fates == s.fates;
    OneMore(s, [Output(DropTaken)], u, Output(DropTaken));
    actions, t := [Output(DropTaken)] + [Output(DropTaken)], Step(u, Output(DropTaken));
    JobsStay(s.el.frames, u.el.frames, t.el.frames);
  }

  lemma AfterTaken(s: State) returns (actions: seq<Action>, t: State)
    requires Chaining(s) && s.pc == Taken(EventDrain, Some(Current(s)), true)
    ensures DrainFree(actions) && Run(s, actions, t) && Current(s) in t.pushed && t.el.frames == s.el.frames
  {
    var u := Step(s, Output(EndTake));
    One(s, Output(EndTake));
    assert u.pc == Pushing(EventDrain, Current(s)) && u.fates == s.fates && u.el.frames == s.el.frames;
    OneMore(s, [Output(EndTake)], u, Output(Push(true)));
    actions, t := [Output(EndTake)] + [Output(Push(true))], Step(u, Output(Push(true)));
    assert t.pushed == u.pushed + [Current(s)];
  }

  /** The second record of the output is drained, and the output pushed. */
  lemma RestingLeadsToThePush(s: State, g: nat) returns (actions: seq<Action>, t: State)
    requires s.pc.Resting? && Chaining(s) && s.el.pending == Some(g) && s.el.ready.None? && !s.el.flushing
    requires Valid(s.el, g) && s.el.frames[g] == NewFrame(Current(s), false, None, None)
    ensures DrainFree(actions) && Run(s, actions, t) && Current(s) in t.pushed && SameJobs(s.el.frames, t.el.frames)
  {
    hide Step, Enabled;
    var x, u := AfterResting(s, g);
    assert SameJob(s.el.frames[g], u.el.frames[g]);
    var y, v := AfterWaiting(u, g);
    Joined(s, x, u, y, v);
    JobsStay(s.el.frames, u.el.frames, v.el.frames);
    var z, w := AfterDropping(v, g);
    Joined(s, x + y, v, z, w);
    JobsStay(s.el.frames, v.el.frames, w.el.frames);
    var k, r := AfterTaken(w);
    Joined(s, x + y + z, w, k, r);
    actions, t := x + y + z + k, r;
  }

  /** From the moment the submission is closed the rest needs no further accident. */
  lemma PlacingLeadsToThePush(s: State, f: nat) returns (actions: seq<Action>, t: State)
    requires s.pc.Placing? && Astray(s, f)
    ensures DrainFree(actions) && Run(s, actions, t)
    ensures PushedEarly(t, f)
  {
    var g := |s.el.frames|;
    var x, u := AfterPlacing(s, f);
    var y, v := RestingLeadsToThePush(u, g);
    Joined(s, x, u, y, v);
    actions, t := x + y, v;
    assert SameJob(u.el.frames[f], v.el.frames[f]);
  }

  lemma FinishingLeadsToThePush(s: State, f: nat) returns (actions: seq<Action>, t: State)
    requires s.pc.Finishing? && s.pc.ok && !s.pc.flushed && Astray(s, f)
    ensures DrainFree(actions) && Run(s, actions, t)
    ensures PushedEarly(t, f)
  {
    var x, u := AfterFinishing(s, f);
    var y, v := PlacingLeadsToThePush(u, f);
    Joined(s, x, u, y, v);
    actions, t := x + y, v;
  }

  lemma SubmittedLeadsToThePush(s: State, f: nat) returns (actions: seq<Action>, t: State)
    requires s.pc.Submitted? && s.pc.ok && !s.pc.flushed && s.pc.f == f && Astray(s, f)
    ensures DrainFree(actions) && Run(s, actions, t)
    ensures PushedEarly(t, f)
  {
    var x, u := AfterSubmitted(s, f);
    var y, v := FinishingLeadsToThePush(u, f);
    Joined(s, x, u, y, v);
    actions, t := x + y, v;
  }

  /** A state change that drains an exposed record leads, by steps the element takes on its own and without another
      drain, to a buffer pushed downstream while the job that writes it is still running. */
  lemma StateChangeDrainLeadsToThePush(s: State, f: nat) returns (actions: seq<Action>, t: State)
    requires Inv(s) && Exposed(s, f)
    ensures DrainFree(actions) && Run(Step(s, Control(StateChangeDrain)), actions, t) && PushedEarly(t, f)
  {
    var u := Step(s, Control(StateChangeDrain));
    assert s.el.custom;
    match s.pc {
    case Submitting(_, _) =>
      var x, v := AfterSubmitting(u, f);
      var y, w := SubmittedLeadsToThePush(v, f);
      Joined(u, x, v, y, w);
      actions, t := x + y, w;
    case Submitted(_, _, _, _) =>
      actions, t := SubmittedLeadsToThePush(u, f);
    case Finishing(_, _, _) =>
      actions, t := FinishingLeadsToThePush(u, f);
    case Placing =>
      actions, t := PlacingLeadsToThePush(u, f);
    }
  }

  /** Some steps after `s`, none of which drains an exposed record, a buffer is downstream too early. */
  ghost predicate CanPushEarly(s: State) {
    exists actions: seq<Action>, t: State, f: nat ::
      Run(s, actions, t) && SafeRun(s, actions) && PushedEarly(t, f)
  }

  lemma HarmlessDrain(s: State)
    requires Inv(s) && Delivery(s) && Terminal(s) && (forall f: nat :: !Exposed(s, f))
    ensures !CanPushEarly(Step(s, Control(StateChangeDrain)))
  {
    var drain := Control(StateChangeDrain);
    var u := Step(s, drain);
    StepKeepsInv(s, drain);
    StepKeepsDelivery(s, drain);
    StepKeepsTerminal(s, drain);
    forall actions: seq<Action>, t: State, f: nat | Run(u, actions, t) && SafeRun(u, actions)
      ensures !PushedEarly(t, f)
    {
      RunKeepsTerminal(u, actions, t);
      TerminalMeansNotEarly(t, f);
    }
  }

  /** Exactly when a state change's drain makes an early push possible: when it drains an exposed record. */
  lemma DrainMakesPushesEarlyIffExposed(capable: bool, before: seq<Action>, s: State)
    requires Run(Initial(capable), before, s) && SafeRun(Initial(capable), before)
    ensures CanPushEarly(Step(s, Control(StateChangeDrain))) <==> exists f: nat :: Exposed(s, f)
  {
    hide Inv, Delivery, Terminal, Step;
    InitialInv(capable);
    InitialDelivery(capable);
    InitialTerminal(capable);
    RunKeepsTerminal(Initial(capable), before, s);
    if f: nat :| Exposed(s, f) {
      var actions, t := StateChangeDrainLeadsToThePush(s, f);
      DrainFreeIsSafe(Step(s, Control(StateChangeDrain)), actions);
    } else {
      HarmlessDrain(s);
    }
  }

  /** The first buffer of a run on its way to the conversion. */
  lemma FirstConverting() returns (actions: seq<Action>, s: State)
    ensures DrainFree(actions) && Run(Initial(true), actions, s)
    ensures s.pc.Converting? && |s.fates| == 1 && s.capable && s.el == Initial(true).el.(custom := true)
  {
    var offer, guard, rotate, prepare :=
      Submit(Offer(true)), Submit(Guard), Submit(Rotate), Submit(Prepare(true));
    var s0 := Initial(true);
    One(s0, offer);
    var s1 := Step(s0, offer);
    OneMore(s0, [offer], s1, guard);
    var s2 := Step(s1, guard);
    OneMore(s0, [offer] + [guard], s2, rotate);
    var s3 := Step(s2, rotate);
    OneMore(s0, [offer] + [guard] + [rotate], s3, prepare);
    actions, s := [offer] + [guard] + [rotate] + [prepare], Step(s3, prepare);
  }

  lemma FirstLeased(s: State) returns (actions: seq<Action>, t: State)
    requires s.pc.Converting? && |s.fates| == 1 && s.capable && s.el == Initial(true).el.(custom := true)
    ensures DrainFree(actions) && Run(s, actions, t)
    ensures t.pc == Publishing(None, None) && |t.fates| == 1 && !t.el.flushing && t.el.frames == []
  {
    var read, lease := Transform(ReadSettings(true)), Transform(Lease(false, NoLookup, NoLookup));
    One(s, read);
    var u := Step(s, read);
    OneMore(s, [read], u, lease);
    actions, t := [read] + [lease], Step(u, lease);
  }

  lemma FirstPublished(s: State) returns (actions: seq<Action>, t: State)
    requires s.pc.Converting? && |s.fates| == 1 && s.capable && s.el == Initial(true).el.(custom := true)
    ensures DrainFree(actions) && Run(s, actions, t) && Exposed(t, 0)
  {
    var x, u := FirstLeased(s);
    var publish := Transform(Publish);
    OneMore(s, x, u, publish);
    actions, t := x + [publish], Step(u, publish);
  }

  /** The element gets there: the first buffer of a run is exposed from its publication on. */
  lemma ExposedIsReached() returns (actions: seq<Action>, s: State)
    ensures DrainFree(actions) && Run(Initial(true), actions, s) && Exposed(s, 0)
  {
    hide Step, Enabled, Exposed;
    var x, u := FirstConverting();
    var y, v := FirstPublished(u);
    Joined(Initial(true), x, u, y, v);
    actions, s := x + y, v;
  }

  lemma DrainIsEnabled(s: State)
    ensures Enabled(s, Control(StateChangeDrain))
  {}

  /** One drain in such a state and a run of the whole element pushes a buffer the hardware still writes. */
  lemma EarlyPushIsReached()
    ensures exists actions: seq<Action>, t: State, f: nat :: Run(Initial(true), actions, t) && PushedEarly(t, f)
  {
    var drain := Control(StateChangeDrain);
    hide Inv, Step, Enabled, Exposed;
    var x, s := ExposedIsReached();
    DrainIsEnabled(s);
    InitialInv(true);
    RunKeepsInv(Initial(true), x, s);
    OneMore(Initial(true), x, s, drain);
    var y, t := StateChangeDrainLeadsToThePush(s, 0);
    Joined(Initial(true), x + [drain], Step(s, drain), y, t);
  }
}
