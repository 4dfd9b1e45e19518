/** The delivery side of the converter reduced to what order and accounting depend on: the numbers
    of the inputs in the pending and ready slots and on their way out, and the fate of every input. */
module DeliveryLedger {
  import opened Options

  /** What became of an input buffer. */
  datatype Fate = Offered | Refused | Skipped | Pipelined | Leaving | Pushed | Dropped | Flushed

  datatype Ledger = Ledger(pending: Option<nat>, ready: Option<nat>, out: Option<nat>,
                           fates: seq<Fate>, pushed: seq<nat>, dropped: nat)

  predicate Known(l: Ledger, n: Option<nat>) { n.Some? ==> n.value < |l.fates| }

  /** Each fate means what it says. */
  predicate FatesTell(l: Ledger) {
    && Known(l, l.pending) && Known(l, l.ready) && Known(l, l.out)
    && (forall i :: 0 <= i < |l.pushed| ==> l.pushed[i] < |l.fates|)
    && forall n: nat :: n < |l.fates| ==>
         && (l.fates[n] == Pipelined <==> l.pending == Some(n) || l.ready == Some(n))
         && (l.fates[n] == Leaving <==> l.out == Some(n))
         && (l.fates[n] == Pushed <==> n in l.pushed)
  }

  predicate Below(n: nat, slot: Option<nat>) { slot.Some? ==> n < slot.value }

  /** Pushed, outgoing, ready, pending: strictly increasing. */
  predicate InOrder(l: Ledger) {
    && (forall i, j :: 0 <= i < j < |l.pushed| ==> l.pushed[i] < l.pushed[j])
    && (forall i :: 0 <= i < |l.pushed| ==>
          Below(l.pushed[i], l.out) && Below(l.pushed[i], l.ready) && Below(l.pushed[i], l.pending))
    && (l.out.Some? ==> Below(l.out.value, l.ready) && Below(l.out.value, l.pending))
    && (l.ready.Some? ==> Below(l.ready.value, l.pending))
  }

  function Count(fates: seq<Fate>, fate: Fate): nat {
    if fates == [] then 0 else Count(fates[..|fates| - 1], fate) + (if fates[|fates| - 1] == fate then 1 else 0)
  }

  predicate Sound(l: Ledger) {
    FatesTell(l) && InOrder(l) && l.dropped == Count(l.fates, Dropped)
  }

  lemma {:induction false} CountSet(fates: seq<Fate>, n: nat, to: Fate, fate: Fate)
    requires n < |fates|
    ensures Count(fates[n := to], fate)
            == Count(fates, fate) - (if fates[n] == fate then 1 else 0) + (if to == fate then 1 else 0)
  {
    var k := |fates| - 1;
    if n < k {
      assert fates[n := to][..k] == fates[..k][n := to];
      CountSet(fates[..k], n, to, fate);
    } else {
      assert fates[n := to][..k] == fates[..k];
    }
  }

  /** A fate that is neither in a slot, nor on its way, nor pushed, nor a counted drop. */
  predicate Loose(fate: Fate) {
    fate == Offered || fate == Refused || fate == Skipped || fate == Flushed
  }

  /** A new input is offered. */
  lemma OfferKeeps(l: Ledger, fate: Fate)
    requires Sound(l) && (fate == Offered || fate == Skipped)
    ensures Sound(l.(fates := l.fates + [fate]))
  {
    assert (l.fates + [fate])[..|l.fates|] == l.fates;
  }

  /** An input outside the pipeline is given another such fate. */
  lemma LooseKeeps(l: Ledger, n: nat, to: Fate)
    requires Sound(l) && n < |l.fates| && Loose(l.fates[n]) && Loose(to)
    ensures Sound(l.(fates := l.fates[n := to]))
  {
    CountSet(l.fates, n, to, Dropped);
  }

  /** The newest input enters the pending slot. */
  lemma EnterKeeps(l: Ledger, n: nat)
    requires Sound(l) && n == |l.fates| - 1 && Loose(l.fates[n]) && l.pending.None? && l.out.None?
    ensures Sound(l.(fates := l.fates[n := Pipelined], pending := Some(n)))
  {
    CountSet(l.fates, n, Pipelined, Dropped);
  }

  /** A submission that failed leaves the pending slot, or has already been flushed out of it. */
  lemma WithdrawKeeps(l: Ledger, n: nat)
    requires Sound(l) && n < |l.fates| && (l.pending == Some(n) || Loose(l.fates[n])) && l.ready != Some(n)
    ensures Sound(l.(fates := l.fates[n := Refused], pending := if l.pending == Some(n) then None else l.pending))
  {
    CountSet(l.fates, n, Refused, Dropped);
  }

  lemma RotateKeeps(l: Ledger)
    requires Sound(l) && l.ready.None?
    ensures Sound(l.(ready := l.pending, pending := None))
  {}

  lemma TakeOutKeeps(l: Ledger)
    requires Sound(l) && l.ready.Some? && l.out.None?
    ensures Sound(l.(ready := None, out := l.ready, fates := l.fates[l.ready.value := Leaving]))
  {
    CountSet(l.fates, l.ready.value, Leaving, Dropped);
  }

  lemma DropKeeps(l: Ledger)
    requires Sound(l) && l.ready.Some?
    ensures Sound(l.(ready := None, fates := l.fates[l.ready.value := Dropped], dropped := l.dropped + 1))
  {
    CountSet(l.fates, l.ready.value, Dropped, Dropped);
  }

  /** A synchronous output goes straight downstream, past an empty pipeline. */
  lemma SyncOutKeeps(l: Ledger, n: nat)
    requires Sound(l) && n == |l.fates| - 1 && Loose(l.fates[n])
    requires l.pending.None? && l.ready.None? && l.out.None?
    ensures Sound(l.(out := Some(n), fates := l.fates[n := Leaving]))
  {
    CountSet(l.fates, n, Leaving, Dropped);
  }

  lemma PushKeeps(l: Ledger)
    requires Sound(l) && l.out.Some?
    ensures Sound(l.(out := None, fates := l.fates[l.out.value := Pushed], pushed := l.pushed + [l.out.value]))
  {
    CountSet(l.fates, l.out.value, Pushed, Dropped);
  }

  predicate InSlots(l: Ledger, n: int) {
    0 <= n && (l.pending == Some(n) || l.ready == Some(n))
  }

  /** A flush takes both slots. */
  lemma FlushKeeps(l: Ledger, fates: seq<Fate>)
    requires Sound(l) && |fates| == |l.fates|
    requires forall n :: 0 <= n < |fates| ==> fates[n] == if InSlots(l, n) then Flushed else l.fates[n]
    ensures Sound(l.(pending := None, ready := None, fates := fates))
  {
    SameCount(l.fates, fates, Dropped);
  }

  lemma {:induction false} SameCount(a: seq<Fate>, b: seq<Fate>, fate: Fate)
    requires |a| == |b| && forall n :: 0 <= n < |a| ==> (a[n] == fate <==> b[n] == fate)
    ensures Count(a, fate) == Count(b, fate)
  {
    if a != [] { SameCount(a[..|a| - 1], b[..|b| - 1], fate); }
  }
}
