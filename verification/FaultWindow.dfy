/** When owned faults ask for a restart (gst/rockchipmpp/gstmppfaultbridge.c:722-740). */
module FaultWindow {
  /** GST_MPP_FAULT_WINDOW_US. */
  const WINDOW := 2_000_000

  /** `started` is 0 while no window is open; monotonic times are positive. */
  datatype Window = Window(started: int, faults: nat)

  const Closed := Window(0, 0)

  predicate Expired(w: Window, now: int) { w.started == 0 || now - w.started >= WINDOW }

  /** One owned fault: the new window and whether the threshold was crossed. */
  function Accounted(w: Window, now: int, threshold: nat): (Window, bool) {
    var v := if Expired(w, now) then Window(now, 1) else Window(w.started, w.faults + 1);
    if v.faults < threshold then (v, false) else (Closed, true)
  }

  /** gst_mpp_fault_account on the two fields of the bridge. */
  class Counter {
    var windowStarted: int
    var windowFaults: nat
    const threshold: nat

    ghost function View(): Window
      reads this
    {
      Window(windowStarted, windowFaults)
    }

    constructor (threshold: nat)
      ensures View() == Closed && this.threshold == threshold
    {
      windowStarted, windowFaults := 0, 0;
      this.threshold := threshold;
    }

    method Account(now: int) returns (crossed: bool)
      modifies this
      ensures (View(), crossed) == Accounted(old(View()), now, threshold)
    {
      if windowStarted == 0 || now - windowStarted >= WINDOW {
        windowStarted := now;
        windowFaults := 0;
      }
      windowFaults := windowFaults + 1;
      if windowFaults < threshold { return false; }
      windowStarted := 0;
      windowFaults := 0;
      crossed := true;
    }
  }

  /** Owned faults at positive times in order. */
  predicate Times(ts: seq<int>) {
    && (forall i :: 0 <= i < |ts| ==> ts[i] > 0)
    && forall i, j :: 0 <= i <= j < |ts| ==> ts[i] <= ts[j]
  }

  function After(w: Window, ts: seq<int>, threshold: nat): Window {
    if ts == [] then w
    else Accounted(After(w, ts[..|ts| - 1], threshold), ts[|ts| - 1], threshold).0
  }

  /** The i-th fault crosses. */
  predicate CrossesAt(w: Window, ts: seq<int>, threshold: nat, i: nat)
    requires i < |ts|
  {
    Accounted(After(w, ts[..i], threshold), ts[i], threshold).1
  }

  /** From a closed window: the last `faults` faults opened and filled the present window. */
  predicate Backed(ts: seq<int>, threshold: nat)
    requires Times(ts)
  {
    var w := After(Closed, ts, threshold);
    && (w.started == 0 <==> w.faults == 0)
    && w.faults <= |ts|
    && (w.faults > 0 ==> w.started == ts[|ts| - w.faults] && ts[|ts| - 1] - w.started < WINDOW && w.faults < threshold)
    && forall i :: |ts| - w.faults <= i < |ts| ==> !CrossesAt(Closed, ts, threshold, i)
  }

  lemma {:induction false} AlwaysBacked(ts: seq<int>, threshold: nat)
    requires Times(ts)
    ensures Backed(ts, threshold)
    decreases |ts|
  {
    if ts != [] {
      var p := ts[..|ts| - 1];
      AlwaysBacked(p, threshold);
      forall i | 0 <= i < |p| ensures CrossesAt(Closed, ts, threshold, i) == CrossesAt(Closed, p, threshold, i) {
        assert ts[..i] == p[..i];
      }
    }
  }

  /** Each crossing is backed by exactly `threshold` faults, the last of which crosses: they span less than the
      window, and none of them backed an earlier crossing. */
  lemma CrossingIsBacked(ts: seq<int>, threshold: nat, i: nat)
    requires Times(ts) && threshold > 0 && i < |ts| && CrossesAt(Closed, ts, threshold, i)
    ensures i + 1 >= threshold && ts[i] - ts[i + 1 - threshold] < WINDOW
    ensures forall j :: i + 1 - threshold <= j < i ==> !CrossesAt(Closed, ts, threshold, j)
  {
    var p := ts[..i];
    AlwaysBacked(p, threshold);
    forall j | 0 <= j < i ensures CrossesAt(Closed, ts, threshold, j) == CrossesAt(Closed, p, threshold, j) {
      assert ts[..j] == p[..j];
    }
  }

  /** Without a crossing and without an expiry the count only grows. */
  lemma {:induction false} CountGrows(w: Window, ts: seq<int>, threshold: nat)
    requires Times(ts)
    requires forall i :: 0 <= i < |ts| ==> !CrossesAt(w, ts, threshold, i)
    requires |ts| > 0 ==> w.started != 0 && ts[|ts| - 1] - w.started < WINDOW
    ensures After(w, ts, threshold) == Window(w.started, w.faults + |ts|)
    ensures |ts| > 0 ==> w.faults + |ts| < threshold
    decreases |ts|
  {
    if ts != [] {
      var p := ts[..|ts| - 1];
      forall i | 0 <= i < |p| ensures !CrossesAt(w, p, threshold, i) {
        assert ts[..i] == p[..i] && !CrossesAt(w, ts, threshold, i);
      }
      CountGrows(w, p, threshold);
      assert !CrossesAt(w, ts, threshold, |p|);
    }
  }

  /** How many of the faults still fall into the window that was open at the start. */
  function BeforeExpiry(w: Window, ts: seq<int>): (r: nat)
    ensures r <= |ts|
    ensures forall i :: 0 <= i < r ==> !Expired(w, ts[i])
    ensures r < |ts| ==> Expired(w, ts[r])
  {
    if ts == [] || Expired(w, ts[0]) then 0 else 1 + BeforeExpiry(w, ts[1..])
  }

  lemma {:induction false} AfterSplit(w: Window, ts: seq<int>, r: nat, threshold: nat)
    requires r <= |ts|
    ensures After(w, ts, threshold) == After(After(w, ts[..r], threshold), ts[r..], threshold)
    decreases |ts|
  {
    if r < |ts| {
      var p := ts[..|ts| - 1];
      AfterSplit(w, p, r, threshold);
      assert p[..r] == ts[..r] && ts[r..][..|ts| - r - 1] == p[r..];
    } else {
      assert ts[..r] == ts && ts[r..] == [];
    }
  }

  lemma CrossingSplit(w: Window, ts: seq<int>, r: nat, threshold: nat, i: nat)
    requires r <= i < |ts|
    ensures CrossesAt(w, ts, threshold, i)
            == CrossesAt(After(w, ts[..r], threshold), ts[r..], threshold, i - r)
  {
    AfterSplit(w, ts[..i], r, threshold);
    assert ts[..i][..r] == ts[..r] && ts[..i][r..] == ts[r..][..i - r];
  }

  lemma AfterOne(w: Window, now: int, threshold: nat)
    ensures After(w, [now], threshold) == Accounted(w, now, threshold).0
  {
    var ts := [now];
    assert ts[..|ts| - 1] == [];
    assert After(w, ts[..|ts| - 1], threshold) == w;
  }

  /** Once the window has expired, fewer than threshold faults fit into the next one without a crossing. */
  lemma QuietAfterExpiry(w: Window, ts: seq<int>, threshold: nat)
    requires Times(ts) && |ts| > 0 && Expired(w, ts[0]) && ts[|ts| - 1] - ts[0] < WINDOW
    requires forall i :: 0 <= i < |ts| ==> !CrossesAt(w, ts, threshold, i)
    ensures |ts| < threshold
  {
    var u, rest := Window(ts[0], 1), ts[1..];
    assert ts[..1] == [ts[0]] && ts[..0] == [];
    AfterOne(w, ts[0], threshold);
    assert !CrossesAt(w, ts, threshold, 0);
    forall i | 0 <= i < |rest| ensures !CrossesAt(u, rest, threshold, i) {
      CrossingSplit(w, ts, 1, threshold, i + 1);
    }
    CountGrows(u, rest, threshold);
  }

  /** A run of faults shorter than the window without a crossing: at most threshold - 1 - w.faults fell into the
      window open at the start, and fewer than threshold into the one after it. */
  lemma QuietRun(w: Window, ts: seq<int>, threshold: nat)
    requires Times(ts) && threshold > 0 && w.started >= 0
    requires |ts| > 0 ==> ts[|ts| - 1] - ts[0] < WINDOW
    requires forall i :: 0 <= i < |ts| ==> !CrossesAt(w, ts, threshold, i)
    ensures var r := BeforeExpiry(w, ts);
            (r > 0 ==> w.faults + r < threshold) && |ts| - r < threshold
  {
    var r := BeforeExpiry(w, ts);
    var a, b := ts[..r], ts[r..];
    forall i | 0 <= i < r ensures !CrossesAt(w, a, threshold, i) {
      assert a[..i] == ts[..i] && !CrossesAt(w, ts, threshold, i);
    }
    CountGrows(w, a, threshold);
    if b != [] {
      var v := After(w, a, threshold);
      forall i | 0 <= i < |b| ensures !CrossesAt(v, b, threshold, i) {
        CrossingSplit(w, ts, r, threshold, r + i);
      }
      QuietAfterExpiry(v, b, threshold);
    }
  }

  /** Any 2 * threshold - 1 faults in a span shorter than the window force a crossing, from any state. */
  lemma BurstForcesCrossing(w: Window, ts: seq<int>, threshold: nat)
    requires Times(ts) && threshold > 0 && w.started >= 0
    requires |ts| >= 2 * threshold - 1 && ts[|ts| - 1] - ts[0] < WINDOW
    ensures exists i :: 0 <= i < |ts| && CrossesAt(w, ts, threshold, i)
  {
    if forall i :: 0 <= i < |ts| ==> !CrossesAt(w, ts, threshold, i) {
      QuietRun(w, ts, threshold);
    }
  }

  /** From a state some earlier faults led to, one fewer is enough. */
  lemma BurstForcesCrossingInARun(before: seq<int>, ts: seq<int>, threshold: nat)
    requires Times(before + ts) && Times(before) && Times(ts) && threshold > 1
    requires |ts| >= 2 * threshold - 2 && ts[|ts| - 1] - ts[0] < WINDOW
    ensures exists i :: 0 <= i < |ts| && CrossesAt(After(Closed, before, threshold), ts, threshold, i)
  {
    var w := After(Closed, before, threshold);
    AlwaysBacked(before, threshold);
    if forall i :: 0 <= i < |ts| ==> !CrossesAt(w, ts, threshold, i) {
      QuietRun(w, ts, threshold);
    }
  }

  /** And that is the least number: one fault opens a window, threshold - 2 more come just before its end and
      threshold - 1 just after, within a microsecond, without a crossing. */
  function Late(threshold: nat): seq<int>
    requires threshold > 1
  {
    seq(threshold - 2, _ => WINDOW) + seq(threshold - 1, _ => WINDOW + 1)
  }

  lemma {:induction false} QuietWhile(w: Window, ts: seq<int>, threshold: nat)
    requires Times(ts)
    requires |ts| > 0 ==> w.started != 0 && ts[|ts| - 1] - w.started < WINDOW && w.faults + |ts| < threshold
    ensures After(w, ts, threshold) == Window(w.started, w.faults + |ts|)
    ensures forall i :: 0 <= i < |ts| ==> !CrossesAt(w, ts, threshold, i)
    decreases |ts|
  {
    if ts != [] {
      var p := ts[..|ts| - 1];
      QuietWhile(w, p, threshold);
      forall i | 0 <= i < |ts| ensures !CrossesAt(w, ts, threshold, i) {
        if i < |p| { assert ts[..i] == p[..i] && !CrossesAt(w, p, threshold, i); }
      }
    }
  }

  lemma BurstBoundIsSharp(threshold: nat)
    requires threshold > 1
    ensures var w, ts := After(Closed, [1], threshold), Late(threshold);
            && Times([1] + ts) && |ts| == 2 * threshold - 3 && ts[|ts| - 1] - ts[0] < WINDOW
            && forall i :: 0 <= i < |ts| ==> !CrossesAt(w, ts, threshold, i)
  {
    var w, ts := After(Closed, [1], threshold), Late(threshold);
    AfterOne(Closed, 1, threshold);
    var r := threshold - 2;
    var a, b := ts[..r], ts[r..];
    QuietWhile(w, a, threshold);
    var v := After(w, a, threshold);
    var u := Window(WINDOW + 1, 1);
    assert b[..1] == [WINDOW + 1];
    AfterOne(v, WINDOW + 1, threshold);
    QuietWhile(u, b[1..], threshold);
    forall i | 0 <= i < |ts| ensures !CrossesAt(w, ts, threshold, i) {
      if i < r {
        assert ts[..i] == a[..i] && !CrossesAt(w, a, threshold, i);
      } else {
        CrossingSplit(w, ts, r, threshold, i);
        if i == r {
          assert b[..0] == [];
        } else {
          CrossingSplit(v, b, 1, threshold, i - r);
        }
      }
    }
  }

  /** From a closed window the fault that completes the first `threshold` of them crosses, if they fit. */
  lemma FirstCrossing(ts: seq<int>, threshold: nat)
    requires Times(ts) && threshold > 0 && |ts| >= threshold && ts[threshold - 1] - ts[0] < WINDOW
    ensures CrossesAt(Closed, ts, threshold, threshold - 1)
  {
    if threshold > 1 {
      var u, rest := Window(ts[0], 1), ts[1..threshold - 1];
      QuietWhile(u, rest, threshold);
      AfterSplit(Closed, ts[..threshold - 1], 1, threshold);
      assert ts[..threshold - 1][..1] == [ts[0]] && ts[..threshold - 1][1..] == rest;
      AfterOne(Closed, ts[0], threshold);
    }
  }

  /** A crossing leaves a closed window. */
  lemma CrossingCloses(ts: seq<int>, threshold: nat, i: nat)
    requires i < |ts| && CrossesAt(Closed, ts, threshold, i)
    ensures After(Closed, ts[..i + 1], threshold) == Closed
  {
    assert ts[..i + 1][..i] == ts[..i];
  }

  lemma NextCrossingIsBacked(ts: seq<int>, threshold: nat, i: nat, j: nat)
    requires Times(ts) && threshold > 0 && i < j < |ts|
    requires CrossesAt(Closed, ts, threshold, i) && CrossesAt(Closed, ts, threshold, j)
    ensures i + threshold <= j
  {
    CrossingCloses(ts, threshold, i);
    CrossingSplit(Closed, ts, i + 1, threshold, j);
    CrossingIsBacked(ts[i + 1..], threshold, j - i - 1);
  }

  lemma CrossesAgain(ts: seq<int>, threshold: nat, i: nat)
    requires Times(ts) && threshold > 0 && i + threshold < |ts| && ts[i + threshold] - ts[i] < WINDOW
    requires CrossesAt(Closed, ts, threshold, i)
    ensures CrossesAt(Closed, ts, threshold, i + threshold)
  {
    CrossingCloses(ts, threshold, i);
    FirstCrossing(ts[i + 1..], threshold);
    CrossingSplit(Closed, ts, i + 1, threshold, i + threshold);
  }

  /** After a crossing the window crosses again within its own length if and only if `threshold` more owned faults
      arrive in that time: the counter starts over at once. */
  lemma CrossesAgainIff(ts: seq<int>, threshold: nat, i: nat)
    requires Times(ts) && threshold > 0 && i < |ts| && CrossesAt(Closed, ts, threshold, i)
    ensures (exists j :: i < j < |ts| && ts[j] - ts[i] < WINDOW && CrossesAt(Closed, ts, threshold, j))
            <==> i + threshold < |ts| && ts[i + threshold] - ts[i] < WINDOW
  {
    if i + threshold < |ts| && ts[i + threshold] - ts[i] < WINDOW { CrossesAgain(ts, threshold, i); }
    forall j | i < j < |ts| && ts[j] - ts[i] < WINDOW && CrossesAt(Closed, ts, threshold, j)
      ensures i + threshold <= j
    {
      NextCrossingIsBacked(ts, threshold, i, j);
    }
  }

  /** So two requests can fall into one two-second interval: twice the threshold in a burst is enough. */
  lemma TwoCrossingsInOneWindow(ts: seq<int>, threshold: nat)
    requires Times(ts) && threshold > 0 && |ts| == 2 * threshold && ts[|ts| - 1] - ts[0] < WINDOW
    ensures CrossesAt(Closed, ts, threshold, threshold - 1)
    ensures exists j ::
              threshold <= j < |ts| && ts[j] - ts[threshold - 1] < WINDOW && CrossesAt(Closed, ts, threshold, j)
  {
    FirstCrossing(ts, threshold);
    CrossesAgainIff(ts, threshold, threshold - 1);
  }
}
