/** How often a faulting encoder may be restarted (gst/rockchipmpp/gstmppenc.c:103-104 and 1252-1266). */
module RestartBudget {
  const BUDGET := 3
  const WINDOW := 10_000_000

  /** `started` is 0 until the first error; monotonic times are positive. */
  datatype Budget = Budget(started: int, attempts: nat)

  const Fresh := Budget(0, 0)

  predicate Expired(b: Budget, now: int) { b.started == 0 || now - b.started >= WINDOW }

  /** One runtime error: the new budget and whether a restart is attempted. */
  function Tried(b: Budget, now: int): (Budget, bool) {
    var v := if Expired(b, now) then Budget(now, 0) else b;
    if v.attempts >= BUDGET then (v, false) else (v.(attempts := v.attempts + 1), true)
  }

  /** Error times in order. */
  predicate Times(ts: seq<int>) {
    && (forall i :: 0 <= i < |ts| ==> ts[i] > 0)
    && forall i, j :: 0 <= i <= j < |ts| ==> ts[i] <= ts[j]
  }

  function After(b: Budget, ts: seq<int>): Budget {
    if ts == [] then b else Tried(After(b, ts[..|ts| - 1]), ts[|ts| - 1]).0
  }

  /** How many of the errors lead to a restart attempt. */
  function Attempts(b: Budget, ts: seq<int>): nat {
    if ts == [] then 0
    else Attempts(b, ts[..|ts| - 1]) + if Tried(After(b, ts[..|ts| - 1]), ts[|ts| - 1]).1 then 1 else 0
  }

  predicate Sound(b: Budget) {
    b.started >= 0 && b.attempts <= BUDGET && (b.started == 0 <==> b.attempts == 0)
  }

  lemma {:induction false} AlwaysSound(b: Budget, ts: seq<int>)
    requires Sound(b) && Times(ts)
    ensures Sound(After(b, ts))
    decreases |ts|
  {
    if ts != [] { AlwaysSound(b, ts[..|ts| - 1]); }
  }

  lemma {:induction false} Split(b: Budget, ts: seq<int>, r: nat)
    requires r <= |ts|
    ensures After(b, ts) == After(After(b, ts[..r]), ts[r..])
    ensures Attempts(b, ts) == Attempts(b, ts[..r]) + Attempts(After(b, ts[..r]), ts[r..])
    decreases |ts|
  {
    if r < |ts| {
      var p := ts[..|ts| - 1];
      Split(b, p, r);
      assert p[..r] == ts[..r] && ts[r..][..|ts| - r - 1] == p[r..];
    } else {
      assert ts[..r] == ts && ts[r..] == [];
    }
  }

  /** While a window stays open only what is left of its budget is attempted. */
  lemma {:induction false} OpenWindow(b: Budget, ts: seq<int>)
    requires Sound(b) && forall i :: 0 <= i < |ts| ==> !Expired(b, ts[i])
    ensures After(b, ts) == Budget(b.started, b.attempts + Attempts(b, ts))
    ensures Attempts(b, ts) <= BUDGET - b.attempts
    decreases |ts|
  {
    if ts != [] { OpenWindow(b, ts[..|ts| - 1]); }
  }

  lemma One(b: Budget, now: int)
    ensures After(b, [now]) == Tried(b, now).0
    ensures Attempts(b, [now]) == if Tried(b, now).1 then 1 else 0
  {
    var ts := [now];
    assert ts[..|ts| - 1] == [];
    assert After(b, ts[..|ts| - 1]) == b && Attempts(b, ts[..|ts| - 1]) == 0;
  }

  /** An accounting window, from the error that opens it to the last error before it expires, admits at
      most three attempts, and always the first. */
  lemma WindowAdmitsThree(b: Budget, ts: seq<int>)
    requires Sound(b) && Times(ts) && |ts| > 0
    requires Expired(b, ts[0]) && ts[|ts| - 1] - ts[0] < WINDOW
    ensures 1 <= Attempts(b, ts) <= BUDGET
  {
    Split(b, ts, 1);
    assert ts[..1] == [ts[0]];
    One(b, ts[0]);
    var rest := ts[1..];
    assert forall i :: 0 <= i < |rest| ==> rest[i] == ts[i + 1] <= ts[|ts| - 1];
    OpenWindow(Budget(ts[0], 1), rest);
  }

  function BeforeExpiry(b: Budget, ts: seq<int>): (r: nat)
    ensures r <= |ts|
    ensures forall i :: 0 <= i < r ==> !Expired(b, ts[i])
    ensures r < |ts| ==> Expired(b, ts[r])
  {
    if ts == [] || Expired(b, ts[0]) then 0 else 1 + BeforeExpiry(b, ts[1..])
  }

  lemma SpanFrom(b: Budget, ts: seq<int>)
    requires Sound(b) && Times(ts) && |ts| > 0 && ts[|ts| - 1] - ts[0] < WINDOW
    ensures Attempts(b, ts) <= 2 * BUDGET - 1
  {
    var r := BeforeExpiry(b, ts);
    Split(b, ts, r);
    OpenWindow(b, ts[..r]);
    if r < |ts| {
      WindowAdmitsThree(After(b, ts[..r]), ts[r..]);
    }
  }

  /** A span shorter than ten seconds, anywhere in a run of errors, sees at most five attempts: it can touch two
      windows, but not the attempt that opened the earlier one. */
  lemma SpanAdmitsFive(before: seq<int>, ts: seq<int>)
    requires Times(before) && Times(ts) && |ts| > 0 && ts[|ts| - 1] - ts[0] < WINDOW
    ensures Attempts(After(Fresh, before), ts) <= 2 * BUDGET - 1
    ensures Attempts(Fresh, before + ts) == Attempts(Fresh, before) + Attempts(After(Fresh, before), ts)
  {
    Split(Fresh, before + ts, |before|);
    assert (before + ts)[..|before|] == before && (before + ts)[|before|..] == ts;
    AlwaysSound(Fresh, before);
    SpanFrom(After(Fresh, before), ts);
  }

  lemma First(b: Budget, now: int, rest: seq<int>)
    ensures Attempts(b, [now] + rest) == Attempts(Tried(b, now).0, rest) + if Tried(b, now).1 then 1 else 0
  {
    Split(b, [now] + rest, 1);
    assert ([now] + rest)[..1] == [now] && ([now] + rest)[1..] == rest;
    One(b, now);
  }

  /** Five is reached: two attempts at the end of one window and three at the start of the next. */
  lemma FiveIsReached()
    ensures var before, ts := [1], [WINDOW, WINDOW, WINDOW + 1, WINDOW + 1, WINDOW + 1];
            Times(before + ts) && Attempts(After(Fresh, before), ts) == 5
  {
    var late := WINDOW + 1;
    One(Fresh, 1);
    First(Budget(1, 1), WINDOW, [WINDOW, late, late, late]);
    First(Budget(1, 2), WINDOW, [late, late, late]);
    First(Budget(1, 3), late, [late, late]);
    First(Budget(late, 1), late, [late]);
    One(Budget(late, 2), late);
    assert [WINDOW] + [WINDOW, late, late, late] == [WINDOW, WINDOW, late, late, late];
    assert [WINDOW] + [late, late, late] == [WINDOW, late, late, late];
    assert [late] + [late, late] == [late, late, late] && [late] + [late] == [late, late];
  }
}
