/** Leases of the import cache over whole runs: the users of every import are exactly the frame records and
    submits in progress that hold it, so a handle is released only when nobody does
    (gst/rockchiprga/gstrgaconvert.c:478-567, 1124-1136 and 1841-1917). */
module RgaLeases {
  import opened Options
  import opened ImportCache
  import opened RgaFrames
  import opened RgaPipeline

  /** Users of an address, 0 where it is not listed. */
  function Users(s: seq<Import>, id: nat): int {
    if s == [] then 0
    else Users(s[..|s| - 1], id) + if s[|s| - 1].id == id then s[|s| - 1].users else 0
  }

  function Is(slot: Option<nat>, id: nat): nat { if slot == Some(id) then 1 else 0 }

  /** Leases a record holds. */
  function Uses(fr: Frame, id: nat): nat { Is(fr.src, id) + Is(fr.dst, id) }

  function Held(frames: seq<Frame>, id: nat): nat {
    if frames == [] then 0 else Held(frames[..|frames| - 1], id) + Uses(frames[|frames| - 1], id)
  }

  /** Leases the streaming thread holds itself. */
  function InHand(pc: Pc, id: nat): nat {
    match pc
    case Publishing(src, dst) => Is(src, id) + Is(dst, id)
    case Blitting(src, dst) => Is(src, id) + Is(dst, id)
    case _ => 0
  }

  predicate Balanced(s: State, id: nat) {
    Users(s.el.imports, id) == Held(s.el.frames, id) + InHand(s.pc, id)
  }

  ghost predicate Leases(s: State) {
    WellFormed(s.el.imports) && forall id: nat :: Balanced(s, id)
  }

  // ---- sums

  lemma {:induction false} UsersOf(s: seq<Import>, id: nat)
    requires Unique(s)
    ensures forall i :: 0 <= i < |s| && s[i].id == id ==> Users(s, id) == s[i].users
    ensures (forall i :: 0 <= i < |s| ==> s[i].id != id) ==> Users(s, id) == 0
    decreases |s|
  {
    if s != [] {
      var t := s[..|s| - 1];
      assert Unique(t);
      UsersOf(t, id);
    }
  }

  lemma UsersFound(s: seq<Import>, t: seq<Import>, id: nat)
    requires Unique(s) && Unique(t) && Users(s, id) != 0
    requires forall e :: e in s && e.id == id && e.users != 0 ==> exists d :: d in t && d.id == id && d.users == e.users
    ensures Users(t, id) == Users(s, id)
  {
    UsersOf(s, id);
    UsersOf(t, id);
    var i :| 0 <= i < |s| && s[i].id == id;
    assert s[i] in s;
    var d :| d in t && d.id == id && d.users == s[i].users;
  }

  /** Two lists agree on an address they list alike. */
  lemma SameUsers(s: seq<Import>, t: seq<Import>, id: nat)
    requires Unique(s) && Unique(t)
    requires forall e :: e in s && e.id == id && e.users != 0 ==> exists d :: d in t && d.id == id && d.users == e.users
    requires forall d :: d in t && d.id == id && d.users != 0 ==> exists e :: e in s && e.id == id && e.users == d.users
    ensures Users(s, id) == Users(t, id)
  {
    if Users(s, id) != 0 {
      UsersFound(s, t, id);
    } else if Users(t, id) != 0 {
      UsersFound(t, s, id);
    }
  }

  lemma {:induction false} UsersPointwise(s: seq<Import>, t: seq<Import>, id: nat)
    requires |s| == |t| && forall i :: 0 <= i < |s| ==> s[i].id == t[i].id && s[i].users == t[i].users
    ensures Users(s, id) == Users(t, id)
    decreases |s|
  {
    if s != [] { UsersPointwise(s[..|s| - 1], t[..|t| - 1], id); }
  }

  lemma {:induction false} HeldUpdate(frames: seq<Frame>, f: nat, fr: Frame, id: nat)
    requires f < |frames|
    ensures Held(frames[f := fr], id) == Held(frames, id) - Uses(frames[f], id) + Uses(fr, id)
    decreases |frames|
  {
    var t := frames[..|frames| - 1];
    if f < |t| {
      HeldUpdate(t, f, fr, id);
      assert frames[f := fr][..|frames| - 1] == t[f := fr];
    } else {
      assert frames[f := fr][..|frames| - 1] == t;
    }
  }

  lemma {:induction false} HeldSame(a: seq<Frame>, b: seq<Frame>, id: nat)
    requires |a| == |b| && forall f :: 0 <= f < |a| ==> a[f].src == b[f].src && a[f].dst == b[f].dst
    ensures Held(a, id) == Held(b, id)
    decreases |a|
  {
    if a != [] { HeldSame(a[..|a| - 1], b[..|b| - 1], id); }
  }

  lemma HeldMore(frames: seq<Frame>, fr: Frame, id: nat)
    ensures Held(frames + [fr], id) == Held(frames, id) + Uses(fr, id)
  {
    assert (frames + [fr])[..|frames + [fr]| - 1] == frames;
  }

  lemma {:induction false} HoldsAtLeast(frames: seq<Frame>, f: nat, id: nat)
    requires f < |frames|
    ensures Held(frames, id) >= Uses(frames[f], id)
    decreases |frames|
  {
    if f < |frames| - 1 { HoldsAtLeast(frames[..|frames| - 1], f, id); }
  }

  // ---- what the cache operations do to the sums

  lemma {:induction false} PutUsers(s: seq<Import>, id: nat, other: nat)
    requires Unique(s)
    ensures Unique(Put(s, id))
    ensures other != id ==> Users(Put(s, id), other) == Users(s, other)
    ensures (exists i :: 0 <= i < |s| && s[i].id == id) ==> Users(Put(s, id), id) == Users(s, id) - 1
  {
    UsersOf(s, other);
    UsersOf(s, id);
    UsersOf(Put(s, id), other);
    UsersOf(Put(s, id), id);
    var r := Put(s, id);
    assert forall i :: 0 <= i < |s| ==> r[i].id == s[i].id;
    if i :| 0 <= i < |s| && s[i].id == other { assert r[i].id == other; }
    if i :| 0 <= i < |s| && s[i].id == id { assert r[i].id == id; }
  }

  /** Dropping one lease of a listed import with users. */
  lemma PutOne(s: seq<Import>, id: nat)
    requires WellFormed(s) && Users(s, id) > 0
    ensures WellFormed(Put(s, id))
    ensures forall j: nat :: Users(Put(s, id), j) == Users(s, j) - Is(Some(id), j)
  {
    UsersOf(s, id);
    assert exists i :: 0 <= i < |s| && s[i].id == id;
    forall j: nat ensures Users(Put(s, id), j) == Users(s, j) - Is(Some(id), j) { PutUsers(s, id, j); }
  }

  /** Dropping both leases of a record or of a blocking conversion. */
  lemma PutBoth(s: seq<Import>, src: Option<nat>, dst: Option<nat>)
    requires WellFormed(s)
    requires forall j: nat :: Users(s, j) >= Is(src, j) + Is(dst, j)
    ensures var r := PutOption(PutOption(s, src), dst);
            WellFormed(r) && forall j: nat :: Users(r, j) == Users(s, j) - Is(src, j) - Is(dst, j)
  {
    if src.Some? {
      assert Users(s, src.value) >= Is(src, src.value) + Is(dst, src.value);
      PutOne(s, src.value);
    }
    var t := PutOption(s, src);
    if dst.Some? {
      assert Users(s, dst.value) >= Is(src, dst.value) + Is(dst, dst.value);
      assert Users(t, dst.value) == Users(s, dst.value) - Is(src, dst.value);
      PutOne(t, dst.value);
    }
  }

  lemma ClearedUsers(s: seq<Import>, id: nat)
    requires WellFormed(s)
    ensures WellFormed(Cleared(s)) && Users(Cleared(s), id) == Users(s, id)
  {
    ClearKeepsWellFormed(s);
    ClearedMembers(s);
    forall e | e in s && e.id == id && e.users != 0
      ensures exists d :: d in Cleared(s) && d.id == id && d.users == e.users
    {
      assert !Idle(e);
      assert e.(retired := true) in Cleared(s);
    }
    SameUsers(s, Cleared(s), id);
  }

  lemma {:induction false} UsersAppended(s: seq<Import>, e: Import, id: nat)
    ensures Users(s + [e], id) == Users(s, id) + if e.id == id then e.users else 0
  {
    assert (s + [e])[..|s + [e]| - 1] == s;
  }

  lemma PassedUsers(s: seq<Import>, fd: int, identity: Identity, param: Param, id: nat)
    requires Unique(s)
    ensures Unique(PassedAll(s, fd, identity, param)) && Users(PassedAll(s, fd, identity, param), id) == Users(s, id)
  {
    UsersPointwise(s, PassedAll(s, fd, identity, param), id);
  }

  /** Removing one entry. */
  lemma {:induction false} UsersWithout(s: seq<Import>, k: nat, id: nat)
    requires k < |s|
    ensures Users(Without(s, k), id) == Users(s, id) - if s[k].id == id then s[k].users else 0
    decreases |s|
  {
    var t := s[..|s| - 1];
    if k < |t| {
      UsersWithout(t, k, id);
      assert Without(s, k)[..|s| - 2] == Without(t, k);
    } else {
      assert Without(s, k) == t;
    }
  }

  lemma MissedUsers(p: seq<Import>, e: Import, imported: bool, id: nat)
    requires e.users == 1
    ensures var r := Missed(p, e, imported);
            Users(r.list, id) == Users(p, id) + if r.leased.Some? && e.id == id then 1 else 0
    ensures Missed(p, e, imported).leased.Some? ==> Missed(p, e, imported).leased.value.id == e.id
  {
    var v := VictimOf(p);
    if MustEvict(p) && v.Some? { UsersWithout(p, v.value, id); }
    var q := if MustEvict(p) && v.Some? then Without(p, v.value) else p;
    UsersAppended(q, e, id);
  }

  /** A request adds one lease, to what it hands out. */
  lemma RequestUsers(s: seq<Import>, fd: int, identity: Identity, param: Param, dup: int, handle: nat,
                     newId: nat, id: nat)
    requires WellFormed(s)
    ensures var r := Requested(s, fd, identity, param, dup, handle, newId);
            Users(r.list, id) == Users(s, id) + Is(LeasedId(r), id)
  {
    var k := HitAt(s, fd, identity, param);
    if k < |s| {
      var e := s[k].(users := s[k].users + 1);
      assert PassedAll(s[..k], fd, identity, param) == s[..k] by { HitsOnce(s, k, fd, identity, param); }
      UsersWithout(s, k, id);
      UsersAppended(Without(s, k), e, id);
    } else {
      PassedUsers(s, fd, identity, param, id);
      MissedUsers(PassedAll(s, fd, identity, param), Import(newId, fd, dup, identity, param, handle, 1, false),
                  dup >= 0 && handle != 0, id);
    }
  }

  /** Before the hit there is no other live entry of the descriptor to retire. */
  lemma HitsOnce(s: seq<Import>, k: nat, fd: int, identity: Identity, param: Param)
    requires WellFormed(s) && k < |s| && Hits(s[k], fd, identity, param)
    ensures PassedAll(s[..k], fd, identity, param) == s[..k]
  {}

  lemma LookedUpUsers(s: seq<Import>, l: Lookup)
    requires WellFormed(s) && FreshLookup(s, l)
    ensures WellFormed(LookedUp(s, l).list)
    ensures forall id: nat :: Users(LookedUp(s, l).list, id) == Users(s, id) + Is(LeasedId(LookedUp(s, l)), id)
  {
    match l
    case NoLookup =>
    case Lookup(fd, identity, param, dup, handle, newId) =>
      RequestKeepsWellFormed(s, fd, identity, param, dup, handle, newId);
      forall id: nat ensures Users(LookedUp(s, l).list, id) == Users(s, id) + Is(LeasedId(LookedUp(s, l)), id) {
        RequestUsers(s, fd, identity, param, dup, handle, newId, id);
      }
  }

  // ---- every step keeps the balance

  /** Steps that touch no import, no lease of a record and no lease in hand. */
  lemma QuietLeases(s: State, t: State)
    requires Leases(s) && t.el.imports == s.el.imports && |t.el.frames| == |s.el.frames|
    requires forall f :: 0 <= f < |s.el.frames| ==>
               t.el.frames[f].src == s.el.frames[f].src && t.el.frames[f].dst == s.el.frames[f].dst
    requires forall id: nat :: InHand(t.pc, id) == InHand(s.pc, id)
    ensures Leases(t)
  {
    forall id: nat ensures Balanced(t, id) {
      assert Balanced(s, id);
      HeldSame(s.el.frames, t.el.frames, id);
    }
  }

  /** A new record without leases. */
  lemma NewRecordLeases(s: State, t: State, fr: Frame)
    requires Leases(s) && t.el.imports == s.el.imports && t.el.frames == s.el.frames + [fr]
    requires fr.src.None? && fr.dst.None? && forall id: nat :: InHand(t.pc, id) == InHand(s.pc, id)
    ensures Leases(t)
  {
    forall id: nat ensures Balanced(t, id) {
      assert Balanced(s, id);
      HeldMore(s.el.frames, fr, id);
    }
  }

  /** Dropping a reference of a record, by whoever holds it. */
  lemma UnrefLeases(s: State, t: State, f: nat)
    requires Leases(s) && Valid(s.el, f)
    requires t.el.frames == Unref(s.el, f).frames && t.el.imports == Unref(s.el, f).imports
    requires forall id: nat :: InHand(t.pc, id) == InHand(s.pc, id)
    ensures Leases(t)
  {
    var fr := s.el.frames[f];
    forall j: nat ensures Users(s.el.imports, j) >= Is(fr.src, j) + Is(fr.dst, j) {
      assert Balanced(s, j);
      HoldsAtLeast(s.el.frames, f, j);
    }
    PutBoth(s.el.imports, fr.src, fr.dst);
    forall id: nat ensures Balanced(t, id) {
      assert Balanced(s, id);
      HeldUpdate(s.el.frames, f, t.el.frames[f], id);
    }
  }

  /** Invalidation changes nobody's lease. */
  lemma ClearedLeases(s: State, t: State)
    requires Leases(s) && t.el.frames == s.el.frames && t.el.imports == Cleared(s.el.imports)
    requires forall id: nat :: InHand(t.pc, id) == InHand(s.pc, id)
    ensures Leases(t)
  {
    ClearedUsers(s.el.imports, 0);
    forall id: nat ensures Balanced(t, id) {
      assert Balanced(s, id);
      ClearedUsers(s.el.imports, id);
    }
  }

  /** Leases are in hand in two positions of the streaming thread only. */
  predicate NoneInHand(pc: Pc) { !pc.Publishing? && !pc.Blitting? }

  /** The two requests of a submit. */
  lemma TwoLookups(s: seq<Import>, src: Lookup, dst: Lookup)
    requires WellFormed(s) && FreshLookup(s, src) && FreshLookup(LookedUp(s, src).list, dst)
    ensures var r := LookedUp(s, src);
            var q := LookedUp(r.list, dst);
            && WellFormed(q.list)
            && forall id: nat :: Users(q.list, id) == Users(s, id) + Is(LeasedId(r), id) + Is(LeasedId(q), id)
  {
    LookedUpUsers(s, src);
    LookedUpUsers(LookedUp(s, src).list, dst);
  }

  /** Imports gain the leases that came into the hand. */
  lemma InHandLeases(s: State, t: State, src: Option<nat>, dst: Option<nat>)
    requires Leases(s) && t.el.frames == s.el.frames && WellFormed(t.el.imports) && NoneInHand(s.pc)
    requires t.pc == Publishing(src, dst) || t.pc == Blitting(src, dst)
    requires forall id: nat :: Users(t.el.imports, id) == Users(s.el.imports, id) + Is(src, id) + Is(dst, id)
    ensures Leases(t)
  {
    forall id: nat ensures Balanced(t, id) { assert Balanced(s, id); }
  }

  lemma LeaseLeases(s: State, staging: bool, src: Lookup, dst: Lookup)
    requires Leases(s) && TransformEnabled(s, Lease(staging, src, dst))
    ensures Leases(OnLease(s, staging, src, dst))
  {
    var t := OnLease(s, staging, src, dst);
    if s.el.flushing {
      QuietLeases(s, t);
    } else {
      TwoLookups(s.el.imports, src, dst);
      var r := LookedUp(s.el.imports, src);
      InHandLeases(s, t, LeasedId(r), LeasedId(LookedUp(r.list, dst)));
    }
  }

  /** The record takes the leases over from the hand. */
  lemma HandedLeases(s: State, t: State, fr: Frame)
    requires Leases(s) && s.pc.Publishing? && NoneInHand(t.pc)
    requires t.el.imports == s.el.imports && t.el.frames == s.el.frames + [fr]
    requires fr.src == s.pc.src && fr.dst == s.pc.dst
    ensures Leases(t)
  {
    forall id: nat ensures Balanced(t, id) {
      assert Balanced(s, id);
      HeldMore(s.el.frames, fr, id);
    }
  }

  lemma PublishLeases(s: State)
    requires Leases(s) && TransformEnabled(s, Publish)
    ensures Leases(OnPublish(s))
  {
    var fr := NewFrame(|s.fates| - 1, true, s.pc.src, s.pc.dst);
    HandedLeases(s, OnPublish(s), if s.el.flushing then fr else fr.(submitted := false, refs := 2));
  }

  lemma BlitLeases(s: State, ok: bool, lost: bool)
    requires Leases(s) && s.pc.Blitting?
    ensures Leases(OnBlitReturns(s, ok, lost))
  {
    var t := OnBlitReturns(s, ok, lost);
    forall j: nat ensures Users(s.el.imports, j) >= Is(s.pc.src, j) + Is(s.pc.dst, j) { assert Balanced(s, j); }
    PutBoth(s.el.imports, s.pc.src, s.pc.dst);
    forall id: nat ensures Balanced(t, id) { assert Balanced(s, id); }
  }

  lemma CloseLeases(s: State, t: State, lost: bool)
    requires Leases(s) && t.el == SubmitClosed(s.el, lost) && NoneInHand(s.pc) && NoneInHand(t.pc)
    ensures Leases(t)
  {
    if lost { ClearedLeases(s, t); } else { QuietLeases(s, t); }
  }

  lemma TransformedInHand(s: State, ok: bool)
    requires Chaining(s)
    ensures NoneInHand(Transformed(s, ok).pc) && Transformed(s, ok).el == s.el
  {}

  lemma OnCloseLeases(s: State)
    requires Leases(s) && TransformEnabled(s, Close)
    ensures Leases(OnClose(s))
  {
    TransformedInHand(s.(el := SubmitClosed(s.el, s.pc.lost)), s.pc.ok);
    CloseLeases(s, OnClose(s), s.pc.lost);
  }

  lemma OnCloseBlitLeases(s: State)
    requires Leases(s) && TransformEnabled(s, CloseBlit)
    ensures Leases(OnCloseBlit(s))
  {
    TransformedInHand(s.(el := SubmitClosed(s.el, s.pc.lost)), s.pc.ok);
    CloseLeases(s, OnCloseBlit(s), s.pc.lost);
  }

  lemma SubmitLeases(s: State, a: SubmitAction)
    requires Leases(s) && SubmitEnabled(s, a)
    ensures Leases(SubmitStep(s, a))
  {
    var t := SubmitStep(s, a);
    if a.Place? && s.el.pending.None? && !s.el.flushing {
      NewRecordLeases(s, t, t.el.frames[|s.el.frames|]);
    } else {
      QuietLeases(s, t);
    }
  }

  lemma ReadSettingsLeases(s: State, ok: bool)
    requires Leases(s) && TransformEnabled(s, ReadSettings(ok))
    ensures Leases(OnReadSettings(s, ok))
  {
    hide Leases;
    QuietLeases(s, OnReadSettings(s, ok));
  }

  /** Taking the job over moves no lease, answering the submission neither. */
  lemma HardwareTakesLeases(s: State)
    requires Leases(s) && TransformEnabled(s, HardwareTakes)
    ensures Leases(OnHardwareTakes(s))
  {
    hide Leases;
    QuietLeases(s, OnHardwareTakes(s));
  }

  lemma SubmitReturnsLeases(s: State, fence: Fence, ok: bool, lost: bool)
    requires Leases(s) && TransformEnabled(s, SubmitReturns(fence, ok, lost))
    ensures Leases(OnSubmitReturns(s, fence, ok, lost))
  {
    hide Leases;
    QuietLeases(s, OnSubmitReturns(s, fence, ok, lost));
  }

  lemma TransformLeases(s: State, a: TransformAction)
    requires Leases(s) && TransformEnabled(s, a)
    ensures Leases(TransformStep(s, a))
  {
    hide Leases;
    match a
    case ReadSettings(ok) => ReadSettingsLeases(s, ok);
    case Lease(staging, src, dst) => LeaseLeases(s, staging, src, dst);
    case Publish => PublishLeases(s);
    case DropAborted => UnrefLeases(s, OnDropAborted(s), s.pc.f);
    case HardwareTakes => HardwareTakesLeases(s);
    case SubmitReturns(fence, ok, lost) => SubmitReturnsLeases(s, fence, ok, lost);
    case DropSubmitted => UnrefLeases(s, OnDropSubmitted(s), s.pc.f);
    case Close => OnCloseLeases(s);
    case BlitReturns(ok, lost) => BlitLeases(s, ok, lost);
    case CloseBlit => OnCloseBlitLeases(s);
  }

  lemma SameLeasesOfRecords(a: seq<Frame>, b: seq<Frame>, f: nat, fr: Frame)
    requires f < |a| && b == a[f := fr] && fr.src == a[f].src && fr.dst == a[f].dst
    ensures |b| == |a| && forall h :: 0 <= h < |a| ==> b[h].src == a[h].src && b[h].dst == a[h].dst
  {}

  lemma TakeLeases(s: State, t: State)
    requires Leases(s) && s.pc.Taking? && OutputEnabled(s, Take) && t == OnTake(s)
    ensures Leases(t)
  {
    if s.el.ready.Some? {
      var f := s.el.ready.value;
      SameLeasesOfRecords(s.el.frames, t.el.frames, f, t.el.frames[f]);
    }
    QuietLeases(s, t);
  }

  lemma DecideLeases(s: State, t: State)
    requires Leases(s) && OutputEnabled(s, Decide) && t == OnDecide(s)
    ensures Leases(t)
  {
    var f := s.pc.f;
    if !TakenAway(s.el, f) && s.pc.last == Complete {
      SameLeasesOfRecords(s.el.frames, t.el.frames, f, t.el.frames[f]);
    }
    QuietLeases(s, t);
  }

  lemma GenerateLeases(s: State)
    requires Leases(s) && OutputEnabled(s, Generate)
    ensures Leases(OnGenerate(s))
  {
    assert NoneInHand(OnGenerate(s).pc);
    QuietLeases(s, OnGenerate(s));
  }

  lemma DrainHeadLeases(s: State)
    requires Leases(s) && OutputEnabled(s, DrainHead)
    ensures Leases(OnDrainHead(s))
  {
    assert NoneInHand(OnDrainHead(s).pc);
    QuietLeases(s, OnDrainHead(s));
  }

  lemma EndTakeLeases(s: State)
    requires Leases(s) && OutputEnabled(s, EndTake)
    ensures Leases(OnEndTake(s))
  {
    assert NoneInHand(OnEndTake(s).pc);
    QuietLeases(s, OnEndTake(s));
  }

  lemma PushLeases(s: State, ok: bool)
    requires Leases(s) && OutputEnabled(s, Push(ok))
    ensures Leases(OnPush(s, ok))
  {
    assert NoneInHand(OnPush(s, ok).pc);
    QuietLeases(s, OnPush(s, ok));
  }

  lemma OutputLeases(s: State, a: OutputAction)
    requires Leases(s) && OutputEnabled(s, a)
    ensures Leases(OutputStep(s, a))
  {
    hide Leases;
    match a
    case DropTaken => UnrefLeases(s, OnDropTaken(s), s.held[0]);
    case Take => TakeLeases(s, OnTake(s));
    case Decide => DecideLeases(s, OnDecide(s));
    case Generate => GenerateLeases(s);
    case Recheck => QuietLeases(s, OnRecheck(s));
    case PollReady(status, late) => QuietLeases(s, OnPollReady(s, status, late));
    case EndTake => EndTakeLeases(s);
    case Push(ok) => PushLeases(s, ok);
    case DrainHead => DrainHeadLeases(s);
  }

  lemma ControlLeases(s: State, a: ControlAction)
    requires Leases(s) && ControlEnabled(s, a)
    ensures Leases(ControlStep(s, a))
  {
    var t := ControlStep(s, a);
    if t.el.imports == s.el.imports { QuietLeases(s, t); } else { ClearedLeases(s, t); }
  }

  lemma ReapLeases(s: State, w: bool, a: ReapAction)
    requires Leases(s) && ReapEnabled(s, w, a)
    ensures Leases(ReapStep(s, w, a))
  {
    var t := ReapStep(s, w, a);
    match a
    case ReapUnref => UnrefLeases(s, t, TheReap(s, w).todo[0]);
    case ReapRelease => UnrefLeases(s, t, TheReap(s, w).visited[0]);
    case ReapBegin => QuietLeases(s, t);
    case ReapRead => QuietLeases(s, t);
    case ReapDecide(_) => QuietLeases(s, t);
    case ReapEnd => QuietLeases(s, t);
  }

  lemma ReaperLeases(s: State, a: ReaperAction)
    requires Leases(s) && ReaperEnabled(s, a)
    ensures Leases(ReaperStep(s, a))
  {
    if a.ReaperPoll? && !a.status.Pending? {
      UnrefLeases(s, ReaperStep(s, a), s.sole.value);
    } else {
      QuietLeases(s, ReaperStep(s, a));
    }
  }

  lemma StepKeepsLeases(s: State, a: Action)
    requires Leases(s) && Enabled(s, a)
    ensures Leases(Step(s, a))
  {
    match a
    case Submit(x) => SubmitLeases(s, x);
    case Transform(x) => TransformLeases(s, x);
    case Output(x) => OutputLeases(s, x);
    case Control(x) => ControlLeases(s, x);
    case Reaping(w, x) => ReapLeases(s, w, x);
    case Reaper(x) => ReaperLeases(s, x);
  }

  lemma {:induction false} RunKeepsLeases(s: State, actions: seq<Action>, last: State)
    requires Leases(s) && Run(s, actions, last)
    ensures Leases(last)
    decreases |actions|
  {
    if actions != [] {
      StepKeepsLeases(s, actions[0]);
      RunKeepsLeases(Step(s, actions[0]), actions[1..], last);
    }
  }

  /** In every interleaving the users of an import are the records and submits that hold it, it is listed while
      anybody does, and the list is bounded. */
  lemma UsersAreTheHolders(capable: bool, actions: seq<Action>, s: State, id: nat)
    requires Run(Initial(capable), actions, s)
    ensures |s.el.imports| <= CACHE_MAX && WellFormed(s.el.imports)
    ensures Users(s.el.imports, id) == Held(s.el.frames, id) + InHand(s.pc, id)
    ensures Held(s.el.frames, id) + InHand(s.pc, id) > 0 ==>
              exists e :: e in s.el.imports && e.id == id && e.users == Held(s.el.frames, id) + InHand(s.pc, id)
  {
    RunKeepsLeases(Initial(capable), actions, s);
    assert Balanced(s, id);
    UsersOf(s.el.imports, id);
    if Users(s.el.imports, id) > 0 {
      var i :| 0 <= i < |s.el.imports| && s.el.imports[i].id == id;
      assert s.el.imports[i] in s.el.imports;
    }
  }

  // ---- a handle is released only when nobody holds it

  /** Same handle for the same object; only leases, position and retirement may differ. */
  predicate SameImport(e: Import, d: Import) {
    && d.id == e.id && d.handle == e.handle && d.fd == e.fd && d.ownedFd == e.ownedFd
    && d.identity == e.identity && d.param == e.param && (e.retired ==> d.retired)
  }

  /** Every import in use in `a` is still listed in `b`. */
  ghost predicate Keeps(a: seq<Import>, b: seq<Import>) {
    forall e :: e in a && e.users > 0 ==> exists d :: d in b && SameImport(e, d)
  }

  /** And no less in use. */
  ghost predicate KeepsInUse(a: seq<Import>, b: seq<Import>) {
    forall e :: e in a && e.users > 0 ==> exists d :: d in b && SameImport(e, d) && d.users >= e.users
  }

  lemma WithoutKeeps(p: seq<Import>, k: nat, e: Import)
    requires k < |p| && e in p && e != p[k]
    ensures e in Without(p, k)
  {
    var i :| 0 <= i < |p| && p[i] == e;
    var q := Without(p, k);
    assert if i < k then q[i] == e else q[i - 1] == e;
  }

  lemma MissKeeps(p: seq<Import>, x: Import, imported: bool)
    ensures KeepsInUse(p, Missed(p, x, imported).list)
  {
    var r, v := Missed(p, x, imported).list, VictimOf(p);
    forall e | e in p && e.users > 0 ensures exists d :: d in r && SameImport(e, d) && d.users >= e.users {
      if MustEvict(p) && v.Some? { WithoutKeeps(p, v.value, e); }
      assert e in r;
    }
  }

  lemma HitKeeps(s: seq<Import>, k: nat, r: seq<Import>)
    requires k < |s| && r == Without(s, k) + [s[k].(users := s[k].users + 1)]
    ensures KeepsInUse(s, r)
  {
    var moved := s[k].(users := s[k].users + 1);
    assert r[|r| - 1] == moved;
    forall e | e in s && e.users > 0 ensures exists d :: d in r && SameImport(e, d) && d.users >= e.users {
      if e == s[k] { assert moved in r; } else { WithoutKeeps(s, k, e); assert e in r; }
    }
  }

  lemma PassedKeeps(s: seq<Import>, p: seq<Import>, r: seq<Import>, fd: int, identity: Identity, param: Param)
    requires p == PassedAll(s, fd, identity, param) && KeepsInUse(p, r)
    ensures KeepsInUse(s, r)
  {
    forall e | e in s && e.users > 0 ensures exists d :: d in r && SameImport(e, d) && d.users >= e.users {
      var i :| 0 <= i < |s| && s[i] == e;
      assert p[i] in p && p[i].users == e.users;
      var d :| d in r && SameImport(p[i], d) && d.users >= p[i].users;
    }
  }

  lemma RequestKeeps(s: seq<Import>, fd: int, identity: Identity, param: Param, dup: int, handle: nat, newId: nat)
    requires WellFormed(s)
    ensures KeepsInUse(s, Requested(s, fd, identity, param, dup, handle, newId).list)
  {
    var r, k := Requested(s, fd, identity, param, dup, handle, newId).list, HitAt(s, fd, identity, param);
    if k < |s| {
      HitsOnce(s, k, fd, identity, param);
      HitKeeps(s, k, r);
    } else {
      var p := PassedAll(s, fd, identity, param);
      var x := Import(newId, fd, dup, identity, param, handle, 1, false);
      MissKeeps(p, x, dup >= 0 && handle != 0);
      PassedKeeps(s, p, r, fd, identity, param);
    }
  }

  lemma LookupKeeps(s: seq<Import>, l: Lookup)
    requires WellFormed(s)
    ensures KeepsInUse(s, LookedUp(s, l).list)
  {
    match l
    case NoLookup =>
    case Lookup(fd, identity, param, dup, handle, newId) =>
      RequestKeeps(s, fd, identity, param, dup, handle, newId);
  }

  lemma BothKeep(a: seq<Import>, b: seq<Import>, c: seq<Import>)
    requires KeepsInUse(a, b) && KeepsInUse(b, c)
    ensures Keeps(a, c)
  {
    forall e | e in a && e.users > 0 ensures exists d :: d in c && SameImport(e, d) {
      var d :| d in b && SameImport(e, d) && d.users >= e.users;
      var x :| x in c && SameImport(d, x) && x.users >= d.users;
    }
  }

  lemma PutsKeep(s: seq<Import>, src: Option<nat>, dst: Option<nat>)
    ensures Keeps(s, PutOption(PutOption(s, src), dst))
  {
    var t := PutOption(s, src);
    var r := PutOption(t, dst);
    forall e | e in s && e.users > 0 ensures exists d :: d in r && SameImport(e, d) {
      var i :| 0 <= i < |s| && s[i] == e;
      assert r[i] in r && SameImport(e, r[i]);
    }
  }

  lemma ClearedKeeps(s: seq<Import>)
    ensures Keeps(s, Cleared(s))
  {
    ClearedMembers(s);
    forall e | e in s && e.users > 0 ensures exists d :: d in Cleared(s) && SameImport(e, d) {
      assert !Idle(e) && e.(retired := true) in Cleared(s);
    }
  }

  lemma NothingChanged(s: seq<Import>)
    ensures Keeps(s, s)
  {
    forall e | e in s && e.users > 0 ensures exists d :: d in s && SameImport(e, d) { assert SameImport(e, e); }
  }

  /** What a step may do to the list. */
  datatype ListChange =
    | Same
    | Invalidated
    | LeasesDropped(src: Option<nat>, dst: Option<nat>)
    | Requests(first: Lookup, second: Lookup)

  predicate Changed(s: seq<Import>, t: seq<Import>, c: ListChange) {
    match c
    case Same => t == s
    case Invalidated => t == Cleared(s)
    case LeasesDropped(src, dst) => t == PutOption(PutOption(s, src), dst)
    case Requests(src, dst) => FreshLookup(s, src) && t == LookedUp(LookedUp(s, src).list, dst).list
  }

  lemma ChangeKeeps(s: seq<Import>, t: seq<Import>, c: ListChange)
    requires WellFormed(s) && Changed(s, t, c)
    ensures Keeps(s, t)
  {
    match c
    case Same => NothingChanged(s);
    case Invalidated => ClearedKeeps(s);
    case LeasesDropped(src, dst) => PutsKeep(s, src, dst);
    case Requests(src, dst) =>
      LookupKeeps(s, src);
      LookedUpUsers(s, src);
      LookupKeeps(LookedUp(s, src).list, dst);
      BothKeep(s, LookedUp(s, src).list, t);
  }

  lemma UnrefChange(el: Element, f: nat) returns (c: ListChange)
    requires Valid(el, f)
    ensures Changed(el.imports, Unref(el, f).imports, c)
  {
    c := if el.frames[f].refs == 1 then LeasesDropped(el.frames[f].src, el.frames[f].dst) else Same;
  }

  lemma CloseChange(s: State) returns (c: ListChange)
    requires TransformEnabled(s, Close)
    ensures Changed(s.el.imports, OnClose(s).el.imports, c)
  {
    TransformedInHand(s.(el := SubmitClosed(s.el, s.pc.lost)), s.pc.ok);
    c := if s.pc.lost then Invalidated else Same;
  }

  lemma CloseBlitChange(s: State) returns (c: ListChange)
    requires TransformEnabled(s, CloseBlit)
    ensures Changed(s.el.imports, OnCloseBlit(s).el.imports, c)
  {
    TransformedInHand(s.(el := SubmitClosed(s.el, s.pc.lost)), s.pc.ok);
    c := if s.pc.lost then Invalidated else Same;
  }

  lemma TransformChange(s: State, a: TransformAction) returns (c: ListChange)
    requires TransformEnabled(s, a)
    ensures Changed(s.el.imports, TransformStep(s, a).el.imports, c)
  {
    match a {
    case Lease(_, src, dst) => c := if s.el.flushing then Same else Requests(src, dst);
    case DropAborted => c := UnrefChange(s.el, s.pc.f);
    case DropSubmitted => c := UnrefChange(s.el, s.pc.f);
    case BlitReturns(_, _) => c := LeasesDropped(s.pc.src, s.pc.dst);
    case Close => c := CloseChange(s);
    case CloseBlit => c := CloseBlitChange(s);
    case ReadSettings(_) => c := Same;
    case Publish => c := Same;
    case HardwareTakes => c := Same;
    case SubmitReturns(_, _, _) => c := Same;
    }
  }

  lemma ReapChange(s: State, w: bool, a: ReapAction) returns (c: ListChange)
    requires ReapEnabled(s, w, a)
    ensures Changed(s.el.imports, ReapStep(s, w, a).el.imports, c)
  {
    match a {
    case ReapUnref => c := UnrefChange(s.el, TheReap(s, w).todo[0]);
    case ReapRelease => c := UnrefChange(s.el, TheReap(s, w).visited[0]);
    case ReapBegin => c := Same;
    case ReapRead => c := Same;
    case ReapDecide(_) => c := Same;
    case ReapEnd => c := Same;
    }
  }

  lemma OutputChange(s: State, a: OutputAction) returns (c: ListChange)
    requires OutputEnabled(s, a)
    ensures Changed(s.el.imports, OutputStep(s, a).el.imports, c)
  {
    match a {
    case DropTaken => c := UnrefChange(s.el, s.held[0]);
    case Take => c := TakeChange(s);
    case Decide => c := DecideChange(s);
    case _ => c := Same;
    }
  }

  lemma TakeChange(s: State) returns (c: ListChange)
    requires OutputEnabled(s, Take)
    ensures Changed(s.el.imports, OnTake(s).el.imports, c)
  {
    c := Same;
  }

  lemma DecideChange(s: State) returns (c: ListChange)
    requires OutputEnabled(s, Decide)
    ensures Changed(s.el.imports, OnDecide(s).el.imports, c)
  {
    c := Same;
  }

  lemma ControlChange(s: State, a: ControlAction) returns (c: ListChange)
    requires ControlEnabled(s, a)
    ensures Changed(s.el.imports, ControlStep(s, a).el.imports, c)
  {
    c := if a.StopRound? && (StopEmpty(s.el) || a.late) then Invalidated else Same;
  }

  lemma ReaperChange(s: State, a: ReaperAction) returns (c: ListChange)
    requires ReaperEnabled(s, a)
    ensures Changed(s.el.imports, ReaperStep(s, a).el.imports, c)
  {
    if a.ReaperPoll? && !a.status.Pending? { c := UnrefChange(s.el, s.sole.value); } else { c := Same; }
  }

  lemma SubmitChange(s: State, a: SubmitAction)
    requires SubmitEnabled(s, a)
    ensures SubmitStep(s, a).el.imports == s.el.imports
  {}

  lemma StepChange(s: State, a: Action) returns (c: ListChange)
    requires Enabled(s, a)
    ensures Changed(s.el.imports, Step(s, a).el.imports, c)
  {
    match a {
    case Submit(x) => SubmitChange(s, x); c := Same;
    case Transform(x) => c := TransformChange(s, x);
    case Output(x) => c := OutputChange(s, x);
    case Control(x) => c := ControlChange(s, x);
    case Reaping(w, x) => c := ReapChange(s, w, x);
    case Reaper(x) => c := ReaperChange(s, x);
    }
  }

  /** A step after which an import is no longer listed, its handle released, starts with no record and no submit
      holding it. */
  lemma ReleasedOnlyAtZero(capable: bool, actions: seq<Action>, s: State, a: Action, e: Import)
    requires Run(Initial(capable), actions, s) && Enabled(s, a)
    requires e in s.el.imports && forall d :: d in Step(s, a).el.imports ==> !SameImport(e, d)
    ensures e.users == 0 && Held(s.el.frames, e.id) + InHand(s.pc, e.id) == 0
  {
    RunKeepsLeases(Initial(capable), actions, s);
    var c := StepChange(s, a);
    ChangeKeeps(s.el.imports, Step(s, a).el.imports, c);
    assert Balanced(s, e.id);
    UsersOf(s.el.imports, e.id);
    var i :| 0 <= i < |s.el.imports| && s.el.imports[i] == e;
    assert e.users >= 0;
  }
}
