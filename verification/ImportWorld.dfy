/** The import cache inside a process whose descriptors are closed and reused at any moment
    and whose inode numbers are recycled as soon as an object is unreferenced. */
module ImportWorld {
  import opened Options
  import opened ImportCache

  /** What a handle was made from. */
  datatype Imported = Imported(obj: nat, param: Param)

  /** `fds` is the descriptor table, `stat` the attributes of the objects still alive, `handles`
      librga's handle table; `usedAt` is the time of the last lease of each cached entry. */
  datatype World = World(fds: map<int, nat>, stat: map<nat, Identity>, handles: map<nat, Imported>,
                         cache: seq<Import>, nextObject: nat, nextId: nat,
                         usedAt: map<nat, nat>, clock: nat)

  datatype Action =
    | Open(fd: int, identity: Identity)
    | Close(fd: int)
    | Duplicate(fd: int, copy: int)
    | Reclaim(obj: nat)
    | Ask(fd: int, param: Param, dup: int, handle: nat)
    | Return(id: nat)
    | Invalidate

  const Start := World(map[], map[], map[], [], 0, 0, map[], 0)

  predicate Owned(w: World, fd: int) {
    exists i :: 0 <= i < |w.cache| && w.cache[i].ownedFd == fd
  }

  predicate SameInode(a: Identity, b: Identity) {
    a.dev == b.dev && a.ino == b.ino
  }

  /** The duplicate of a released entry is closed and its handle given back. */
  function Release(w: World, gone: Option<Import>): World {
    match gone
    case None => w
    case Some(e) => w.(fds := w.fds - {e.ownedFd}, handles := w.handles - {e.handle})
  }

  function RequestIn(w: World, a: Action): Request
    requires a.Ask? && a.fd in w.fds && w.fds[a.fd] in w.stat
  {
    Requested(w.cache, a.fd, w.stat[w.fds[a.fd]], a.param, a.dup, a.handle, w.nextId)
  }

  /** The kernel never gives two live objects one inode number, and fcntl and librga answer
      with numbers that are free once the evicted entry is gone. */
  predicate Enabled(w: World, a: Action) {
    match a
    case Open(fd, identity) =>
      fd !in w.fds && forall o :: o in w.stat ==> !SameInode(w.stat[o], identity)
    case Close(fd) => fd in w.fds && !Owned(w, fd)
    case Duplicate(fd, copy) => fd in w.fds && copy !in w.fds
    case Reclaim(obj) => obj in w.stat && obj !in w.fds.Values
    case Ask(fd, param, dup, handle) =>
      fd in w.fds && w.fds[fd] in w.stat ==>
        var after := Release(w, RequestIn(w, a).released);
        dup !in after.fds && handle !in after.handles
    case Return(id) => exists i :: 0 <= i < |w.cache| && w.cache[i].id == id && w.cache[i].users > 0
    case Invalidate => true
  }

  function Inserted(w: World, a: Action): bool
    requires a.Ask? && a.fd in w.fds && w.fds[a.fd] in w.stat
  {
    RequestIn(w, a).leased.Some? && RequestIn(w, a).leased.value.id == w.nextId
  }

  function Asked(w: World, a: Action): World
    requires a.Ask? && a.fd in w.fds && w.fds[a.fd] in w.stat
  {
    var r := RequestIn(w, a);
    var v := Release(w, r.released);
    var u := if Inserted(w, a) then
               v.(fds := v.fds[a.dup := w.fds[a.fd]], nextId := w.nextId + 1,
                  handles := v.handles[a.handle := Imported(w.fds[a.fd], a.param)])
             else v;
    if r.leased.Some? then
      u.(cache := r.list, usedAt := w.usedAt[r.leased.value.id := w.clock], clock := w.clock + 1)
    else u.(cache := r.list)
  }

  function IdleFds(s: seq<Import>): set<int> { set e | e in s && Idle(e) :: e.ownedFd }

  function IdleHandles(s: seq<Import>): set<nat> { set e | e in s && Idle(e) :: e.handle }

  function Step(w: World, a: Action): World
    requires Enabled(w, a)
  {
    match a
    case Open(fd, identity) =>
      w.(fds := w.fds[fd := w.nextObject], stat := w.stat[w.nextObject := identity], nextObject := w.nextObject + 1)
    case Close(fd) => w.(fds := w.fds - {fd})
    case Duplicate(fd, copy) => w.(fds := w.fds[copy := w.fds[fd]])
    case Reclaim(obj) => w.(stat := w.stat - {obj})
    case Ask(fd, param, dup, handle) =>
      if fd in w.fds && w.fds[fd] in w.stat then Asked(w, a) else w
    case Return(id) => w.(cache := Put(w.cache, id))
    case Invalidate =>
      w.(cache := Cleared(w.cache), fds := w.fds - IdleFds(w.cache), handles := w.handles - IdleHandles(w.cache))
  }

  ghost predicate Run(w: World, actions: seq<Action>, last: World)
    decreases |actions|
  {
    if actions == [] then last == w
    else Enabled(w, actions[0]) && Run(Step(w, actions[0]), actions[1..], last)
  }

  /** The entry's duplicate still names the object its handle was made from. */
  predicate Pins(w: World, e: Import) {
    && e.ownedFd in w.fds && w.fds[e.ownedFd] in w.stat
    && w.stat[w.fds[e.ownedFd]] == e.identity
    && e.handle in w.handles && w.handles[e.handle] == Imported(w.fds[e.ownedFd], e.param)
    && e.id < w.nextId
  }

  predicate Separate(s: seq<Import>) {
    forall i, j :: 0 <= i < j < |s| ==> s[i].ownedFd != s[j].ownedFd && s[i].handle != s[j].handle
  }

  predicate KernelSound(w: World) {
    && (forall fd :: fd in w.fds ==> w.fds[fd] in w.stat)
    && (forall o :: o in w.stat ==> o < w.nextObject)
    && (forall o, p :: o in w.stat && p in w.stat && o != p ==> !SameInode(w.stat[o], w.stat[p]))
  }

  /** The list runs from the least to the most recently leased. */
  predicate Recency(s: seq<Import>, usedAt: map<nat, nat>, clock: nat) {
    && (forall i :: 0 <= i < |s| ==> s[i].id in usedAt && usedAt[s[i].id] < clock)
    && (forall i, j :: 0 <= i < j < |s| ==> usedAt[s[i].id] < usedAt[s[j].id])
  }

  predicate Inv(w: World) {
    && KernelSound(w)
    && WellFormed(w.cache)
    && Separate(w.cache)
    && (forall i :: 0 <= i < |w.cache| ==> Pins(w, w.cache[i]))
    && Recency(w.cache, w.usedAt, w.clock)
  }

  /** Same entry, whatever its leases and its retirement. */
  predicate Derived(e: Import, d: Import) {
    e == d.(users := e.users, retired := e.retired)
  }

  /** Position the request takes out of the list: the hit, the eviction, or none. */
  function DropAt(s: seq<Import>, fd: int, identity: Identity, param: Param): (k: nat)
    ensures k <= |s|
  {
    var k := HitAt(s, fd, identity, param);
    var p := PassedAll(s, fd, identity, param);
    if k < |s| then k
    else if MustEvict(p) && VictimOf(p).Some? then VictimOf(p).value
    else |s|
  }

  function Source(drop: nat, i: nat): nat {
    if i < drop then i else i + 1
  }

  /** Positions of the new list that come from the old one. */
  function Kept(r: Request): nat
    requires r.leased.Some? ==> |r.list| > 0
  {
    if r.leased.Some? then |r.list| - 1 else |r.list|
  }

  /** One entry is taken out, the others keep their order, one may be appended at the end. */
  predicate Laid(s: seq<Import>, r: Request, drop: nat, id: nat) {
    && (r.leased.Some? ==> |r.list| > 0 && r.list[|r.list| - 1] == r.leased.value)
    && (forall i :: 0 <= i < Kept(r) ==> Source(drop, i) < |s| && Derived(r.list[i], s[Source(drop, i)]))
    && (r.released.Some? ==> drop < |s| && Derived(r.released.value, s[drop]))
    && (r.leased.Some? && r.leased.value.id != id ==>
          drop < |s| && Derived(r.leased.value, s[drop]) && r.released.None?)
  }

  lemma HitLayout(s: seq<Import>, fd: int, identity: Identity, param: Param,
                  dup: int, handle: nat, id: nat)
    requires HitAt(s, fd, identity, param) < |s|
    ensures Laid(s, Requested(s, fd, identity, param, dup, handle, id), DropAt(s, fd, identity, param), id)
  {
    var k := HitAt(s, fd, identity, param);
    var r := Requested(s, fd, identity, param, dup, handle, id);
    forall i | 0 <= i < Kept(r) ensures Source(k, i) < |s| && Derived(r.list[i], s[Source(k, i)]) {
      if i < k { assert r.list[i] == Passed(s[i], fd, identity, param); }
    }
  }

  lemma WithoutSource(p: seq<Import>, k: nat)
    requires k < |p|
    ensures |Without(p, k)| == |p| - 1
    ensures forall i :: 0 <= i < |p| - 1 ==> Without(p, k)[i] == p[Source(k, i)]
  {}

  /** What a miss leaves when entry `drop` (or none, at |p|) is evicted. */
  lemma MissLayout(s: seq<Import>, p: seq<Import>, drop: nat, q: seq<Import>, r: Request, id: nat)
    requires |p| == |s| && forall i :: 0 <= i < |s| ==> Derived(p[i], s[i])
    requires drop <= |p| && q == (if drop < |p| then Without(p, drop) else p)
    requires r.released == (if drop < |p| then Some(p[drop]) else None)
    requires r.list == q + (if r.leased.Some? then [r.leased.value] else [])
    requires r.leased.Some? ==> r.leased.value.id == id
    ensures Laid(s, r, drop, id)
  {
    if drop < |p| { WithoutSource(p, drop); }
    forall i | 0 <= i < Kept(r) ensures Source(drop, i) < |s| && Derived(r.list[i], s[Source(drop, i)]) {
      assert r.list[i] == q[i] == p[Source(drop, i)];
    }
  }

  lemma RequestLayout(s: seq<Import>, fd: int, identity: Identity, param: Param,
                      dup: int, handle: nat, id: nat)
    requires FreshId(s, id)
    ensures var r := Requested(s, fd, identity, param, dup, handle, id);
            && Laid(s, r, DropAt(s, fd, identity, param), id)
            && (r.leased.Some? && r.leased.value.id == id ==>
                  r.leased.value == Import(id, fd, dup, identity, param, handle, 1, false))
  {
    if HitAt(s, fd, identity, param) < |s| {
      HitLayout(s, fd, identity, param, dup, handle, id);
      assert s[HitAt(s, fd, identity, param)].id != id;
    } else {
      var p := PassedAll(s, fd, identity, param);
      var drop := DropAt(s, fd, identity, param);
      MissLayout(s, p, drop, if drop < |p| then Without(p, drop) else p,
                 Requested(s, fd, identity, param, dup, handle, id), id);
    }
  }

  /** An entry other than the released one keeps pinning its object through the request. */
  lemma StillPins(w: World, v: World, gone: Option<Import>, e: Import, d: Import, dup: int, handle: nat)
    requires Pins(w, d) && Derived(e, d)
    requires gone.Some? ==> d.ownedFd != gone.value.ownedFd && d.handle != gone.value.handle
    requires v.stat == w.stat && v.nextId >= w.nextId
    requires dup !in Release(w, gone).fds && handle !in Release(w, gone).handles
    requires forall fd :: fd in Release(w, gone).fds ==> fd in v.fds && v.fds[fd] == w.fds[fd]
    requires forall h :: h in Release(w, gone).handles ==> h in v.handles && v.handles[h] == w.handles[h]
    ensures Pins(v, e) && e.ownedFd != dup && e.handle != handle
  {}

  lemma AskKeptPins(w: World, a: Action)
    requires Inv(w) && a.Ask? && a.fd in w.fds && w.fds[a.fd] in w.stat && Enabled(w, a)
    requires Laid(w.cache, RequestIn(w, a), DropAt(w.cache, a.fd, w.stat[w.fds[a.fd]], a.param), w.nextId)
    ensures var r := RequestIn(w, a);
            forall i :: 0 <= i < Kept(r) ==>
              Pins(Asked(w, a), r.list[i]) && r.list[i].ownedFd != a.dup && r.list[i].handle != a.handle
  {
    var r := RequestIn(w, a);
    var v := Asked(w, a);
    var drop := DropAt(w.cache, a.fd, w.stat[w.fds[a.fd]], a.param);
    forall i | 0 <= i < Kept(r)
      ensures Pins(v, r.list[i]) && r.list[i].ownedFd != a.dup && r.list[i].handle != a.handle
    {
      var d := w.cache[Source(drop, i)];
      assert Pins(w, d) && Derived(r.list[i], d);
      StillPins(w, v, r.released, r.list[i], d, a.dup, a.handle);
    }
  }

  lemma AskLeasedPins(w: World, a: Action)
    requires Inv(w) && a.Ask? && a.fd in w.fds && w.fds[a.fd] in w.stat && Enabled(w, a)
    requires Laid(w.cache, RequestIn(w, a), DropAt(w.cache, a.fd, w.stat[w.fds[a.fd]], a.param), w.nextId)
    requires RequestIn(w, a).leased.Some?
    ensures Pins(Asked(w, a), RequestIn(w, a).leased.value)
  {
    var r := RequestIn(w, a);
    RequestLayout(w.cache, a.fd, w.stat[w.fds[a.fd]], a.param, a.dup, a.handle, w.nextId);
    if r.leased.value.id != w.nextId {
      var d := w.cache[DropAt(w.cache, a.fd, w.stat[w.fds[a.fd]], a.param)];
      assert Pins(w, d);
      StillPins(w, Asked(w, a), None, r.leased.value, d, a.dup, a.handle);
    }
  }

  /** Entries that come from different places of a separate list are separate. */
  lemma DerivedSeparate(s: seq<Import>, t: seq<Import>, drop: nat)
    requires Separate(s)
    requires forall i :: 0 <= i < |t| ==> Source(drop, i) < |s| && Derived(t[i], s[Source(drop, i)])
    ensures Separate(t)
  {
    forall i, j | 0 <= i < j < |t| ensures t[i].ownedFd != t[j].ownedFd && t[i].handle != t[j].handle {
      assert Source(drop, i) < Source(drop, j);
    }
  }

  lemma AppendSeparate(t: seq<Import>, e: Import)
    requires Separate(t)
    requires forall i :: 0 <= i < |t| ==> t[i].ownedFd != e.ownedFd && t[i].handle != e.handle
    ensures Separate(t + [e])
  {}

  lemma LaidSeparate(s: seq<Import>, r: Request, drop: nat, id: nat)
    requires Separate(s) && Laid(s, r, drop, id)
    requires r.leased.Some? && r.leased.value.id == id ==>
               forall i :: 0 <= i < Kept(r) ==>
                 r.list[i].ownedFd != r.leased.value.ownedFd && r.list[i].handle != r.leased.value.handle
    ensures Separate(r.list)
  {
    var t := r.list[..Kept(r)];
    DerivedSeparate(s, t, drop);
    if r.leased.Some? {
      var e := r.leased.value;
      forall i | 0 <= i < |t| ensures t[i].ownedFd != e.ownedFd && t[i].handle != e.handle {
        assert Derived(r.list[i], s[Source(drop, i)]);
      }
      AppendSeparate(t, e);
      assert r.list == t + [e];
    } else {
      assert r.list == t;
    }
  }

  lemma DerivedRecency(s: seq<Import>, t: seq<Import>, drop: nat, usedAt: map<nat, nat>, clock: nat)
    requires Recency(s, usedAt, clock)
    requires forall i :: 0 <= i < |t| ==> Source(drop, i) < |s| && Derived(t[i], s[Source(drop, i)])
    ensures Recency(t, usedAt, clock)
  {
    forall i, j | 0 <= i < j < |t| ensures usedAt[t[i].id] < usedAt[t[j].id] {
      assert Source(drop, i) < Source(drop, j);
    }
  }

  lemma AppendRecency(t: seq<Import>, e: Import, usedAt: map<nat, nat>, clock: nat)
    requires Recency(t, usedAt, clock)
    requires forall i :: 0 <= i < |t| ==> t[i].id != e.id
    ensures Recency(t + [e], usedAt[e.id := clock], clock + 1)
  {}

  lemma LaidRecency(s: seq<Import>, r: Request, drop: nat, id: nat, usedAt: map<nat, nat>, clock: nat)
    requires Recency(s, usedAt, clock) && Laid(s, r, drop, id) && Unique(r.list)
    ensures if r.leased.Some? then Recency(r.list, usedAt[r.leased.value.id := clock], clock + 1)
            else Recency(r.list, usedAt, clock)
  {
    var t := r.list[..Kept(r)];
    DerivedRecency(s, t, drop, usedAt, clock);
    if r.leased.Some? {
      AppendRecency(t, r.leased.value, usedAt, clock);
      assert r.list == t + [r.leased.value];
    } else {
      assert r.list == t;
    }
  }

  lemma AskKeepsInv(w: World, a: Action)
    requires Inv(w) && a.Ask? && a.fd in w.fds && w.fds[a.fd] in w.stat && Enabled(w, a)
    ensures Inv(Asked(w, a))
  {
    RequestKeepsWellFormed(w.cache, a.fd, w.stat[w.fds[a.fd]], a.param, a.dup, a.handle, w.nextId);
    RequestLayout(w.cache, a.fd, w.stat[w.fds[a.fd]], a.param, a.dup, a.handle, w.nextId);
    var r := RequestIn(w, a);
    var drop := DropAt(w.cache, a.fd, w.stat[w.fds[a.fd]], a.param);
    AskKeptPins(w, a);
    if r.leased.Some? { AskLeasedPins(w, a); }
    LaidSeparate(w.cache, r, drop, w.nextId);
    LaidRecency(w.cache, r, drop, w.nextId, w.usedAt, w.clock);
  }

  /** Cleared keeps the leased entries, in order. */
  lemma {:induction false} ClearedSource(s: seq<Import>) returns (source: seq<nat>)
    ensures |source| == |Cleared(s)|
    ensures forall i :: 0 <= i < |source| ==> source[i] < |s| && !Idle(s[source[i]])
                                              && Derived(Cleared(s)[i], s[source[i]])
    ensures forall i, j :: 0 <= i < j < |source| ==> source[i] < source[j]
    decreases |s|
  {
    if s == [] { return []; }
    var rest := ClearedSource(s[1..]);
    source := seq(|rest|, i requires 0 <= i < |rest| => rest[i] + 1);
    if !Idle(s[0]) { source := [0] + source; }
  }

  lemma InvalidateKeepsInv(w: World)
    requires Inv(w)
    ensures Inv(Step(w, Invalidate))
  {
    var v := Step(w, Invalidate);
    ClearKeepsWellFormed(w.cache);
    var source := ClearedSource(w.cache);
    forall i | 0 <= i < |v.cache| ensures Pins(v, v.cache[i]) {
      var d := w.cache[source[i]];
      assert Pins(w, d);
      assert d.ownedFd !in IdleFds(w.cache);
      assert d.handle !in IdleHandles(w.cache);
    }
  }

  /** Opening, closing, duplicating and reclaiming never touch what the cache pins. */
  lemma KernelStepKeepsInv(w: World, a: Action)
    requires Inv(w) && Enabled(w, a) && (a.Open? || a.Close? || a.Duplicate? || a.Reclaim?)
    ensures Inv(Step(w, a))
  {
    var v := Step(w, a);
    forall i | 0 <= i < |w.cache| ensures Pins(v, w.cache[i]) {
      assert Pins(w, w.cache[i]);
      assert w.fds[w.cache[i].ownedFd] in w.fds.Values;
    }
    assert KernelSound(v) by {
      forall fd | fd in v.fds ensures v.fds[fd] in v.stat {
        if fd in w.fds { assert w.fds[fd] in w.fds.Values; }
      }
    }
  }

  lemma ReturnKeepsInv(w: World, a: Action)
    requires Inv(w) && Enabled(w, a) && a.Return?
    ensures Inv(Step(w, a))
  {
    var v := Step(w, a);
    forall i | 0 <= i < |v.cache| ensures Pins(v, v.cache[i]) && v.cache[i].users >= 0 {
      assert Pins(w, w.cache[i]);
      assert Derived(v.cache[i], w.cache[i]);
    }
  }

  lemma StepKeepsInv(w: World, a: Action)
    requires Inv(w) && Enabled(w, a)
    ensures Inv(Step(w, a))
  {
    match a
    case Ask(fd, param, dup, handle) =>
      if fd in w.fds && w.fds[fd] in w.stat { AskKeepsInv(w, a); }
    case Invalidate => InvalidateKeepsInv(w);
    case Return(_) => ReturnKeepsInv(w, a);
    case _ => KernelStepKeepsInv(w, a);
  }

  lemma {:induction false} RunKeepsInv(w: World, actions: seq<Action>, last: World)
    requires Inv(w) && Run(w, actions, last)
    ensures Inv(last)
    decreases |actions|
  {
    if actions != [] {
      StepKeepsInv(w, actions[0]);
      RunKeepsInv(Step(w, actions[0]), actions[1..], last);
    }
  }

  /** In every reachable process, whatever was closed, reused or recycled before, the handle a
      request leases was made from the very object the descriptor names now, for the very layout asked. */
  lemma CacheAgreesWithFreshImport(actions: seq<Action>, w: World, a: Action)
    requires Run(Start, actions, w) && a.Ask? && Enabled(w, a)
    requires a.fd in w.fds && w.fds[a.fd] in w.stat
    ensures var r := RequestIn(w, a);
            var v := Step(w, a);
            r.leased.Some? ==>
              && r.leased.value.handle in v.handles
              && v.handles[r.leased.value.handle] == Imported(w.fds[a.fd], a.param)
  {
    RunKeepsInv(Start, actions, w);
    StepKeepsInv(w, a);
    var r := RequestIn(w, a);
    var v := Step(w, a);
    RequestKeepsWellFormed(w.cache, a.fd, w.stat[w.fds[a.fd]], a.param, a.dup, a.handle, w.nextId);
    RequestLayout(w.cache, a.fd, w.stat[w.fds[a.fd]], a.param, a.dup, a.handle, w.nextId);
    if r.leased.Some? {
      assert Pins(v, v.cache[|v.cache| - 1]);
      if r.leased.value.id != w.nextId {
        var d := w.cache[DropAt(w.cache, a.fd, w.stat[w.fds[a.fd]], a.param)];
        assert Pins(w, d);
        assert SameInode(w.stat[w.fds[d.ownedFd]], w.stat[w.fds[a.fd]]);
      }
    }
  }

  /** A live entry that is evicted is the least recently used of all idle entries, and the list was full. */
  lemma EvictionIsLeastRecentlyUsed(actions: seq<Action>, w: World, a: Action)
    requires Run(Start, actions, w) && a.Ask? && Enabled(w, a)
    requires a.fd in w.fds && w.fds[a.fd] in w.stat
    requires RequestIn(w, a).released.Some? && !RequestIn(w, a).released.value.retired
    ensures |w.cache| == CACHE_MAX
    ensures RequestIn(w, a).released.value.id in w.usedAt
    ensures forall e :: e in w.cache && Idle(e) ==>
              e.id in w.usedAt && w.usedAt[RequestIn(w, a).released.value.id] <= w.usedAt[e.id]
  {
    RunKeepsInv(Start, actions, w);
    EvictedIsOldest(w.cache, a.fd, w.stat[w.fds[a.fd]], a.param, a.dup, a.handle, w.nextId, w.usedAt, w.clock);
  }

  lemma EvictedIsOldest(s: seq<Import>, fd: int, identity: Identity, param: Param, dup: int, handle: nat, id: nat,
                        usedAt: map<nat, nat>, clock: nat)
    requires WellFormed(s) && FreshId(s, id) && Recency(s, usedAt, clock)
    requires var gone := Requested(s, fd, identity, param, dup, handle, id).released;
             gone.Some? && !gone.value.retired
    ensures |s| == CACHE_MAX
    ensures var gone := Requested(s, fd, identity, param, dup, handle, id).released.value;
            gone.id in usedAt && forall e :: e in s && Idle(e) ==> e.id in usedAt && usedAt[gone.id] <= usedAt[e.id]
  {
    var p := PassedAll(s, fd, identity, param);
    VictimMeaning(p);
    VictimIsOldest(s, p, VictimOf(p).value, usedAt, clock);
  }

  lemma VictimIsOldest(s: seq<Import>, p: seq<Import>, v: nat, usedAt: map<nat, nat>, clock: nat)
    requires |p| == |s| && v < |p| && Recency(s, usedAt, clock)
    requires forall i :: 0 <= i < |s| ==> Derived(p[i], s[i]) && (Idle(s[i]) <==> Idle(p[i]))
    requires BestVictim(p, v) && !p[v].retired
    ensures p[v].id in usedAt
    ensures forall e :: e in s && Idle(e) ==> e.id in usedAt && usedAt[p[v].id] <= usedAt[e.id]
  {
    forall i | 0 <= i < |s| && Idle(s[i])
      ensures s[i].id in usedAt && usedAt[p[v].id] <= usedAt[s[i].id]
    {
      assert Idle(p[i]);
      assert v <= i;
    }
  }
}
