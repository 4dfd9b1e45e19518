/** The LRU cache of DMA-BUF imports (gst/rockchiprga/gstrgaconvert.c:459-567).

    The list runs from the least recently to the most recently used entry. Every entry
    carries the descriptor it was looked up by, the private duplicate that pins the
    object, and the number of leases that frame records and submits hold on it. */
module ImportCache {
  import opened Options

  const CACHE_MAX := 32

  /** st_dev, st_ino and st_size of a descriptor. */
  datatype Identity = Identity(dev: nat, ino: nat, size: int)

  datatype Param = Param(width: nat, height: nat, format: nat)

  /** `id` stands for the entry's address. */
  datatype Import = Import(id: nat, fd: int, ownedFd: int, identity: Identity, param: Param,
                           handle: nat, users: int, retired: bool)

  predicate Agrees(e: Import, identity: Identity, param: Param) {
    e.identity == identity && e.param == param
  }

  predicate Hits(e: Import, fd: int, identity: Identity, param: Param) {
    e.fd == fd && !e.retired && Agrees(e, identity, param)
  }

  /** What passing an entry does to it: a live entry of this descriptor that disagrees is retired. */
  function Passed(e: Import, fd: int, identity: Identity, param: Param): Import {
    if e.fd == fd && !e.retired && !Agrees(e, identity, param) then e.(retired := true) else e
  }

  function PassedAll(s: seq<Import>, fd: int, identity: Identity, param: Param): (r: seq<Import>)
    ensures |r| == |s|
    ensures forall i :: 0 <= i < |s| ==> r[i] == Passed(s[i], fd, identity, param)
  {
    seq(|s|, i requires 0 <= i < |s| => Passed(s[i], fd, identity, param))
  }

  /** Position of the first hit, or |s|. */
  function HitAt(s: seq<Import>, fd: int, identity: Identity, param: Param): (k: nat)
    ensures k <= |s|
    ensures k < |s| ==> Hits(s[k], fd, identity, param)
    ensures forall i :: 0 <= i < k ==> !Hits(s[i], fd, identity, param)
  {
    if s == [] then 0
    else if Hits(s[0], fd, identity, param) then 0
    else 1 + HitAt(s[1..], fd, identity, param)
  }

  /** The entry the walk leaves selected for eviction. */
  function VictimOf(s: seq<Import>): (v: Option<nat>)
    ensures v.Some? ==> v.value < |s| && s[v.value].users == 0
  {
    if s == [] then None
    else
      var v := VictimOf(s[..|s| - 1]);
      var e := s[|s| - 1];
      if e.users == 0 && (v.None? || e.retired) then Some(|s| - 1) else v
  }

  predicate Idle(e: Import) { e.users == 0 }

  lemma {:induction false} VictimExists(s: seq<Import>)
    ensures VictimOf(s).None? <==> forall i :: 0 <= i < |s| ==> !Idle(s[i])
  {
    if s != [] {
      var t := s[..|s| - 1];
      VictimExists(t);
      assert forall i :: 0 <= i < |t| ==> s[i] == t[i];
    }
  }

  lemma {:induction false} VictimPrefersRetired(s: seq<Import>, i: nat)
    requires i < |s| && Idle(s[i]) && s[i].retired
    ensures VictimOf(s).Some? && s[VictimOf(s).value].retired
  {
    var t := s[..|s| - 1];
    if i < |t| {
      assert t[i] == s[i];
      VictimPrefersRetired(t, i);
    }
  }

  lemma {:induction false} VictimIsFirstIdle(s: seq<Import>)
    ensures VictimOf(s).Some? && !s[VictimOf(s).value].retired
            ==> forall i :: 0 <= i < VictimOf(s).value ==> !Idle(s[i])
  {
    if s != [] {
      var t := s[..|s| - 1];
      VictimIsFirstIdle(t);
      VictimExists(t);
      assert forall i :: 0 <= i < |t| ==> s[i] == t[i];
    }
  }

  /** The walk's choice is an idle retired entry whenever one exists, otherwise the idle
      entry nearest the head (the least recently used one), otherwise nothing. */
  lemma VictimMeaning(s: seq<Import>)
    ensures VictimOf(s).None? <==> forall i :: 0 <= i < |s| ==> !Idle(s[i])
    ensures (exists i :: 0 <= i < |s| && Idle(s[i]) && s[i].retired)
            ==> VictimOf(s).Some? && s[VictimOf(s).value].retired
    ensures VictimOf(s).Some? && !s[VictimOf(s).value].retired
            ==> forall i :: 0 <= i < VictimOf(s).value ==> !Idle(s[i])
  {
    VictimExists(s);
    VictimIsFirstIdle(s);
    if i: nat :| i < |s| && Idle(s[i]) && s[i].retired {
      VictimPrefersRetired(s, i);
    }
  }

  function Without(s: seq<Import>, k: nat): seq<Import>
    requires k < |s|
  {
    s[..k] + s[k + 1..]
  }

  /** Whether a miss that left `s` behind must evict before it may insert. */
  predicate MustEvict(s: seq<Import>) {
    |s| == CACHE_MAX || (VictimOf(s).Some? && s[VictimOf(s).value].retired)
  }

  /** Result of one request: the new list, the leased entry and the entry released on the way. */
  datatype Request = Request(list: seq<Import>, leased: Option<Import>, released: Option<Import>)

  /** What a miss does once the walk has left `p`: evict if it must, and insert `e` if the import worked. */
  function Missed(p: seq<Import>, e: Import, imported: bool): Request {
    var v := VictimOf(p);
    if MustEvict(p) && v.None? then Request(p, None, None)
    else
      var q := if MustEvict(p) then Without(p, v.value) else p;
      var gone := if MustEvict(p) then Some(p[v.value]) else None;
      if imported then Request(q + [e], Some(e), gone) else Request(q, None, gone)
  }

  /** The whole request. `dup` and `handle` are what fcntl and importbuffer_fd answer
      (a negative duplicate and a zero handle are their failures); `id` is the address a new entry gets. */
  function Requested(s: seq<Import>, fd: int, identity: Identity, param: Param,
                     dup: int, handle: nat, id: nat): Request
  {
    var k := HitAt(s, fd, identity, param);
    if k < |s| then
      var e := s[k].(users := s[k].users + 1);
      Request(PassedAll(s[..k], fd, identity, param) + s[k + 1..] + [e], Some(e), None)
    else
      Missed(PassedAll(s, fd, identity, param),
             Import(id, fd, dup, identity, param, handle, 1, false), dup >= 0 && handle != 0)
  }

  /** Dropping one lease of entry `id`; nothing is released here. */
  function Put(s: seq<Import>, id: nat): (r: seq<Import>)
    ensures |r| == |s|
    ensures forall i :: 0 <= i < |s| ==>
              r[i] == if s[i].id == id then s[i].(users := s[i].users - 1) else s[i]
  {
    seq(|s|, i requires 0 <= i < |s| => if s[i].id == id then s[i].(users := s[i].users - 1) else s[i])
  }

  /** Invalidation: everything is retired, idle entries leave the list. */
  function Cleared(s: seq<Import>): (r: seq<Import>) {
    if s == [] then []
    else if Idle(s[0]) then Cleared(s[1..])
    else [s[0].(retired := true)] + Cleared(s[1..])
  }

  predicate Unique(s: seq<Import>) {
    forall i, j :: 0 <= i < j < |s| ==> s[i].id != s[j].id
  }

  /** At most one live entry answers for a descriptor. */
  predicate OneLivePerFd(s: seq<Import>) {
    forall i, j :: 0 <= i < j < |s| && !s[i].retired && !s[j].retired ==> s[i].fd != s[j].fd
  }

  predicate WellFormed(s: seq<Import>) {
    && |s| <= CACHE_MAX
    && Unique(s)
    && OneLivePerFd(s)
    && forall i :: 0 <= i < |s| ==> s[i].users >= 0
  }

  predicate FreshId(s: seq<Import>, id: nat) {
    forall i :: 0 <= i < |s| ==> s[i].id != id
  }

  lemma {:induction false} ClearedMembers(s: seq<Import>)
    ensures |Cleared(s)| <= |s|
    ensures forall e :: e in Cleared(s) <==> exists d :: d in s && !Idle(d) && e == d.(retired := true)
    ensures forall e :: e in Cleared(s) ==> e.retired && !Idle(e)
    decreases |s|
  {
    if s != [] {
      ClearedMembers(s[1..]);
      assert s == [s[0]] + s[1..];
    }
  }

  lemma {:induction false} ClearedUnique(s: seq<Import>)
    requires Unique(s)
    ensures Unique(Cleared(s))
    decreases |s|
  {
    if s != [] {
      assert Unique(s[1..]);
      ClearedUnique(s[1..]);
      ClearedMembers(s[1..]);
      if !Idle(s[0]) {
        var r := Cleared(s[1..]);
        forall j | 0 <= j < |r| ensures r[j].id != s[0].id {
          assert r[j] in r;
          var d :| d in s[1..] && !Idle(d) && r[j] == d.(retired := true);
        }
      }
    }
  }

  lemma PassedKeepsWellFormed(s: seq<Import>, fd: int, identity: Identity, param: Param)
    requires WellFormed(s)
    ensures WellFormed(PassedAll(s, fd, identity, param))
    ensures HitAt(s, fd, identity, param) == |s| ==>
              forall e :: e in PassedAll(s, fd, identity, param) && e.fd == fd ==> e.retired
  {
    var p := PassedAll(s, fd, identity, param);
    forall i | 0 <= i < |p| && p[i].fd == fd && HitAt(s, fd, identity, param) == |s|
      ensures p[i].retired
    {
      assert !Hits(s[i], fd, identity, param);
    }
  }

  lemma RemovalKeepsWellFormed(s: seq<Import>, k: nat)
    requires WellFormed(s) && k < |s|
    ensures WellFormed(Without(s, k))
    ensures forall e :: e in Without(s, k) ==> e in s
  {}

  lemma InsertionKeepsWellFormed(s: seq<Import>, e: Import)
    requires WellFormed(s) && |s| < CACHE_MAX && e.users >= 0
    requires forall d :: d in s ==> d.id != e.id && (d.fd == e.fd ==> d.retired)
    ensures WellFormed(s + [e])
  {}

  lemma MissedKeepsWellFormed(p: seq<Import>, e: Import, imported: bool)
    requires WellFormed(p) && e.users >= 0
    requires forall d :: d in p ==> d.id != e.id && (d.fd == e.fd ==> d.retired)
    ensures WellFormed(Missed(p, e, imported).list)
  {
    var v := VictimOf(p);
    if MustEvict(p) && v.Some? {
      var q := Without(p, v.value);
      RemovalKeepsWellFormed(p, v.value);
      InsertionKeepsWellFormed(q, e);
    } else if |p| < CACHE_MAX {
      InsertionKeepsWellFormed(p, e);
    }
  }

  /** A hit moves its entry to the most recently used end. */
  lemma HitKeepsWellFormed(s: seq<Import>, k: nat, fd: int, identity: Identity, param: Param)
    requires WellFormed(s) && k < |s| && Hits(s[k], fd, identity, param)
    requires forall i :: 0 <= i < k ==> !Hits(s[i], fd, identity, param)
    ensures WellFormed(PassedAll(s[..k], fd, identity, param) + s[k + 1..] + [s[k].(users := s[k].users + 1)])
  {
    var rest := Without(s, k);
    RemovalKeepsWellFormed(s, k);
    assert PassedAll(s[..k], fd, identity, param) == s[..k];
    InsertionKeepsWellFormed(rest, s[k].(users := s[k].users + 1));
  }

  /** A request keeps the list bounded, its addresses unique and its live descriptors distinct;
      what it leases is live, agrees with the request and sits at the most recently used end. */
  lemma RequestKeepsWellFormed(s: seq<Import>, fd: int, identity: Identity, param: Param,
                               dup: int, handle: nat, id: nat)
    requires WellFormed(s) && FreshId(s, id)
    ensures WellFormed(Requested(s, fd, identity, param, dup, handle, id).list)
    ensures var r := Requested(s, fd, identity, param, dup, handle, id);
            r.leased.Some? ==>
              && |r.list| > 0 && r.list[|r.list| - 1] == r.leased.value
              && Hits(r.leased.value, fd, identity, param)
              && r.leased.value.users >= 1
  {
    var k := HitAt(s, fd, identity, param);
    if k < |s| {
      HitKeepsWellFormed(s, k, fd, identity, param);
    } else {
      var p := PassedAll(s, fd, identity, param);
      PassedKeepsWellFormed(s, fd, identity, param);
      assert forall d :: d in p ==> d.id != id;
      MissedKeepsWellFormed(p, Import(id, fd, dup, identity, param, handle, 1, false), dup >= 0 && handle != 0);
    }
  }

  /** Invalidation leaves only leased entries, all of them retired. */
  lemma ClearKeepsWellFormed(s: seq<Import>)
    requires WellFormed(s)
    ensures WellFormed(Cleared(s))
    ensures forall e :: e in Cleared(s) ==> e.retired && e.users > 0
  {
    ClearedMembers(s);
    ClearedUnique(s);
    var r := Cleared(s);
    forall i | 0 <= i < |r| ensures r[i].users > 0 && r[i].retired {
      assert r[i] in r;
      var d :| d in s && !Idle(d) && r[i] == d.(retired := true);
    }
  }

  predicate BestVictim(p: seq<Import>, v: nat)
    requires v < |p|
  {
    && Idle(p[v])
    && ((exists i :: 0 <= i < |p| && Idle(p[i]) && p[i].retired) ==> p[v].retired)
    && (!p[v].retired ==> |p| == CACHE_MAX && forall i :: 0 <= i < v ==> !Idle(p[i]))
  }

  /** A retired entry is never handed out again, and an eviction takes an idle entry:
      a retired one whenever the walk leaves one idle, otherwise the oldest idle one of a full list. */
  lemma EvictionPolicy(s: seq<Import>, fd: int, identity: Identity, param: Param,
                       dup: int, handle: nat, id: nat)
    requires WellFormed(s) && FreshId(s, id)
    ensures var r := Requested(s, fd, identity, param, dup, handle, id);
            var p := PassedAll(s, fd, identity, param);
            && (HitAt(s, fd, identity, param) < |s| ==> r.released.None?)
            && (HitAt(s, fd, identity, param) == |s| ==>
                 && (r.released.None? <==>
                      (forall i :: 0 <= i < |p| && Idle(p[i]) ==> !p[i].retired && |p| < CACHE_MAX))
                 && (r.released.Some? ==> exists v :: 0 <= v < |p| && r.released == Some(p[v]) && BestVictim(p, v)))
    ensures var r := Requested(s, fd, identity, param, dup, handle, id);
            r.leased.Some? ==> forall e :: e in s && e.retired ==> e.id != r.leased.value.id
  {
    var p := PassedAll(s, fd, identity, param);
    VictimMeaning(p);
    var k := HitAt(s, fd, identity, param);
    if k == |s| {
      var r := Requested(s, fd, identity, param, dup, handle, id);
      if r.released.Some? {
        var v := VictimOf(p).value;
        assert r.released == Some(p[v]) && BestVictim(p, v);
      } else if exists i :: 0 <= i < |p| && Idle(p[i]) {
        assert VictimOf(p).Some?;
        assert !MustEvict(p);
      }
    }
  }

  /** The list as the element holds it: one field, updated in place. */
  class ImportList {
    var imports: seq<Import>

    constructor ()
      ensures imports == []
    {
      imports := [];
    }

    /** The walk over the list: stops at a hit, retires what it passes, selects a victim. */
    method Walk(fd: int, identity: Identity, param: Param) returns (hit: Option<nat>, victim: Option<nat>)
      modifies this
      ensures hit.Some? <==> HitAt(old(imports), fd, identity, param) < |old(imports)|
      ensures hit.Some? ==> hit.value == HitAt(old(imports), fd, identity, param)
      ensures hit.Some? ==>
                imports == PassedAll(old(imports)[..hit.value], fd, identity, param) + old(imports)[hit.value..]
      ensures hit.None? ==> imports == PassedAll(old(imports), fd, identity, param) && victim == VictimOf(imports)
    {
      ghost var was := imports;
      victim := None;
      var i := 0;
      while i < |imports|
        invariant 0 <= i <= |imports| == |was|
        invariant forall j :: 0 <= j < i ==> imports[j] == Passed(was[j], fd, identity, param)
        invariant forall j :: i <= j < |was| ==> imports[j] == was[j]
        invariant i <= HitAt(was, fd, identity, param)
        invariant victim == VictimOf(imports[..i])
      {
        HitHere(was, i, fd, identity, param);
        var entry := imports[i];
        if entry.fd == fd && !entry.retired {
          if entry.identity == identity && entry.param == param { return Some(i), victim; }
          entry := entry.(retired := true);
          imports := imports[i := entry];
        }
        assert imports[..i + 1][..i] == imports[..i];
        if entry.users == 0 && (victim.None? || entry.retired) {
          victim := Some(i);
        }
        i := i + 1;
      }
      hit := None;
      assert imports[..i] == imports;
    }

    /** gst_rga_convert_import_locked; `identity` is None when the cache is off or fstat fails. */
    method ImportLocked(fd: int, identity: Option<Identity>, param: Param, dup: int, handle: nat, id: nat)
      returns (leased: Option<Import>, released: Option<Import>)
      modifies this
      ensures identity.None? ==> imports == old(imports) && leased.None? && released.None?
      ensures identity.Some? ==>
                Request(imports, leased, released)
                == Requested(old(imports), fd, identity.value, param, dup, handle, id)
    {
      if identity.None? { return None, None; }
      var hit, victim := Walk(fd, identity.value, param);
      if hit.Some? {
        assert imports[..hit.value] == PassedAll(old(imports)[..hit.value], fd, identity.value, param);
        assert imports[hit.value..] == old(imports)[hit.value..];
        assert imports[hit.value + 1..] == imports[hit.value..][1..];
        var entry := imports[hit.value];
        entry := entry.(users := entry.users + 1);
        imports := imports[..hit.value] + imports[hit.value + 1..] + [entry];
        return Some(entry), None;
      }
      if |imports| == CACHE_MAX || (victim.Some? && imports[victim.value].retired) {
        if victim.None? { return None, None; }
        released := Some(imports[victim.value]);
        imports := imports[..victim.value] + imports[victim.value + 1..];
      } else {
        released := None;
      }
      if dup < 0 { return None, released; }
      if handle == 0 { return None, released; }
      var entry := Import(id, fd, dup, identity.value, param, handle, 1, false);
      imports := imports + [entry];
      leased := Some(entry);
    }

    /** gst_rga_import_put. */
    method PutLease(id: nat)
      modifies this
      ensures imports == Put(old(imports), id)
    {
      var i := 0;
      while i < |imports|
        invariant 0 <= i <= |imports| == |old(imports)|
        invariant forall j :: 0 <= j < |imports| ==>
                    imports[j] == if j < i then Put(old(imports), id)[j] else old(imports)[j]
      {
        if imports[i].id == id {
          imports := imports[i := imports[i].(users := imports[i].users - 1)];
        }
        i := i + 1;
      }
    }

    /** gst_rga_convert_clear_imports_locked; `freed` are the entries released, in list order. */
    method ClearLocked() returns (freed: seq<Import>)
      modifies this
      ensures imports == Cleared(old(imports))
      ensures |imports| + |freed| == |old(imports)|
      ensures forall e :: e in freed ==> e.retired && Idle(e)
    {
      freed := [];
      var i := 0;
      while i < |imports|
        invariant 0 <= i <= |imports|
        invariant |imports| + |freed| == |old(imports)|
        invariant imports[..i] + Cleared(imports[i..]) == Cleared(old(imports))
        invariant forall e :: e in freed ==> e.retired && Idle(e)
        decreases |imports| - i
      {
        var entry := imports[i].(retired := true);
        assert imports[i..][1..] == imports[i + 1..];
        if entry.users == 0 {
          freed := freed + [entry];
          assert (imports[..i] + imports[i + 1..])[i..] == imports[i + 1..];
          imports := imports[..i] + imports[i + 1..];
        } else {
          ghost var was := imports;
          imports := imports[i := entry];
          assert imports[i + 1..] == was[i + 1..];
          assert imports[..i + 1] == was[..i] + [entry];
          i := i + 1;
        }
      }
    }
  }

  /** The first position that hits is where the walk stops. */
  lemma {:induction false} HitHere(s: seq<Import>, i: nat, fd: int, identity: Identity, param: Param)
    requires i < |s| && i <= HitAt(s, fd, identity, param)
    ensures HitAt(s, fd, identity, param) == i <==> Hits(s[i], fd, identity, param)
  {}
}
