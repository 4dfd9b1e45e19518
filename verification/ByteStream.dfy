/** The byte stream recogniser (gst/rockchipmpp/gstmppdec.c:526-590) and its agreement with the
    length-prefixed one. */
module ByteStream {
  import opened ParameterSets

  /** A start code prefix begins here. */
  predicate CodeAt(d: Bytes, i: int) {
    0 <= i && i + 3 <= |d| && d[i] == 0 && d[i + 1] == 0 && d[i + 2] == 1
  }

  /** Position of the first start code prefix, or |d|. */
  function First(d: Bytes): (p: nat)
    ensures p <= |d| && (p < |d| ==> CodeAt(d, p))
    ensures forall i :: 0 <= i < p ==> !CodeAt(d, i)
    decreases |d|
  {
    if d == [] || CodeAt(d, 0) then 0
    else
      assert forall i :: 0 < i ==> CodeAt(d, i) == CodeAt(d[1..], i - 1);
      1 + First(d[1..])
  }

  lemma FirstIs(d: Bytes, p: nat)
    requires p <= |d| && (p < |d| ==> CodeAt(d, p)) && forall i :: 0 <= i < p ==> !CodeAt(d, i)
    ensures First(d) == p
  {
    var q := First(d);
    assert q < |d| ==> CodeAt(d, q);
    assert p < |d| ==> CodeAt(d, p);
  }

  /** Without its trailing zeros. */
  function Stripped(d: Bytes): (r: Bytes)
    ensures r <= d && (r != [] ==> r[|r| - 1] != 0)
    ensures forall i :: |r| <= i < |d| ==> d[i] == 0
  {
    if d == [] || d[|d| - 1] != 0 then d else Stripped(d[..|d| - 1])
  }

  predicate AllZero(d: Bytes) { forall i :: 0 <= i < |d| ==> d[i] == 0 }

  function Zeros(n: nat): (r: Bytes)
    ensures |r| == n && AllZero(r)
  {
    seq(n, _ => 0)
  }

  /** What follows a start code is parameter sets to the end. */
  predicate StreamRest(codec: Codec, d: Bytes)
    decreases |d|
  {
    var p := First(d);
    && IsParameterSet(codec, Stripped(d[..p]))
    && (p < |d| ==> StreamRest(codec, d[p + 3..]))
  }

  predicate StreamAu(codec: Codec, d: Bytes) {
    var p := First(d);
    p < |d| && AllZero(d[..p]) && StreamRest(codec, d[p + 3..])
  }

  // ---- printing

  /** A unit with the start code before it (four bytes when `long`) and the zero padding after it. */
  datatype Item = Item(long: bool, unit: Bytes, padding: nat)

  function Code(long: bool): Bytes { if long then [0, 0, 0, 1] else [0, 0, 1] }

  function PrintedItems(items: seq<Item>): Bytes {
    if items == [] then []
    else Code(items[0].long) + items[0].unit + Zeros(items[0].padding) + PrintedItems(items[1..])
  }

  /** The whole byte stream, with leading zeros. */
  function Printed(lead: nat, items: seq<Item>): Bytes { Zeros(lead) + PrintedItems(items) }

  function Units(items: seq<Item>): (r: seq<Bytes>)
    ensures |r| == |items| && forall i :: 0 <= i < |r| ==> r[i] == items[i].unit
  {
    seq(|items|, i requires 0 <= i < |items| => items[i].unit)
  }

  /** No embedded start code and a nonzero last byte. */
  predicate Clean(unit: Bytes) {
    unit != [] && unit[|unit| - 1] != 0 && forall i :: 0 <= i < |unit| ==> !CodeAt(unit, i)
  }

  predicate AllClean(units: seq<Bytes>) {
    forall u :: u in units ==> Clean(u)
  }

  /** Zeros before a start code, however many, lead to the same prefix. */
  lemma FirstAfterZeros(u: Bytes, n: nat, more: Bytes)
    requires u == [] || Clean(u)
    ensures First(u + Zeros(n) + [0, 0, 1] + more) == |u| + n
  {
    var d := u + Zeros(n) + [0, 0, 1] + more;
    forall i | 0 <= i < |u| + n ensures !CodeAt(d, i) {
      if i + 3 <= |u| {
        assert !CodeAt(u, i);
      } else if i < |u| {
        assert d[|u| - 1] == u[|u| - 1];
      }
    }
    FirstIs(d, |u| + n);
  }

  lemma NoneAfterClean(u: Bytes, n: nat)
    requires Clean(u)
    ensures First(u + Zeros(n)) == |u| + n
  {
    var d := u + Zeros(n);
    forall i | 0 <= i < |d| ensures !CodeAt(d, i) {
      if i + 3 <= |u| { assert !CodeAt(u, i); }
    }
    FirstIs(d, |d|);
  }

  lemma {:induction false} StripOne(d: Bytes)
    requires d != [] && d[|d| - 1] == 0
    ensures Stripped(d) == Stripped(d[..|d| - 1])
  {}

  lemma {:induction false} StrippedPadding(u: Bytes, n: nat)
    requires Clean(u)
    ensures Stripped(u + Zeros(n)) == u
    decreases n
  {
    var d := u + Zeros(n);
    if n == 0 {
      assert d == u;
    } else {
      StrippedPadding(u, n - 1);
      StripOne(d);
      assert d[..|d| - 1] == u + Zeros(n - 1);
    }
  }

  lemma ZerosAndCode(n: nat, long: bool, more: Bytes)
    ensures Zeros(n) + Code(long) + more == Zeros(if long then n + 1 else n) + [0, 0, 1] + more
  {}

  lemma RestIs(codec: Codec, d: Bytes, p: nat, u: Bytes, rest: Bytes)
    requires First(d) == p < |d| && Stripped(d[..p]) == u && d[p + 3..] == rest
    ensures StreamRest(codec, d) <==> IsParameterSet(codec, u) && StreamRest(codec, rest)
  {}

  lemma EndIs(codec: Codec, d: Bytes, u: Bytes)
    requires First(d) == |d| && Stripped(d) == u
    ensures StreamRest(codec, d) <==> IsParameterSet(codec, u)
  {
    assert d[..|d|] == d;
  }

  /** A clean unit, its padding and the next start code: the unit decides, then the rest does. */
  lemma UnitThenRest(codec: Codec, u: Bytes, n: nat, rest: Bytes)
    requires Clean(u)
    ensures StreamRest(codec, u + Zeros(n) + [0, 0, 1] + rest) <==> IsParameterSet(codec, u) && StreamRest(codec, rest)
  {
    var d := u + Zeros(n) + [0, 0, 1] + rest;
    FirstAfterZeros(u, n, rest);
    assert d[..|u| + n] == u + Zeros(n) && d[|u| + n + 3..] == rest;
    StrippedPadding(u, n);
    RestIs(codec, d, |u| + n, u, rest);
  }

  /** The last unit and its padding. */
  lemma LastUnit(codec: Codec, u: Bytes, n: nat)
    requires Clean(u)
    ensures StreamRest(codec, u + Zeros(n)) <==> IsParameterSet(codec, u)
  {
    NoneAfterClean(u, n);
    StrippedPadding(u, n);
    EndIs(codec, u + Zeros(n), u);
  }

  lemma AllOf(codec: Codec, item: Item, more: seq<Item>)
    ensures Units([item] + more) == [item.unit] + Units(more)
    ensures AllClean(Units([item] + more)) <==> Clean(item.unit) && AllClean(Units(more))
    ensures AllParameterSets(codec, Units([item] + more))
            <==> IsParameterSet(codec, item.unit) && AllParameterSets(codec, Units(more))
  {
    assert Units([item] + more) == [item.unit] + Units(more);
  }

  /** The stream behind the first start code. */
  function Tail(items: seq<Item>): (r: Bytes)
    requires items != []
    ensures PrintedItems(items) == Code(items[0].long) + r
  {
    items[0].unit + Zeros(items[0].padding) + PrintedItems(items[1..])
  }

  lemma TailOf(item: Item, more: seq<Item>)
    ensures Tail([item] + more) == item.unit + Zeros(item.padding) + PrintedItems(more)
  {
    assert ([item] + more)[1..] == more;
  }

  lemma Regroup<T>(a: seq<T>, b: seq<T>, c: seq<T>, d: seq<T>)
    ensures a + b + (c + d) == a + (b + c + d) && a + (b + c + d) == a + b + c + d
  {}

  /** Padding and a long start code are zeros and a short one. */
  lemma TailShape(item: Item, more: seq<Item>, z: nat)
    requires more != [] && z == if more[0].long then item.padding + 1 else item.padding
    ensures Tail([item] + more) == item.unit + Zeros(z) + [0, 0, 1] + Tail(more)
  {
    TailOf(item, more);
    var code, tail := Code(more[0].long), Tail(more);
    assert PrintedItems(more) == code + tail;
    Regroup(item.unit, Zeros(item.padding), code, tail);
    ZerosAndCode(item.padding, more[0].long, tail);
    Regroup(item.unit, Zeros(z), [0, 0, 1], tail);
  }

  lemma PrintedShape(lead: nat, items: seq<Item>, z: nat)
    requires items != [] && z == if items[0].long then lead + 1 else lead
    ensures Printed(lead, items) == [] + Zeros(z) + [0, 0, 1] + Tail(items)
  {
    ZerosAndCode(lead, items[0].long, Tail(items));
    assert Printed(lead, items) == Zeros(lead) + Code(items[0].long) + Tail(items);
  }

  lemma NextItem(codec: Codec, item: Item, more: seq<Item>)
    requires Clean(item.unit) && more != []
    ensures StreamRest(codec, Tail([item] + more))
            <==> IsParameterSet(codec, item.unit) && StreamRest(codec, Tail(more))
  {
    var z := if more[0].long then item.padding + 1 else item.padding;
    TailShape(item, more, z);
    UnitThenRest(codec, item.unit, z, Tail(more));
  }

  lemma {:induction false} StreamPrintedIsRecognised(codec: Codec, items: seq<Item>)
    requires items != [] && AllClean(Units(items))
    ensures StreamRest(codec, Tail(items)) <==> AllParameterSets(codec, Units(items))
    decreases |items|
  {
    var item, more := items[0], items[1..];
    assert items == [item] + more;
    AllOf(codec, item, more);
    if more == [] {
      assert Tail(items) == item.unit + Zeros(item.padding);
      LastUnit(codec, item.unit, item.padding);
    } else {
      NextItem(codec, item, more);
      StreamPrintedIsRecognised(codec, more);
    }
  }

  /** Printed with any mix of start codes, padding and leading zeros, a list of clean units is recognised
      exactly when it is not empty and every unit is a parameter set. */
  lemma StreamAuOfPrinted(codec: Codec, lead: nat, items: seq<Item>)
    requires AllClean(Units(items))
    ensures StreamAu(codec, Printed(lead, items)) <==> items != [] && AllParameterSets(codec, Units(items))
  {
    var d := Printed(lead, items);
    if items == [] {
      assert forall i :: 0 <= i < |d| ==> !CodeAt(d, i);
      FirstIs(d, |d|);
    } else {
      var z := if items[0].long then lead + 1 else lead;
      var rest := Tail(items);
      PrintedShape(lead, items, z);
      FirstAfterZeros([], z, rest);
      assert d[..z] == Zeros(z) && d[z + 3..] == rest;
      StreamPrintedIsRecognised(codec, items);
    }
  }

  // ---- whatever is recognised was printed

  lemma StrippedPrefixIsClean(d: Bytes)
    requires Stripped(d[..First(d)]) != []
    ensures var p := First(d); var u := Stripped(d[..p]);
            Clean(u) && d[..p] == u + Zeros(p - |u|)
  {
    var u := Stripped(d[..First(d)]);
    forall i | 0 <= i < |u| ensures !CodeAt(u, i) {
      assert CodeAt(u, i) ==> CodeAt(d, i);
    }
  }

  lemma SplitAtCode(d: Bytes, p: nat)
    requires CodeAt(d, p)
    ensures d == d[..p] + ([0, 0, 1] + d[p + 3..])
  {}

  /** The unit before the code at `p`, put in front of what the rest was printed from. */
  lemma InFront(codec: Codec, d: Bytes, p: nat, item: Item, more: seq<Item>)
    requires p <= |d| && d[..p] == item.unit + Zeros(item.padding) && Clean(item.unit)
    requires IsParameterSet(codec, item.unit) && AllClean(Units(more)) && AllParameterSets(codec, Units(more))
    requires if p == |d| then more == [] else CodeAt(d, p) && PrintedItems(more) == [0, 0, 1] + d[p + 3..]
    ensures Tail([item] + more) == d
    ensures AllClean(Units([item] + more)) && AllParameterSets(codec, Units([item] + more))
  {
    AllOf(codec, item, more);
    TailOf(item, more);
    if p < |d| { SplitAtCode(d, p); } else { assert d == d[..p] + []; }
  }

  lemma {:induction false} StreamRecognisedWasPrinted(codec: Codec, d: Bytes) returns (items: seq<Item>)
    requires StreamRest(codec, d)
    ensures items != [] && !items[0].long && Tail(items) == d
    ensures AllClean(Units(items)) && AllParameterSets(codec, Units(items))
    decreases |d|
  {
    var p := First(d);
    var u := Stripped(d[..p]);
    StrippedPrefixIsClean(d);
    var item := Item(false, u, p - |u|);
    if p == |d| {
      items := [item] + [];
      InFront(codec, d, p, item, []);
    } else {
      var more := StreamRecognisedWasPrinted(codec, d[p + 3..]);
      items := [item] + more;
      InFront(codec, d, p, item, more);
    }
  }

  lemma StreamAuWasPrinted(codec: Codec, d: Bytes) returns (lead: nat, items: seq<Item>)
    requires StreamAu(codec, d)
    ensures items != [] && AllClean(Units(items)) && AllParameterSets(codec, Units(items)) && d == Printed(lead, items)
  {
    lead := First(d);
    items := StreamRecognisedWasPrinted(codec, d[lead + 3..]);
    SplitAtCode(d, lead);
    assert d[..lead] == Zeros(lead);
    assert PrintedItems(items) == [0, 0, 1] + d[lead + 3..];
  }

  /** The byte stream recogniser answers TRUE exactly for the prints of non-empty lists of clean parameter sets. */
  lemma StreamAuMeaning(codec: Codec, d: Bytes)
    ensures StreamAu(codec, d) <==> exists lead: nat, items: seq<Item> ::
              && items != [] && AllClean(Units(items)) && AllParameterSets(codec, Units(items))
              && d == Printed(lead, items)
  {
    if StreamAu(codec, d) {
      var lead, items := StreamAuWasPrinted(codec, d);
    }
    forall lead: nat, items: seq<Item> |
      items != [] && AllClean(Units(items)) && AllParameterSets(codec, Units(items)) && d == Printed(lead, items)
      ensures StreamAu(codec, d)
    {
      StreamAuOfPrinted(codec, lead, items);
    }
  }

  /** The two recognisers agree on every list of clean units that both encodings can hold. */
  lemma RecognisersAgree(codec: Codec, lead: nat, items: seq<Item>, size: nat)
    requires AllClean(Units(items)) && size > 0 && Fits(Units(items), size)
    ensures StreamAu(codec, Printed(lead, items)) <==> LengthAu(codec, Prefixed(Units(items), size), size)
  {
    StreamAuOfPrinted(codec, lead, items);
    LengthPrintedIsRecognised(codec, Units(items), size);
  }

  // ---- the loops

  /** gst_mpp_dec_find_start_code: `prefix` is one before the first prefix if a zero stands there. */
  method FindStartCode(data: Bytes, from: nat) returns (found: bool, prefix: nat, nal: nat)
    requires from <= |data|
    ensures var p := from + First(data[from..]);
            && (found <==> p < |data|)
            && (found ==> nal == p + 3 <= |data| && from <= prefix <= p
                          && prefix == if p > from && data[p - 1] == 0 then p - 1 else p)
  {
    ghost var d := data[from..];
    var i := from;
    while i + 3 <= |data|
      invariant from <= i
      invariant forall j :: 0 <= j < i - from ==> !CodeAt(d, j)
      invariant i > from && CodeAt(d, i - from) ==> data[i - 1] != 0
    {
      if data[i] != 0 || data[i + 1] != 0 {
      } else if data[i + 2] == 1 {
        FirstIs(d, i - from);
        return true, i, i + 3;
      } else if i + 4 <= |data| && data[i + 2] == 0 && data[i + 3] == 1 {
        assert CodeAt(d, i + 1 - from);
        FirstIs(d, i + 1 - from);
        return true, i, i + 4;
      }
      i := i + 1;
    }
    FirstIs(d, |d|);
    found, prefix, nal := false, 0, 0;
  }

  /** A zero just before the prefix does not matter to the unit, which is stripped of zeros. */
  lemma StripPrefix(data: Bytes, start: nat, prefix: nat, p: nat)
    requires start <= prefix <= p <= |data| && p <= prefix + 1 && (prefix < p ==> data[prefix] == 0)
    ensures Stripped(data[start..prefix]) == Stripped(data[start..p])
  {
    if prefix < p {
      StripOne(data[start..p]);
      assert data[start..p][..prefix - start] == data[start..prefix];
    }
  }

  /** The inner loop that moves nal_end back over zeros. */
  method StripZeros(d: Bytes) returns (end: nat)
    ensures end <= |d| && d[..end] == Stripped(d)
  {
    end := |d|;
    assert d[..end] == d;
    while end > 0 && d[end - 1] == 0
      invariant end <= |d| && Stripped(d[..end]) == Stripped(d)
    {
      StripOne(d[..end]);
      assert d[..end][..end - 1] == d[..end - 1];
      end := end - 1;
    }
  }

  /** Where the unit at `start` ends and what comes after it. */
  method UnitAt(data: Bytes, start: nat) returns (end: nat, haveNext: bool, next: nat, ghost p: nat)
    requires start <= |data|
    ensures p == start + First(data[start..])
    ensures start <= end <= |data| && data[start..end] == Stripped(data[start..p])
    ensures (haveNext <==> p < |data|) && (haveNext ==> next == p + 3 <= |data|)
  {
    p := start + First(data[start..]);
    var prefix;
    haveNext, prefix, next := FindStartCode(data, start);
    var before := if haveNext then prefix else |data|;
    StripPrefix(data, start, before, p);
    var length := StripZeros(data[start..before]);
    end := start + length;
    assert data[start..before][..length] == data[start..end];
  }

  /** One turn of the loop. */
  lemma StreamTurn(codec: Codec, data: Bytes, start: nat, p: nat, unit: Bytes)
    requires start <= |data| && p == start + First(data[start..]) && unit == Stripped(data[start..p])
    ensures p == |data| ==> (StreamRest(codec, data[start..]) <==> IsParameterSet(codec, unit))
    ensures p < |data| ==>
              (StreamRest(codec, data[start..]) <==> IsParameterSet(codec, unit) && StreamRest(codec, data[p + 3..]))
  {
    var d := data[start..];
    assert d[..p - start] == data[start..p];
    if p < |data| {
      assert d[p - start + 3..] == data[p + 3..];
      RestIs(codec, d, p - start, unit, data[p + 3..]);
    } else {
      assert data[start..p] == d;
      EndIs(codec, d, unit);
    }
  }

  /** gst_mpp_dec_annex_b_is_parameter_set_au. */
  method AnnexBIsParameterSetAu(codec: Codec, data: Bytes) returns (result: bool)
    ensures result <==> StreamAu(codec, data)
  {
    assert data[0..] == data;
    var found, prefix, nalStart := FindStartCode(data, 0);
    if !found { return false; }
    ghost var p := First(data);
    var i := 0;
    while i < prefix
      invariant 0 <= i <= prefix
      invariant AllZero(data[..i])
    {
      if data[i] != 0 {
        assert data[..p][i] != 0;
        return false;
      }
      i := i + 1;
    }
    assert AllZero(data[..p]);
    result := UnitsAreParameterSets(codec, data, nalStart);
  }

  /** One turn of the loop: the unit at `start` is no parameter set, or the last one, or the rest decides. */
  method Turn(codec: Codec, data: Bytes, start: nat) returns (good: bool, more: bool, next: nat)
    requires start < |data|
    ensures more ==> start < next <= |data|
    ensures more ==> (StreamRest(codec, data[start..]) <==> good && StreamRest(codec, data[next..]))
    ensures !more ==> (StreamRest(codec, data[start..]) <==> good)
  {
    hide StreamRest, First, Stripped;
    var end;
    ghost var p;
    end, more, next, p := UnitAt(data, start);
    var unit := data[start..end];
    StreamTurn(codec, data, start, p, unit);
    good := end > start && IsParameterSet(codec, unit);
  }

  /** The loop over the units, from just behind the first start code. */
  method UnitsAreParameterSets(codec: Codec, data: Bytes, first: nat) returns (found: bool)
    requires first <= |data|
    ensures found <==> StreamRest(codec, data[first..])
  {
    found := false;
    var nalStart := first;
    while nalStart < |data|
      invariant first <= nalStart <= |data|
      invariant StreamRest(codec, data[first..]) <==> StreamRest(codec, data[nalStart..])
      invariant nalStart == |data| ==> !found
      decreases |data| - nalStart
    {
      var good, haveNext, nextNal := Turn(codec, data, nalStart);
      if !good { return false; }
      found := true;
      if !haveNext { return; }
      if nextNal >= |data| {
        assert data[nextNal..] == [];
        return false;
      }
      nalStart := nextNal;
    }
    assert data[nalStart..] == [];
  }

  /** gst_mpp_dec_is_parameter_set_au; `size` is the length size, 0 for a byte stream, and `known` is false
      when the stream format is not one of the two. */
  method IsParameterSetAu(codec: Codec, data: Bytes, known: bool, size: nat) returns (found: bool)
    requires size == 0 || LengthSize(size)
    ensures found <==> known && if size == 0 then StreamAu(codec, data) else LengthAu(codec, data, size)
  {
    if data == [] || !known {
      return false;
    }
    if size == 0 {
      found := AnnexBIsParameterSetAu(codec, data);
    } else {
      found := LengthPrefixedIsParameterSetAu(codec, data, size);
    }
  }
}
