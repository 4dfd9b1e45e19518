/** Recognising an access unit that holds nothing but parameter sets, in the two encodings of a NAL unit
    list (gst/rockchipmpp/gstmppdec.c:503-626): the byte stream of section B.1 of H.264 and B.2 of H.265,
    and the length-prefixed form of section 5 of ISO/IEC 14496-15. */
module ParameterSets {
  type byte = x: int | 0 <= x < 256
  type Bytes = seq<byte>

  datatype Codec = Avc | Hevc | Other

  /** gst_mpp_dec_nal_is_parameter_set. */
  predicate IsParameterSet(codec: Codec, nal: Bytes) {
    match codec
    case Avc => |nal| >= 2 && nal[0] < 0x80 && (nal[0] % 32 == 7 || nal[0] % 32 == 8)
    case Hevc => |nal| >= 3 && nal[0] < 0x80 && nal[1] % 8 != 0 && 32 <= nal[0] / 2 % 64 <= 34
    case Other => false
  }

  predicate AllParameterSets(codec: Codec, units: seq<Bytes>) {
    forall u :: u in units ==> IsParameterSet(codec, u)
  }

  // ---- length-prefixed

  /** The sizes a length field may have. */
  predicate LengthSize(size: nat) { size == 1 || size == 2 || size == 4 }

  /** Big-endian value of a field. */
  function Value(field: Bytes): nat {
    if field == [] then 0 else Value(field[..|field| - 1]) * 256 + field[|field| - 1]
  }

  function Field(n: nat, size: nat): (r: Bytes)
    ensures |r| == size
  {
    if size == 0 then [] else Field(n / 256, size - 1) + [n % 256]
  }

  function Power(size: nat): nat {
    if size == 0 then 1 else Power(size - 1) * 256
  }

  lemma {:induction false} FieldValue(n: nat, size: nat)
    requires n < Power(size)
    ensures Value(Field(n, size)) == n
  {
    if size > 0 {
      FieldValue(n / 256, size - 1);
      assert Field(n, size)[..size - 1] == Field(n / 256, size - 1);
    }
  }

  lemma {:induction false} ValueField(field: Bytes)
    ensures Value(field) < Power(|field|) && Field(Value(field), |field|) == field
  {
    if field != [] {
      var p, b := field[..|field| - 1], field[|field| - 1];
      ValueField(p);
      assert Value(field) / 256 == Value(p) && Value(field) % 256 == b;
    }
  }

  /** Every unit behind its length. */
  function Prefixed(units: seq<Bytes>, size: nat): Bytes {
    if units == [] then [] else Field(|units[0]|, size) + units[0] + Prefixed(units[1..], size)
  }

  /** Every length fits its field. */
  predicate Fits(units: seq<Bytes>, size: nat) {
    forall u :: u in units ==> |u| < Power(size)
  }

  /** The rest of an access unit is a list of length-prefixed parameter sets. */
  predicate LengthRest(codec: Codec, data: Bytes, size: nat)
    requires size > 0
    decreases |data|
  {
    data == [] ||
    (|data| >= size &&
     var n := Value(data[..size]);
     0 < n <= |data| - size && IsParameterSet(codec, data[size..size + n]) && LengthRest(codec, data[size + n..], size))
  }

  predicate LengthAu(codec: Codec, data: Bytes, size: nat)
    requires size > 0
  {
    data != [] && LengthRest(codec, data, size)
  }

  /** Printing and recognising agree: what is printed is recognised exactly if it is a list of parameter sets. */
  lemma {:induction false} LengthPrintedIsRecognised(codec: Codec, units: seq<Bytes>, size: nat)
    requires size > 0 && Fits(units, size)
    ensures LengthRest(codec, Prefixed(units, size), size) <==> AllParameterSets(codec, units)
    ensures Prefixed(units, size) == [] <==> units == []
    decreases |units|
  {
    if units != [] {
      var u, more := units[0], units[1..];
      LengthPrintedIsRecognised(codec, more, size);
      FieldValue(|u|, size);
      var data := Prefixed(units, size);
      assert data[..size] == Field(|u|, size);
      assert data[size..size + |u|] == u;
      assert data[size + |u|..] == Prefixed(more, size);
      assert units == [u] + more;
    }
  }

  /** Whatever is recognised was printed from a list of parameter sets. */
  lemma {:induction false} LengthRecognisedWasPrinted(codec: Codec, data: Bytes, size: nat) returns (units: seq<Bytes>)
    requires size > 0 && LengthRest(codec, data, size)
    ensures Prefixed(units, size) == data && AllParameterSets(codec, units) && Fits(units, size)
    ensures units == [] <==> data == []
    decreases |data|
  {
    if data == [] {
      units := [];
    } else {
      var n := Value(data[..size]);
      var u := data[size..size + n];
      ValueField(data[..size]);
      var more := LengthRecognisedWasPrinted(codec, data[size + n..], size);
      units := [u] + more;
      assert units[1..] == more;
      assert data == data[..size] + u + data[size + n..];
    }
  }

  lemma LengthRestIs(codec: Codec, d: Bytes, size: nat, n: nat, unit: Bytes, more: Bytes)
    requires size > 0 && |d| >= size && Value(d[..size]) == n && 0 < n <= |d| - size
    requires d[size..size + n] == unit && d[size + n..] == more
    ensures LengthRest(codec, d, size) <==> IsParameterSet(codec, unit) && LengthRest(codec, more, size)
  {}

  /** The inner loop that reads a length field, which fits 32 bits. */
  method ReadLength(data: Bytes, size: nat, offset: nat) returns (n: nat)
    requires LengthSize(size) && offset + size <= |data|
    ensures n == Value(data[offset..offset + size]) < 0x1_0000_0000
  {
    n := 0;
    var i := 0;
    while i < size
      invariant 0 <= i <= size
      invariant n == Value(data[offset..offset + i])
    {
      assert data[offset..offset + i + 1][..i] == data[offset..offset + i];
      n := n * 256 + data[offset + i];
      i := i + 1;
    }
    ValueField(data[offset..offset + size]);
    assert Power(4) == 256 * 256 * 256 * 256 && Power(size) <= Power(4);
  }

  /** One turn of the loop: the unit at `offset` is not there or no parameter set, or the rest decides. */
  method LengthTurn(codec: Codec, data: Bytes, size: nat, offset: nat) returns (good: bool, next: nat)
    requires LengthSize(size) && offset < |data|
    ensures good ==> offset < next <= |data|
    ensures next <= |data|
    ensures LengthRest(codec, data[offset..], size) <==> good && LengthRest(codec, data[next..], size)
  {
    if |data| - offset < size { return false, |data|; }
    assert data[offset..][..size] == data[offset..offset + size];
    var nalSize := ReadLength(data, size, offset);
    var at := offset + size;
    if nalSize == 0 || nalSize > |data| - at { return false, |data|; }
    next := at + nalSize;
    good := IsParameterSet(codec, data[at..next]);
    assert data[offset..][size..size + nalSize] == data[at..next];
    assert data[offset..][size + nalSize..] == data[next..];
    LengthRestIs(codec, data[offset..], size, nalSize, data[at..next], data[next..]);
  }

  /** gst_mpp_dec_length_prefixed_is_parameter_set_au. */
  method LengthPrefixedIsParameterSetAu(codec: Codec, data: Bytes, size: nat) returns (found: bool)
    requires LengthSize(size)
    ensures found <==> LengthAu(codec, data, size)
  {
    var offset := 0;
    found := false;
    assert data[offset..] == data;
    while offset < |data|
      invariant 0 <= offset <= |data|
      invariant LengthRest(codec, data, size) <==> LengthRest(codec, data[offset..], size)
      invariant found <==> offset > 0
    {
      var good, next := LengthTurn(codec, data, size, offset);
      if !good { return false; }
      found := true;
      offset := next;
    }
  }

  /** The length-prefixed recogniser answers TRUE exactly for the prints of non-empty lists of parameter sets. */
  lemma LengthAuMeaning(codec: Codec, data: Bytes, size: nat)
    requires size > 0
    ensures LengthAu(codec, data, size) <==> exists units: seq<Bytes> ::
              units != [] && AllParameterSets(codec, units) && Fits(units, size) && data == Prefixed(units, size)
  {
    if LengthAu(codec, data, size) {
      var units := LengthRecognisedWasPrinted(codec, data, size);
    }
    forall units: seq<Bytes> |
      units != [] && AllParameterSets(codec, units) && Fits(units, size) && data == Prefixed(units, size)
      ensures LengthAu(codec, data, size)
    {
      LengthPrintedIsRecognised(codec, units, size);
    }
  }
}
