/** What it means to choose a level: exact comparison of a stream's picture size, picture rate and peak
    bitrate with the rows of a level table. */
module LevelChoice {
  import opened MachineWords

  /** One row for a fixed profile or tier; `target` is whether a stream may be raised to it, `bits` its
      bitrate limit in bits per second. */
  datatype Row = Row(level: int, target: bool, size: nat, rate: nat, bits: nat)

  /** A stream: units per picture, pictures per second as the fraction fpsN / fpsD, peak bits per second
      (0 when no rate target exists). */
  datatype Load = Load(size: nat, fpsN: nat, fpsD: nat, bitrate: nat)

  /** The limits as the tables of the standards state them, over the rationals. */
  ghost predicate Admits(row: Row, load: Load)
    requires load.fpsD > 0
  {
    && load.size <= row.size
    && (load.size as real) * (load.fpsN as real / load.fpsD as real) <= row.rate as real
    && (load.bitrate == 0 || load.bitrate <= row.bits)
  }

  ghost predicate Fits(row: Row, load: Load)
    requires load.fpsD > 0
  {
    row.target && Admits(row, load)
  }

  /** Every row after a possible target allows at least as much. */
  predicate Rising(rows: seq<Row>) {
    forall i, j :: 0 <= i <= j < |rows| && rows[i].target ==> Dominates(rows[j], rows[i])
  }

  predicate Dominates(a: Row, b: Row) {
    a.size >= b.size && a.rate >= b.rate && a.bits >= b.bits
  }

  lemma {:induction false} DominatesLater(rows: seq<Row>, i: nat, j: nat)
    requires i <= j < |rows|
    requires forall m :: i <= m < |rows| - 1 ==> Dominates(rows[m + 1], rows[m])
    ensures Dominates(rows[j], rows[i])
    decreases j - i
  {
    if i < j {
      DominatesLater(rows, i, j - 1);
      assert Dominates(rows[j - 1 + 1], rows[j - 1]);
    }
  }

  lemma RisingByNeighbours(rows: seq<Row>, first: nat)
    requires forall i :: 0 <= i < first && i < |rows| ==> !rows[i].target
    requires forall m :: first <= m < |rows| - 1 ==> Dominates(rows[m + 1], rows[m])
    ensures Rising(rows)
  {
    forall i, j | 0 <= i <= j < |rows| && rows[i].target ensures Dominates(rows[j], rows[i]) {
      DominatesLater(rows, i, j);
    }
  }

  /** Row `i` is the least the stream may be raised to. */
  ghost predicate Least(rows: seq<Row>, load: Load, i: nat)
    requires load.fpsD > 0
  {
    i < |rows| && Fits(rows[i], load) && forall j :: 0 <= j < i ==> !Fits(rows[j], load)
  }

  ghost predicate Hopeless(rows: seq<Row>, load: Load)
    requires load.fpsD > 0
  {
    forall i :: 0 <= i < |rows| ==> !Fits(rows[i], load)
  }

  /** The outcome the element promises: refused when no row fits, otherwise the higher, in table order, of the
      declared row and the least that fits. */
  ghost predicate Chosen(rows: seq<Row>, load: Load, declared: nat, ok: bool, index: nat)
    requires load.fpsD > 0
  {
    && (ok <==> !Hopeless(rows, load))
    && (ok ==> index < |rows| && exists least: nat ::
          Least(rows, load, least) && index == if least <= declared then declared else least)
  }

  /** And that row really admits the stream. */
  lemma ChosenAdmits(rows: seq<Row>, load: Load, declared: nat, index: nat)
    requires load.fpsD > 0 && Rising(rows) && Chosen(rows, load, declared, true, index)
    ensures Admits(rows[index], load)
  {
    var least: nat :| Least(rows, load, least) && index == if least <= declared then declared else least;
    assert Dominates(rows[index], rows[least]);
  }

  /** Cross-multiplied integers decide the rational comparison. */
  lemma CrossMultiplied(size: nat, n: nat, d: nat, limit: nat)
    requires d > 0
    ensures size * n <= limit * d <==> (size as real) * (n as real / d as real) <= limit as real
  {
    var s, a, b, l := size as real, n as real, d as real, limit as real;
    assert s * (a / b) * b == s * a;
    if size * n <= limit * d {
      assert s * a <= l * b;
      Divide(s * (a / b), l, b);
    } else {
      assert s * a > l * b;
      Divide(l, s * (a / b), b);
    }
  }

  lemma Divide(x: real, y: real, b: real)
    requires b > 0.0 && x * b <= y * b
    ensures x <= y
  {}

  // ---- machine words

  function Wrapped(x: nat): nat { x % U64 }

  lemma Times(a: nat, b: nat, c: nat)
    requires b <= c
    ensures a * b <= a * c
  {}

  /** The product of two 32-bit words fits into 64 bits. */
  lemma NoWrap(a: nat, b: nat)
    requires a < 0x1_0000_0000 && b < 0x1_0000_0000
    ensures a * b < U64 && Wrapped(a * b) == a * b
  {
    var most: nat := 0xFFFF_FFFF;
    Times(a, b, most);
    var p := a * b;
    assert p <= a * most == a * 0xFFFF_FFFF;
    assert p < U64;
    assert Wrapped(p) == p;
  }

  /** The test on the picture rate is reached only below the size limit, where nothing can wrap. */
  lemma RateTestIsExact(size: nat, fpsN: nat, fpsD: nat, maxRate: nat)
    requires size < 0x1_0000_0000 && maxRate < 0x1_0000_0000
    requires fpsN <= MAXINT && 0 < fpsD <= MAXINT
    ensures Wrapped(size * fpsN) > Wrapped(maxRate * fpsD)
            <==> (size as real) * (fpsN as real / fpsD as real) > maxRate as real
  {
    NoWrap(size, fpsN);
    NoWrap(maxRate, fpsD);
    CrossMultiplied(size, fpsN, fpsD, maxRate);
  }
}
