/** Ranges of the C integer types, and the division test that keeps products inside them. */
module MachineWords {
  const U32 := 0x1_0000_0000
  const U64 := 0x1_0000_0000_0000_0000
  const MAXINT := 0x7FFF_FFFF

  /** A guard on a quotient decides a bound on the product. */
  lemma Division(a: nat, b: nat, limit: nat)
    requires b > 0
    ensures a > limit / b <==> a * b > limit
  {
    var q := limit / b;
    assert limit == q * b + limit % b;
    if a > q {
      assert a * b >= (q + 1) * b == q * b + b;
    } else {
      assert a * b <= q * b;
    }
  }
}
