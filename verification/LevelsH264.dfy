/** H.264 level selection (gst/rockchipmpp/gstmpph264enc.c:200-350), Table A-1 of section A.3 of
    Rec. ITU-T H.264. */
module LevelsH264 {
  import opened LevelChoice
  import opened MachineWords
  import opened RateInfo

  datatype Limits = Limits(level: int, maxMbps: nat, maxMbs: nat, maxBr: nat)

  const LEVEL_1B := 99
  const LEVELS := 20

  function Table(): (t: seq<Limits>)
    ensures |t| == LEVELS
  {
    [Limits(10, 1485, 99, 64),
     Limits(LEVEL_1B, 1485, 99, 128),
     Limits(11, 3000, 396, 192),
     Limits(12, 6000, 396, 384),
     Limits(13, 11880, 396, 768),
     Limits(20, 11880, 396, 2000),
     Limits(21, 19800, 792, 4000),
     Limits(22, 20250, 1620, 4000),
     Limits(30, 40500, 1620, 10000),
     Limits(31, 108000, 3600, 14000),
     Limits(32, 216000, 5120, 20000),
     Limits(40, 245760, 8192, 20000),
     Limits(41, 245760, 8192, 50000),
     Limits(42, 522240, 8704, 50000),
     Limits(50, 589824, 22080, 135000),
     Limits(51, 983040, 36864, 240000),
     Limits(52, 2073600, 36864, 240000),
     Limits(60, 4177920, 139264, 240000),
     Limits(61, 8355840, 139264, 480000),
     Limits(62, 16711680, 139264, 800000)]
  }

  /** cpbBrVclFactor of the profile. */
  function Factor(high: bool): nat { if high then 1250 else 1000 }

  function RowOf(l: Limits, high: bool): Row {
    Row(l.level, l.level != LEVEL_1B, l.maxMbs, l.maxMbps, l.maxBr * Factor(high))
  }

  function Rows(high: bool): (r: seq<Row>)
    ensures |r| == LEVELS && forall i :: 0 <= i < LEVELS ==> r[i] == RowOf(Table()[i], high)
  {
    seq(LEVELS, i requires 0 <= i < LEVELS => RowOf(Table()[i], high))
  }

  lemma Neighbour(m: nat)
    requires m < LEVELS - 1
    ensures var a, b := Table()[m], Table()[m + 1];
            a.maxMbs <= b.maxMbs <= 139264 && a.maxMbps <= b.maxMbps <= 16711680 && a.maxBr <= b.maxBr
  {}

  lemma TableIsRising(high: bool)
    ensures Rising(Rows(high))
  {
    var rows := Rows(high);
    forall m | 0 <= m < LEVELS - 1 ensures Dominates(rows[m + 1], rows[m]) {
      Neighbour(m);
    }
    RisingByNeighbours(rows, 0);
  }

  function RoundUp16(x: nat): nat { (x + 15) / 16 * 16 }

  /** Macroblocks of a picture: each side in units of 16, rounded up. */
  function Macroblocks(width: nat, height: nat): nat {
    (width + 15) / 16 * ((height + 15) / 16)
  }

  predicate Complete(rate: Rate) {
    rate.width > 0 && rate.height > 0 && rate.fpsN > 0 && rate.fpsD > 0
  }

  /** Sides that can be rounded up within 32 bits. */
  predicate Sized(rate: Rate) {
    rate.width <= MAXINT - 15 && rate.height <= MAXINT - 15 && rate.fpsN <= MAXINT && rate.fpsD <= MAXINT
  }

  function LoadOf(rate: Rate): Load
    requires Complete(rate)
  {
    Load(Macroblocks(rate.width, rate.height), rate.fpsN, rate.fpsD, rate.bitrate)
  }

  lemma MacroblocksAreExact(width: nat, height: nat)
    requires width <= MAXINT - 15 && height <= MAXINT - 15
    ensures Wrapped(RoundUp16(width) * RoundUp16(height)) / 256 == Macroblocks(width, height)
  {
    NoWrap(RoundUp16(width), RoundUp16(height));
    var a, b := (width + 15) / 16, (height + 15) / 16;
    assert RoundUp16(width) * RoundUp16(height) == a * 16 * (b * 16) == a * b * 256;
  }

  /** gst_mpp_h264_enc_level_index. */
  method LevelIndex(level: int) returns (index: nat)
    ensures index < LEVELS
    ensures (exists i :: 0 <= i < LEVELS && Table()[i].level == level) ==> Table()[index].level == level
    ensures forall i :: 0 <= i < index ==> Table()[i].level != level
  {
    var table := Table();
    for i := 0 to LEVELS
      invariant forall j :: 0 <= j < i ==> table[j].level != level
    {
      if table[i].level == level { return i; }
    }
    index := 0;
  }

  /** The four tests of the loop, on 64-bit words. */
  predicate Passes(l: Limits, factor: nat, rate: Rate, mbs: nat, mbTicks: nat)
    requires Complete(rate)
  {
    && l.level != LEVEL_1B
    && !(mbs > l.maxMbs)
    && !(mbTicks > Wrapped(l.maxMbps * rate.fpsD))
    && !(rate.bitrate != 0 && rate.bitrate > l.maxBr * factor)
  }

  lemma PassesMeansFits(high: bool, rate: Rate, mbs: nat, mbTicks: nat, l: Limits)
    requires Complete(rate) && Sized(rate) && l.maxMbs <= 139264 && l.maxMbps <= 16711680
    requires mbs == Macroblocks(rate.width, rate.height) && mbTicks == Wrapped(mbs * rate.fpsN)
    ensures Passes(l, Factor(high), rate, mbs, mbTicks) <==> Fits(RowOf(l, high), LoadOf(rate))
  {
    if mbs <= l.maxMbs {
      RateTestIsExact(mbs, rate.fpsN, rate.fpsD, l.maxMbps);
    }
  }

  /** gst_mpp_h264_enc_required_level_index, with its 64-bit words. */
  method RequiredLevelIndex(high: bool, rate: Rate) returns (index: nat, conforming: bool)
    requires Complete(rate) && Sized(rate)
    ensures conforming <==> !Hopeless(Rows(high), LoadOf(rate))
    ensures if conforming then Least(Rows(high), LoadOf(rate), index) else index == LEVELS - 1
  {
    var factor := Factor(high);
    var mbs := Wrapped(RoundUp16(rate.width) * RoundUp16(rate.height)) / 256;
    var mbTicks := Wrapped(mbs * rate.fpsN);
    MacroblocksAreExact(rate.width, rate.height);
    var table := Table();
    ghost var rows, load := Rows(high), LoadOf(rate);
    for i := 0 to LEVELS
      invariant forall j :: 0 <= j < i ==> !Fits(rows[j], load)
    {
      var limits := table[i];
      LimitsFitWords(i);
      PassesMeansFits(high, rate, mbs, mbTicks, limits);
      if limits.level == LEVEL_1B { continue; }
      if mbs > limits.maxMbs { continue; }
      if mbTicks > Wrapped(limits.maxMbps * rate.fpsD) { continue; }
      if rate.bitrate != 0 && rate.bitrate > limits.maxBr * factor { continue; }
      return i, true;
    }
    index, conforming := LEVELS - 1, false;
  }

  lemma LimitsFitWords(i: nat)
    requires i < LEVELS
    ensures Table()[i].maxMbs <= 139264 && Table()[i].maxMbps <= 16711680
  {}

  /** gst_mpp_h264_enc_effective_level. */
  method EffectiveLevel(high: bool, declared: int, rate: Rate) returns (ok: bool, effective: int)
    requires Sized(rate) && exists i :: 0 <= i < LEVELS && Table()[i].level == declared
    ensures !Complete(rate) ==> ok && effective == declared
    ensures Complete(rate) ==> exists d: nat, index: nat ::
              && d < LEVELS && Table()[d].level == declared
              && Chosen(Rows(high), LoadOf(rate), d, ok, index)
              && (ok ==> index < LEVELS && effective == Table()[index].level)
    ensures !ok ==> effective == declared
  {
    effective := declared;
    if rate.width <= 0 || rate.height <= 0 || rate.fpsN <= 0 || rate.fpsD <= 0 { return true, declared; }
    var declaredIndex := LevelIndex(declared);
    var requiredIndex, conforming := RequiredLevelIndex(high, rate);
    var required := Table()[requiredIndex].level;
    ghost var index := if requiredIndex <= declaredIndex then declaredIndex else requiredIndex;
    assert Chosen(Rows(high), LoadOf(rate), declaredIndex, conforming, index);
    if !conforming { return false, declared; }
    if requiredIndex <= declaredIndex { return true, declared; }
    effective := required;
    ok := true;
  }

  /** The effective level really carries the stream. */
  lemma EffectiveLevelAdmits(high: bool, rate: Rate, declared: nat, index: nat)
    requires Complete(rate) && Chosen(Rows(high), LoadOf(rate), declared, true, index)
    ensures Admits(Rows(high)[index], LoadOf(rate))
  {
    TableIsRising(high);
    ChosenAdmits(Rows(high), LoadOf(rate), declared, index);
  }

  /** A refusal means that no level of the table carries the stream, 1b included. */
  lemma RefusedMeansNoLevel(high: bool, rate: Rate)
    requires Complete(rate)
    ensures Hopeless(Rows(high), LoadOf(rate)) <==> forall i :: 0 <= i < LEVELS ==> !Admits(Rows(high)[i], LoadOf(rate))
  {
    TableIsRising(high);
    var rows, load := Rows(high), LoadOf(rate);
    if i :| 0 <= i < LEVELS && Admits(rows[i], load) {
      if !rows[i].target {
        assert i == 1;
        Neighbour(1);
        assert Dominates(rows[2], rows[1]);
        assert Fits(rows[2], load);
      }
    }
  }
}
