/** H.265 level selection (gst/rockchipmpp/gstmpph265enc.c:184-331), Tables A.6, A.8 and A.9 of section A.4
    of Rec. ITU-T H.265. */
module LevelsH265 {
  import opened LevelChoice
  import opened MachineWords
  import opened RateInfo
  import opened Options

  /** `maxBrHigh` is absent where the high tier is not defined. */
  datatype Limits = Limits(level: int, maxLumaPs: nat, maxLumaSr: nat, maxBrMain: nat, maxBrHigh: Option<nat>)

  const LEVELS := 13
  const FACTOR := 1000

  function Table(): (t: seq<Limits>)
    ensures |t| == LEVELS
  {
    [Limits(30, 36864, 552960, 128, None),
     Limits(60, 122880, 3686400, 1500, None),
     Limits(63, 245760, 7372800, 3000, None),
     Limits(90, 552960, 16588800, 6000, None),
     Limits(93, 983040, 33177600, 10000, None),
     Limits(120, 2228224, 66846720, 12000, Some(30000)),
     Limits(123, 2228224, 133693440, 20000, Some(50000)),
     Limits(150, 8912896, 267386880, 25000, Some(100000)),
     Limits(153, 8912896, 534773760, 40000, Some(160000)),
     Limits(156, 8912896, 1069547520, 60000, Some(240000)),
     Limits(180, 35651584, 1069547520, 60000, Some(240000)),
     Limits(183, 35651584, 2139095040, 120000, Some(480000)),
     Limits(186, 35651584, 4278190080, 240000, Some(800000))]
  }

  predicate Defined(l: Limits, high: bool) { high ==> l.maxBrHigh.Some? }

  function RowOf(l: Limits, high: bool): Row {
    Row(l.level, Defined(l, high), l.maxLumaPs, l.maxLumaSr,
        if !high then l.maxBrMain * FACTOR else if l.maxBrHigh.Some? then l.maxBrHigh.value * FACTOR else 0)
  }

  function Rows(high: bool): (r: seq<Row>)
    ensures |r| == LEVELS && forall i :: 0 <= i < LEVELS ==> r[i] == RowOf(Table()[i], high)
  {
    seq(LEVELS, i requires 0 <= i < LEVELS => RowOf(Table()[i], high))
  }

  lemma Neighbour(m: nat)
    requires m < LEVELS - 1
    ensures var a, b := Table()[m], Table()[m + 1];
            && a.maxLumaPs <= b.maxLumaPs && a.maxLumaSr <= b.maxLumaSr && a.maxBrMain <= b.maxBrMain
            && (a.maxBrHigh.Some? ==> b.maxBrHigh.Some? && a.maxBrHigh.value <= b.maxBrHigh.value)
            && (a.maxBrHigh.Some? <==> m >= 5)
  {}

  /** The main tier rises from the first row, the high tier from level 4, where it begins. */
  lemma TableIsRising(high: bool)
    ensures Rising(Rows(high))
  {
    var rows := Rows(high);
    var first := if high then 5 else 0;
    forall m | first <= m < LEVELS - 1 ensures Dominates(rows[m + 1], rows[m]) { Neighbour(m); }
    forall i | 0 <= i < first ensures !rows[i].target { Neighbour(i); }
    RisingByNeighbours(rows, first);
  }

  predicate Complete(rate: Rate) {
    rate.width > 0 && rate.height > 0 && rate.fpsN > 0 && rate.fpsD > 0
  }

  predicate Sized(rate: Rate) {
    rate.width <= MAXINT && rate.height <= MAXINT && rate.fpsN <= MAXINT && rate.fpsD <= MAXINT
  }

  function LoadOf(rate: Rate): Load
    requires Complete(rate)
  {
    Load(rate.width * rate.height, rate.fpsN, rate.fpsD, rate.bitrate)
  }

  /** gst_mpp_h265_enc_level_index. */
  method LevelIndex(level: int) returns (index: nat)
    ensures index < LEVELS
    ensures (exists i :: 0 <= i < LEVELS && Table()[i].level == level) ==> Table()[index].level == level
    ensures forall i :: 0 <= i < index ==> Table()[i].level != level
  {
    var table := Table();
    for i := 0 to LEVELS
      invariant forall j :: 0 <= j < i ==> table[j].level != level
    {
      if table[i].level == level { return i; }
    }
    index := 0;
  }

  /** The four tests of the loop, on 64-bit words. */
  predicate Passes(l: Limits, high: bool, rate: Rate, lumaPs: nat, lumaTicks: nat)
    requires Complete(rate)
  {
    && Defined(l, high)
    && !(lumaPs > l.maxLumaPs)
    && !(lumaTicks > Wrapped(l.maxLumaSr * rate.fpsD))
    && !(rate.bitrate != 0 && rate.bitrate > (if high then l.maxBrHigh.value else l.maxBrMain) * FACTOR)
  }

  lemma PassesMeansFits(high: bool, rate: Rate, lumaPs: nat, lumaTicks: nat, l: Limits)
    requires Complete(rate) && Sized(rate) && l.maxLumaPs <= 35651584 && l.maxLumaSr <= 4278190080
    requires lumaPs == rate.width * rate.height && lumaTicks == Wrapped(lumaPs * rate.fpsN)
    ensures Passes(l, high, rate, lumaPs, lumaTicks) <==> Fits(RowOf(l, high), LoadOf(rate))
  {
    if lumaPs <= l.maxLumaPs {
      RateTestIsExact(lumaPs, rate.fpsN, rate.fpsD, l.maxLumaSr);
    }
  }

  /** gst_mpp_h265_enc_required_level_index, with its 64-bit words. */
  method RequiredLevelIndex(high: bool, rate: Rate) returns (index: nat, conforming: bool)
    requires Complete(rate) && Sized(rate)
    ensures conforming <==> !Hopeless(Rows(high), LoadOf(rate))
    ensures if conforming then Least(Rows(high), LoadOf(rate), index) else index == LEVELS - 1
  {
    var lumaPs := Wrapped(rate.width * rate.height);
    var lumaTicks := Wrapped(lumaPs * rate.fpsN);
    NoWrap(rate.width, rate.height);
    var table := Table();
    ghost var rows, load := Rows(high), LoadOf(rate);
    for i := 0 to LEVELS
      invariant forall j :: 0 <= j < i ==> !Fits(rows[j], load)
    {
      var limits := table[i];
      LimitsFitWords(i);
      PassesMeansFits(high, rate, lumaPs, lumaTicks, limits);
      if high && limits.maxBrHigh.None? { continue; }
      var maxBr := if high then limits.maxBrHigh.value else limits.maxBrMain;
      if lumaPs > limits.maxLumaPs { continue; }
      if lumaTicks > Wrapped(limits.maxLumaSr * rate.fpsD) { continue; }
      if rate.bitrate != 0 && rate.bitrate > maxBr * FACTOR { continue; }
      return i, true;
    }
    index, conforming := LEVELS - 1, false;
  }

  lemma LimitsFitWords(i: nat)
    requires i < LEVELS
    ensures Table()[i].maxLumaPs <= 35651584 && Table()[i].maxLumaSr <= 4278190080
  {}

  /** gst_mpp_h265_enc_effective_level. */
  method EffectiveLevel(high: bool, declared: int, rate: Rate) returns (ok: bool, effective: int)
    requires Sized(rate) && exists i :: 0 <= i < LEVELS && Table()[i].level == declared
    ensures !Complete(rate) ==> ok && effective == declared
    ensures Complete(rate) ==> exists d: nat, index: nat ::
              && d < LEVELS && Table()[d].level == declared
              && Chosen(Rows(high), LoadOf(rate), d, ok, index)
              && (ok ==> index < LEVELS && effective == Table()[index].level)
    ensures !ok ==> effective == declared
  {
    effective := declared;
    if rate.width <= 0 || rate.height <= 0 || rate.fpsN <= 0 || rate.fpsD <= 0 { return true, declared; }
    var declaredIndex := LevelIndex(declared);
    var requiredIndex, conforming := RequiredLevelIndex(high, rate);
    var required := Table()[requiredIndex].level;
    ghost var index := if requiredIndex <= declaredIndex then declaredIndex else requiredIndex;
    assert Chosen(Rows(high), LoadOf(rate), declaredIndex, conforming, index);
    if !conforming { return false, declared; }
    if requiredIndex <= declaredIndex { return true, declared; }
    effective := required;
    ok := true;
  }

  /** The effective level really carries the stream, in a tier it defines: a high-tier stream declared below
      level 4 is always raised. */
  lemma EffectiveLevelAdmits(high: bool, rate: Rate, declared: nat, index: nat)
    requires Complete(rate) && Chosen(Rows(high), LoadOf(rate), declared, true, index)
    ensures Fits(Rows(high)[index], LoadOf(rate))
  {
    TableIsRising(high);
    ChosenAdmits(Rows(high), LoadOf(rate), declared, index);
    var least: nat :| Least(Rows(high), LoadOf(rate), least) && index == if least <= declared then declared else least;
    if high { TargetsFollow(least, index); }
  }

  lemma TargetsFollow(least: nat, index: nat)
    requires least <= index < LEVELS && Rows(true)[least].target
    ensures Rows(true)[index].target
  {
    if least < LEVELS - 1 { Neighbour(least); }
    if index < LEVELS - 1 { Neighbour(index); } else { Neighbour(LEVELS - 2); }
  }
}
