/** The numbers a level is chosen from and the numbers the same pass writes to the codec
    (gst/rockchipmpp/gstmppenc.c:602-624, 738-832 and 1027-1113). */
module RateInfo {
  import opened LevelChoice
  import opened MachineWords

  const DEFAULT_FPS := 30

  /** The properties and the negotiated picture info a pass works on; bitrates are at most G_MAXINT. */
  datatype Settings = Settings(width: int, height: int, fpsN: int, fpsD: int, fpsOut: int,
                               bps: nat, bpsMax: nat, fixedQp: bool)

  datatype Rate = Rate(width: int, height: int, fpsN: int, fpsD: int, bitrate: nat)

  /** What reaches the codec; `ignored` when no bitrate is written at all. */
  datatype Written = Written(ignored: bool, bpsMax: int, fpsNum: int, fpsDenorm: int)

  predicate InRange(x: Settings) {
    && x.width <= MAXINT && x.height <= MAXINT && x.fpsN <= MAXINT && x.fpsD <= MAXINT
    && 0 <= x.fpsOut <= 256 && x.bps <= MAXINT && x.bpsMax <= MAXINT
  }

  /** gst_mpp_enc_effective_fps. */
  function EffectiveFps(x: Settings): int {
    if x.fpsOut > 0 then x.fpsOut
    else if x.fpsN <= 0 || x.fpsD <= 0 then DEFAULT_FPS
    else if x.fpsN / x.fpsD > 0 then x.fpsN / x.fpsD else DEFAULT_FPS
  }

  /** gst_mpp_enc_auto_bitrate, with its 64-bit words. */
  function AutoBitrate(width: int, height: int, fps: int): nat {
    if width <= 0 || height <= 0 || fps <= 0 then 0
    else
      var frameBits := Wrapped(width * height) / 8;
      if frameBits > MAXINT / fps then MAXINT else Wrapped(frameBits * fps)
  }

  /** gst_mpp_enc_scale_bitrate. */
  function ScaleBitrate(bps: nat, numerator: nat, denominator: nat): nat
    requires numerator > 0 && denominator > 0
  {
    if bps > (U64 - 1) / numerator then MAXINT
    else
      var scaled := Wrapped(bps * numerator) / denominator;
      if scaled > MAXINT then MAXINT else scaled
  }

  /** Both saturate at G_MAXINT and nothing wraps on the way. */
  lemma AutoBitrateSaturates(width: int, height: int, fps: int)
    requires 0 < width <= MAXINT && 0 < height <= MAXINT && 0 < fps <= MAXINT
    ensures AutoBitrate(width, height, fps)
            == if width * height / 8 * fps > MAXINT then MAXINT else width * height / 8 * fps
  {
    NoWrap(width, height);
    var bits := width * height / 8;
    Division(bits, fps, MAXINT);
    if bits * fps <= MAXINT { Small(bits * fps); }
  }

  lemma Small(x: nat)
    requires x < U64
    ensures Wrapped(x) == x
  {}

  lemma ScaleBitrateSaturates(bps: nat, numerator: nat, denominator: nat)
    requires bps < 0x1_0000_0000 && 0 < numerator < 0x1_0000_0000 && 0 < denominator
    ensures ScaleBitrate(bps, numerator, denominator)
            == if bps * numerator / denominator > MAXINT then MAXINT else bps * numerator / denominator
  {
    NoWrap(bps, numerator);
    Division(bps, numerator, U64 - 1);
  }

  /** gst_mpp_enc_snapshot_rate_info. */
  function Snapshot(x: Settings): Rate {
    var (n, d) := if x.fpsOut > 0 then (x.fpsOut, 1)
                  else if x.fpsN > 0 && x.fpsD > 0 then (x.fpsN, x.fpsD) else (DEFAULT_FPS, 1);
    var bps := if x.bps != 0 then x.bps else AutoBitrate(x.width, x.height, EffectiveFps(x));
    Rate(x.width, x.height, n, d,
         if bps == 0 || x.fixedQp then 0 else if x.bpsMax != 0 then x.bpsMax else ScaleBitrate(bps, 17, 16))
  }

  /** The bitrate and frame rate part of gst_mpp_enc_apply_properties_full. */
  function Configured(x: Settings): Written {
    var fpsOut := EffectiveFps(x);
    var bps := if x.bps == 0 then AutoBitrate(x.width, x.height, fpsOut) else x.bps;
    var (n, d) := if x.fpsOut > 0 then (x.fpsOut, 1) else (x.fpsN, x.fpsD);
    if bps == 0 || x.fixedQp then Written(true, 0, n, d)
    else Written(false, if x.bpsMax != 0 then x.bpsMax else ScaleBitrate(bps, 17, 16), n, d)
  }

  /** The bitrate tested is the bitrate written, absent exactly when none is written; the frame rate tested is
      the one written whenever that is a rate at all, and a stand-in of 30 otherwise. */
  lemma TestedIsWritten(x: Settings)
    requires InRange(x)
    ensures var r, w := Snapshot(x), Configured(x);
            && (w.ignored <==> r.bitrate == 0)
            && (!w.ignored ==> r.bitrate == w.bpsMax && 0 < r.bitrate <= MAXINT)
            && r.fpsN > 0 && r.fpsD > 0
            && (w.fpsNum > 0 && w.fpsDenorm > 0 <==> r.fpsN == w.fpsNum && r.fpsD == w.fpsDenorm)
            && (!(w.fpsNum > 0 && w.fpsDenorm > 0) ==> r.fpsN == DEFAULT_FPS && r.fpsD == 1)
  {
    var bps := if x.bps != 0 then x.bps else AutoBitrate(x.width, x.height, EffectiveFps(x));
    if bps != 0 {
      EffectiveFpsInRange(x);
      if x.bps == 0 { AutoBitrateSaturates(x.width, x.height, EffectiveFps(x)); }
      ScaleBitrateSaturates(bps, 17, 16);
    }
  }

  lemma EffectiveFpsInRange(x: Settings)
    requires InRange(x)
    ensures 0 < EffectiveFps(x) <= MAXINT
  {
    if x.fpsOut <= 0 && x.fpsN > 0 && x.fpsD > 0 {
      Division(MAXINT + 1, x.fpsD, x.fpsN);
    }
  }

  /** The written peak: never below the target it is derived from, one sixteenth above it unless it saturates. */
  lemma DerivedPeak(x: Settings)
    requires InRange(x) && 0 < x.bps && x.bpsMax == 0 && !x.fixedQp
    ensures var peak := Configured(x).bpsMax;
            x.bps <= peak && (peak == MAXINT || peak == x.bps + x.bps / 16)
  {
    ScaleBitrateSaturates(x.bps, 17, 16);
  }
}
