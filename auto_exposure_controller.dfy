/**
 * The C++ auto-exposure controller: it measures the brightness of a box
 * around the ball zone in a strided 8-bit grey frame, smooths it over a
 * five-slot ring buffer, and nudges analogue gain (preferred) or shutter
 * time toward a target band, clamped to configured limits.
 *
 * Floats are exact reals; the clock is the `now` argument of Update, in
 * seconds on the same scale as the last adjustment time (zero at start).
 */
module AutoExposure {
  import opened Wrappers
  import opened Numbers

  datatype PresetMode = Auto | OutdoorBright | OutdoorNormal | Indoor | IndoorDim

  datatype Preset = Preset(shutterUs: int, gain: real, targetBrightness: real)

  /** One entry per preset mode, in declaration order. */
  const PRESETS: seq<Preset> := [
    Preset(800, 10.0, 180.0),
    Preset(500, 2.0, 170.0),
    Preset(700, 4.0, 180.0),
    Preset(1200, 12.0, 190.0),
    Preset(1500, 16.0, 200.0)]

  /** The position of a mode in the enumeration, which indexes PRESETS. */
  function ModeIndex(m: PresetMode): (i: nat)
    ensures i < |PRESETS|
    ensures i == 0 <==> m == Auto
  {
    match m
    case Auto => 0
    case OutdoorBright => 1
    case OutdoorNormal => 2
    case Indoor => 3
    case IndoorDim => 4
  }

  lemma ModeIndexInjective(a: PresetMode, b: PresetMode)
    ensures ModeIndex(a) == ModeIndex(b) <==> a == b
  {
  }

  /** The preset names accepted by the Python binding; the Python controller's preset table uses the same keys. */
  function ModeName(m: PresetMode): string {
    match m
    case Auto => "auto"
    case OutdoorBright => "outdoor_bright"
    case OutdoorNormal => "outdoor_normal"
    case Indoor => "indoor"
    case IndoorDim => "indoor_dim"
  }

  /** The binding's if-chain from a name to a mode; any other name is an error. */
  function ParseModeName(s: string): (r: Option<PresetMode>)
    ensures r.Some? ==> ModeName(r.value) == s
    ensures r.None? ==> forall m: PresetMode :: ModeName(m) != s
  {
    if s == "auto" then Some(Auto)
    else if s == "outdoor_bright" then Some(OutdoorBright)
    else if s == "outdoor_normal" then Some(OutdoorNormal)
    else if s == "indoor" then Some(Indoor)
    else if s == "indoor_dim" then Some(IndoorDim)
    else None
  }

  lemma ModeNameRoundTrip(m: PresetMode)
    ensures ParseModeName(ModeName(m)) == Some(m)
  {
  }

  const HISTORY_SIZE: nat := 5

  /** The reason strings an update reports. */
  datatype Reason =
    | NoUpdate | ManualMode | RateLimited | InvalidMeasurement
    | WithinTarget | IncreasedGain | IncreasedShutter | AtMaxExposure
    | DecreasedGain | DecreasedShutter | AtMinExposure

  function ReasonText(r: Reason): string {
    match r
    case NoUpdate => "no_update"
    case ManualMode => "manual_mode"
    case RateLimited => "rate_limited"
    case InvalidMeasurement => "invalid_measurement"
    case WithinTarget => "within_target"
    case IncreasedGain => "increased_gain"
    case IncreasedShutter => "increased_shutter"
    case AtMaxExposure => "at_max_exposure"
    case DecreasedGain => "decreased_gain"
    case DecreasedShutter => "decreased_shutter"
    case AtMinExposure => "at_min_exposure"
  }

  // ---------------------------------------------------------------------
  // The feedback rule
  // ---------------------------------------------------------------------

  /** The fields the adjustment rule reads: target band, limits, current settings, speed. */
  datatype Exposure = Exposure(
    targetMin: real, targetMax: real, targetIdeal: real,
    minShutter: int, maxShutter: int, minGain: real, maxGain: real,
    shutter: int, gain: real, speed: real)

  datatype Adjustment = Adjustment(shutter: int, gain: real, reason: Reason)

  predicate InBand(e: Exposure, b: real) {
    e.targetMin <= b <= e.targetMax
  }

  /** Relative distance of the brightness from the ideal target. */
  function ErrorRatio(e: Exposure, b: real): (r: real)
    requires e.targetIdeal != 0.0
    ensures r >= 0.0
  {
    Abs((e.targetIdeal - b) / e.targetIdeal)
  }

  predicate Adjusting(r: Reason) {
    r == IncreasedGain || r == IncreasedShutter || r == DecreasedGain || r == DecreasedShutter
  }

  /**
   * calculateAdjustment: inside the band nothing changes; too dark raises
   * gain first, then shutter; too bright lowers gain first, then shutter;
   * every change is clamped to the limits.
   */
  function CalculateAdjustment(e: Exposure, b: real): (r: Adjustment)
    requires e.targetIdeal != 0.0
    ensures r.reason == WithinTarget <==> InBand(e, b)
    ensures InBand(e, b) ==> r.shutter == e.shutter && r.gain == e.gain
    ensures (r.shutter != e.shutter || r.gain != e.gain) ==> Adjusting(r.reason)
    ensures b < e.targetMin && e.gain < e.maxGain ==>
      r.reason == IncreasedGain && r.shutter == e.shutter && r.gain <= e.maxGain
      && (0.0 <= e.gain && 0.0 <= e.speed ==> e.gain <= r.gain)
    ensures b < e.targetMin && e.gain >= e.maxGain && e.shutter < e.maxShutter ==>
      r.reason == IncreasedShutter && r.gain == e.gain && r.shutter <= e.maxShutter
      && (0.0 <= e.speed ==> e.shutter <= r.shutter)
    ensures b < e.targetMin && e.gain >= e.maxGain && e.shutter >= e.maxShutter ==>
      r == Adjustment(e.shutter, e.gain, AtMaxExposure)
    ensures b > e.targetMax && b >= e.targetMin && e.gain > e.minGain ==>
      r.reason == DecreasedGain && r.shutter == e.shutter && e.minGain <= r.gain
      && (0.0 <= e.gain && 0.0 <= e.speed ==> r.gain <= e.gain)
    ensures b > e.targetMax && b >= e.targetMin && e.gain <= e.minGain && e.shutter > e.minShutter ==>
      r.reason == DecreasedShutter && r.gain == e.gain && e.minShutter <= r.shutter
      && (0.0 <= e.speed ==> r.shutter <= e.shutter)
    ensures b > e.targetMax && b >= e.targetMin && e.gain <= e.minGain && e.shutter <= e.minShutter ==>
      r == Adjustment(e.shutter, e.gain, AtMinExposure)
  {
    if InBand(e, b) then Adjustment(e.shutter, e.gain, WithinTarget)
    else
      var ratio := ErrorRatio(e, b);
      if b < e.targetMin then
        if e.gain < e.maxGain then
          NonNegProduct(e.gain, ratio * e.speed * 4.0);
          Adjustment(e.shutter, MinR(e.maxGain, e.gain * (1.0 + ratio * e.speed * 4.0)), IncreasedGain)
        else if e.shutter < e.maxShutter then
          Adjustment(Min(e.maxShutter, e.shutter + Trunc(ratio * e.speed * 200.0)), e.gain, IncreasedShutter)
        else Adjustment(e.shutter, e.gain, AtMaxExposure)
      else
        if e.gain > e.minGain then
          NonNegProduct(e.gain, ratio * e.speed * 0.5);
          Adjustment(e.shutter, MaxR(e.minGain, e.gain * (1.0 - ratio * e.speed * 0.5)), DecreasedGain)
        else if e.shutter > e.minShutter then
          Adjustment(Max(e.minShutter, e.shutter - Trunc(ratio * e.speed * 100.0)), e.gain, DecreasedShutter)
        else Adjustment(e.shutter, e.gain, AtMinExposure)
  }

  lemma NonNegProduct(g: real, k: real)
    ensures 0.0 <= g && 0.0 <= k ==> g * (1.0 + k) >= g && g * (1.0 - k) <= g
  {
    if 0.0 <= g && 0.0 <= k {
      assert g * (1.0 + k) == g + g * k;
      assert g * (1.0 - k) == g - g * k;
      assert g * k >= 0.0;
    }
  }

  // ---------------------------------------------------------------------
  // Row and rectangle brightness over a strided byte buffer
  // ---------------------------------------------------------------------

  /** Sum of the bytes of s. */
  function Sum(s: seq<byte>): nat {
    if s == [] then 0 else Sum(s[..|s| - 1]) + s[|s| - 1]
  }

  /** The largest byte of s, or 0 for no bytes. */
  function MaxOf(s: seq<byte>): byte {
    if s == [] then 0
    else
      var m := MaxOf(s[..|s| - 1]);
      if s[|s| - 1] > m then s[|s| - 1] else m
  }

  /** The maximum bounds every byte, and is one of them unless it is 0. */
  lemma {:induction false} MaxOfBounds(s: seq<byte>)
    ensures forall i :: 0 <= i < |s| ==> s[i] <= MaxOf(s)
    ensures MaxOf(s) == 0 || MaxOf(s) in s
  {
    if s != [] {
      var init := s[..|s| - 1];
      MaxOfBounds(init);
      assert forall i :: 0 <= i < |s| - 1 ==> init[i] == s[i];
      assert MaxOf(init) in s <== MaxOf(init) in init;
    }
  }

  /** The bytes row[start..end) of a row that begins at offset base; nothing when start >= end. */
  function Segment(f: seq<byte>, base: int, start: int, end: int): (r: seq<byte>)
    requires 0 <= base && 0 <= start && (start < end ==> base + end <= |f|)
    ensures |r| == if start < end then end - start else 0
  {
    if start < end then f[base + start..base + end] else []
  }

  lemma SumSegmentStep(f: seq<byte>, base: int, start: int, i: int)
    requires 0 <= base && 0 <= start <= i && base + i < |f|
    ensures Sum(Segment(f, base, start, i + 1)) == Sum(Segment(f, base, start, i)) + f[base + i]
  {
    var s := Segment(f, base, start, i + 1);
    assert s[..|s| - 1] == Segment(f, base, start, i);
  }

  lemma MaxSegmentStep(f: seq<byte>, base: int, start: int, i: int)
    requires 0 <= base && 0 <= start <= i && base + i < |f|
    ensures MaxOf(Segment(f, base, start, i + 1))
         == if f[base + i] > MaxOf(Segment(f, base, start, i)) then f[base + i] else MaxOf(Segment(f, base, start, i))
  {
    var s := Segment(f, base, start, i + 1);
    assert s[..|s| - 1] == Segment(f, base, start, i);
  }

  lemma SumSegmentStep4(f: seq<byte>, base: int, start: int, i: int)
    requires 0 <= base && 0 <= start <= i && base + i + 4 <= |f|
    ensures Sum(Segment(f, base, start, i + 4))
         == Sum(Segment(f, base, start, i)) + (f[base + i] as int + f[base + i + 1] as int + f[base + i + 2] as int + f[base + i + 3] as int)
  {
    SumSegmentStep(f, base, start, i);
    SumSegmentStep(f, base, start, i + 1);
    SumSegmentStep(f, base, start, i + 2);
    SumSegmentStep(f, base, start, i + 3);
  }

  /** fast_sum_row: the sum of row[start..end), four bytes per step and then one at a time. */
  method FastSumRow(row: array<byte>, base: int, start: int, end: int) returns (sum: nat)
    requires 0 <= base && 0 <= start && (start < end ==> base + end <= row.Length)
    ensures sum == Sum(Segment(row[..], base, start, end))
  {
    ghost var s := row[..];
    sum := 0;
    var i := start;
    while i + 4 <= end
      invariant start <= i && (i <= end || i == start)
      invariant sum == Sum(Segment(s, base, start, i))
    {
      SumSegmentStep4(s, base, start, i);
      sum := sum + (row[base + i] as int + row[base + i + 1] as int + row[base + i + 2] as int + row[base + i + 3] as int);
      i := i + 4;
    }
    while i < end
      invariant start <= i && (i <= end || i == start)
      invariant sum == Sum(Segment(s, base, start, i))
    {
      SumSegmentStep(s, base, start, i);
      sum := sum + row[base + i];
      i := i + 1;
    }
  }

  /** fast_max_row: the largest byte of row[start..end), or 0 when the range is empty. */
  method FastMaxRow(row: array<byte>, base: int, start: int, end: int) returns (m: byte)
    requires 0 <= base && 0 <= start && (start < end ==> base + end <= row.Length)
    ensures m == MaxOf(Segment(row[..], base, start, end))
    ensures forall i :: base + start <= i < base + end ==> row[i] <= m
    ensures start >= end ==> m == 0
  {
    m := 0;
    var i := start;
    while i < end
      invariant start <= i && (i <= end || i == start)
      invariant m == MaxOf(Segment(row[..], base, start, i))
    {
      MaxSegmentStep(row[..], base, start, i);
      if row[base + i] > m {
        m := row[base + i];
      }
      i := i + 1;
    }
    MaxOfBounds(Segment(row[..], base, start, end));
    forall i | base + start <= i < base + end
      ensures row[i] <= m
    {
      assert row[..][base + start..base + end][i - (base + start)] == row[i];
    }
  }

  /** A frame of width by height pixels whose rows start stride bytes apart. */
  datatype Geometry = Geometry(width: int, height: int, stride: int)

  /** The buffer holds every row: height rows of stride bytes (RowStart(g, height) is height * stride). */
  predicate Fits(len: int, g: Geometry) {
    0 <= g.width <= g.stride && 0 <= g.height && RowStart(g, g.height) <= len
  }

  /** The half-open pixel box [x1, x2) by [y1, y2). */
  datatype Box = Box(x1: int, x2: int, y1: int, y2: int)

  predicate Inside(b: Box, g: Geometry) {
    0 <= b.x1 && b.x2 <= g.width && 0 <= b.y1 && b.y2 <= g.height
  }

  /** Offset of the first byte of row y: y rows of stride bytes each. */
  function RowStart(g: Geometry, y: nat): int {
    if y == 0 then 0 else RowStart(g, y - 1) + g.stride
  }

  /** The row offset is the product the source computes. */
  lemma {:induction false} RowStartIsProduct(g: Geometry, y: nat)
    ensures RowStart(g, y) == y * g.stride
  {
    if y > 0 {
      RowStartIsProduct(g, y - 1);
    }
  }

  lemma {:induction false} RowStartMonotone(g: Geometry, y: nat, z: nat)
    requires y <= z && 0 <= g.stride
    ensures RowStart(g, y) <= RowStart(g, z)
    decreases z - y
  {
    if y < z {
      RowStartMonotone(g, y, z - 1);
    }
  }

  lemma RowInBuffer(len: int, g: Geometry, y: int)
    requires Fits(len, g) && 0 <= y < g.height
    ensures 0 <= RowStart(g, y) && RowStart(g, y) + g.width <= len
  {
    RowStartMonotone(g, 0, y);
    RowStartMonotone(g, y + 1, g.height);
  }

  /** The pixel at column x of row y. */
  function Pixel(f: seq<byte>, g: Geometry, x: int, y: int): byte
    requires Fits(|f|, g) && 0 <= x < g.width && 0 <= y < g.height
  {
    RowInBuffer(|f|, g, y);
    f[RowStart(g, y) + x]
  }

  /** The pixels of row y in columns [x1, x2). */
  function Row(f: seq<byte>, g: Geometry, x1: int, x2: int, y: int): (r: seq<byte>)
    requires Fits(|f|, g) && 0 <= x1 && x2 <= g.width && 0 <= y < g.height
    ensures |r| == if x1 < x2 then x2 - x1 else 0
  {
    RowInBuffer(|f|, g, y);
    Segment(f, RowStart(g, y), x1, x2)
  }

  /** The i-th byte of a row segment is the pixel in column x1 + i. */
  lemma RowPixel(f: seq<byte>, g: Geometry, x1: int, x2: int, y: int, i: int)
    requires Fits(|f|, g) && 0 <= x1 && x2 <= g.width && 0 <= y < g.height
    requires 0 <= i < x2 - x1
    ensures Row(f, g, x1, x2, y)[i] == Pixel(f, g, x1 + i, y)
  {
    RowInBuffer(|f|, g, y);
    assert Row(f, g, x1, x2, y) == f[RowStart(g, y) + x1..RowStart(g, y) + x2];
  }

  /** The statistics of a non-empty box, from its scanned sum and maximum. */
  lemma ScanStats(f: seq<byte>, g: Geometry, b: Box, sum: nat, maxVal: byte, pixels: int)
    requires Fits(|f|, g) && Inside(b, g) && b.x1 < b.x2 && b.y1 < b.y2
    requires sum == RectSum(f, g, b, b.y2) && maxVal == RectMax(f, g, b, b.y2)
    requires pixels == (b.x2 - b.x1) * (b.y2 - b.y1) && pixels > 0
    ensures RectStats(f, g, b) == BrightnessStats(sum as real / pixels as real, maxVal as real, pixels, true)
  {
  }

  /** Sum of the box's pixels on rows b.y1 up to y. */
  function RectSum(f: seq<byte>, g: Geometry, b: Box, y: int): nat
    requires Fits(|f|, g) && Inside(b, g) && y <= g.height
    decreases y - b.y1
  {
    if y <= b.y1 then 0 else RectSum(f, g, b, y - 1) + Sum(Row(f, g, b.x1, b.x2, y - 1))
  }

  /** Largest pixel of the box on rows b.y1 up to y, or 0. */
  function RectMax(f: seq<byte>, g: Geometry, b: Box, y: int): byte
    requires Fits(|f|, g) && Inside(b, g) && y <= g.height
    decreases y - b.y1
  {
    if y <= b.y1 then 0
    else
      Larger(RectMax(f, g, b, y - 1), MaxOf(Row(f, g, b.x1, b.x2, y - 1)))
  }

  function Larger(m: byte, r: byte): (l: byte)
    ensures m <= l && r <= l
  {
    if r > m then r else m
  }

  datatype BrightnessStats = BrightnessStats(mean: real, max: real, pixels: int, valid: bool)

  const INVALID_STATS := BrightnessStats(0.0, 0.0, 0, false)

  /** The box of half-side `half` around (cx, cy), clipped to the frame. */
  function ClippedBox(cx: int, cy: int, half: int, g: Geometry): (b: Box)
    requires 0 <= g.width && 0 <= g.height
    ensures Inside(b, g)
  {
    Box(Max(0, cx - half), Min(g.width, cx + half), Max(0, cy - half), Min(g.height, cy + half))
  }

  /** The box measureBrightnessRect scans: half-side is the radius times 1.5, truncated. */
  function ZoneBox(zone: (int, int, int), g: Geometry): Box
    requires 0 <= g.width && 0 <= g.height
  {
    ClippedBox(zone.0, zone.1, Trunc(zone.2 as real * 1.5), g)
  }

  /** measureBrightnessRect's result for a given box: mean and max of its pixels, invalid when empty. */
  function RectStats(f: seq<byte>, g: Geometry, b: Box): BrightnessStats
    requires Fits(|f|, g) && Inside(b, g)
  {
    if b.x2 <= b.x1 || b.y2 <= b.y1 then INVALID_STATS
    else
      var pixels := (b.x2 - b.x1) * (b.y2 - b.y1);
      BrightnessStats(RectSum(f, g, b, b.y2) as real / pixels as real, RectMax(f, g, b, b.y2) as real, pixels, true)
  }

  /** Every pixel of the rows counted so far is at most their maximum. */
  lemma RectMaxBound(f: seq<byte>, g: Geometry, b: Box, y: int, px: int, py: int)
    requires Fits(|f|, g) && Inside(b, g) && y <= g.height
    requires b.x1 <= px < b.x2 && b.y1 <= py < y
    ensures Pixel(f, g, px, py) <= RectMax(f, g, b, y)
  {
    RowPixelBound(f, g, b, px, py);
    RectMaxMonotone(f, g, b, py + 1, y);
  }

  /** Counting more rows never lowers the maximum. */
  lemma {:induction false} RectMaxMonotone(f: seq<byte>, g: Geometry, b: Box, z: int, y: int)
    requires Fits(|f|, g) && Inside(b, g) && z <= y <= g.height
    ensures RectMax(f, g, b, z) <= RectMax(f, g, b, y)
    decreases y - z
  {
    if z < y {
      RectMaxMonotone(f, g, b, z, y - 1);
    }
  }

  /** A pixel of row py is at most the maximum of the rows up to and including py. */
  lemma RowPixelBound(f: seq<byte>, g: Geometry, b: Box, px: int, py: int)
    requires Fits(|f|, g) && Inside(b, g) && b.x1 <= px < b.x2 && b.y1 <= py < g.height
    ensures Pixel(f, g, px, py) <= RectMax(f, g, b, py + 1)
  {
    RowPixel(f, g, b.x1, b.x2, py, px - b.x1);
    MaxOfBounds(Row(f, g, b.x1, b.x2, py));
    RectMaxCoversRow(f, g, b, py + 1);
  }

  /** A maximum of pixels is one of them, unless it is 0. */
  lemma {:induction false} RectMaxAttained(f: seq<byte>, g: Geometry, b: Box, y: int)
    requires Fits(|f|, g) && Inside(b, g) && y <= g.height
    ensures RectMax(f, g, b, y) == 0
         || exists px, py :: b.x1 <= px < b.x2 && b.y1 <= py < y && Pixel(f, g, px, py) == RectMax(f, g, b, y)
    decreases y - b.y1
  {
    if y > b.y1 {
      var r := MaxOf(Row(f, g, b.x1, b.x2, y - 1));
      RectMaxAttained(f, g, b, y - 1);
      if r > RectMax(f, g, b, y - 1) {
        RowMaxAttained(f, g, b, y - 1);
        var px :| b.x1 <= px < b.x2 && Pixel(f, g, px, y - 1) == r;
        assert Pixel(f, g, px, y - 1) == RectMax(f, g, b, y);
      } else {
        assert RectMax(f, g, b, y) == RectMax(f, g, b, y - 1);
      }
    }
  }

  /** A row's maximum, when positive, is one of its pixels. */
  lemma RowMaxAttained(f: seq<byte>, g: Geometry, b: Box, py: int)
    requires Fits(|f|, g) && Inside(b, g) && 0 <= py < g.height && MaxOf(Row(f, g, b.x1, b.x2, py)) != 0
    ensures exists px :: b.x1 <= px < b.x2 && Pixel(f, g, px, py) == MaxOf(Row(f, g, b.x1, b.x2, py))
  {
    var row := Row(f, g, b.x1, b.x2, py);
    MaxOfBounds(row);
    var i :| 0 <= i < |row| && row[i] == MaxOf(row);
    RowPixel(f, g, b.x1, b.x2, py, i);
  }

  lemma {:induction false} SumBound(s: seq<byte>, m: int)
    requires forall i :: 0 <= i < |s| ==> s[i] <= m
    ensures Sum(s) <= |s| * m
    decreases |s|
  {
    if s != [] {
      SumBound(s[..|s| - 1], m);
      assert (|s| - 1) * m + m == |s| * m;
    }
  }

  /** The rows counted so far sum to at most their number times any bound on a row's sum. */
  lemma {:induction false} RectSumBound(f: seq<byte>, g: Geometry, b: Box, y: int, rowBound: int)
    requires Fits(|f|, g) && Inside(b, g) && b.y1 <= y <= g.height
    requires forall py :: b.y1 <= py < y ==> Sum(Row(f, g, b.x1, b.x2, py)) <= rowBound
    ensures RectSum(f, g, b, y) <= (y - b.y1) * rowBound
    decreases y - b.y1
  {
    if y > b.y1 {
      RectSumBound(f, g, b, y - 1, rowBound);
      assert (y - 1 - b.y1) * rowBound + rowBound == (y - b.y1) * rowBound;
    }
  }

  lemma MulAssoc(w: int, h: int, m: int)
    ensures h * (w * m) == w * h * m
  {
  }

  /** A rectangle measurement is valid exactly when the clipped box is non-empty, and then counts its area. */
  lemma RectStatsValid(f: seq<byte>, g: Geometry, b: Box)
    requires Fits(|f|, g) && Inside(b, g)
    ensures RectStats(f, g, b).valid <==> b.x1 < b.x2 && b.y1 < b.y2
    ensures RectStats(f, g, b).valid ==> RectStats(f, g, b).pixels == (b.x2 - b.x1) * (b.y2 - b.y1) > 0
  {
    if b.x1 < b.x2 && b.y1 < b.y2 {
      assert (b.x2 - b.x1) * (b.y2 - b.y1) > 0;
    }
  }

  /** The measured max is the brightest pixel of the box: every pixel is at most it, and it occurs unless it is 0. */
  lemma RectStatsMax(f: seq<byte>, g: Geometry, b: Box)
    requires Fits(|f|, g) && Inside(b, g) && RectStats(f, g, b).valid
    ensures forall px, py :: b.x1 <= px < b.x2 && b.y1 <= py < b.y2 ==> Pixel(f, g, px, py) as real <= RectStats(f, g, b).max
    ensures RectStats(f, g, b).max == 0.0
         || exists px, py :: b.x1 <= px < b.x2 && b.y1 <= py < b.y2 && Pixel(f, g, px, py) as real == RectStats(f, g, b).max
  {
    var m := RectMax(f, g, b, b.y2);
    assert RectStats(f, g, b).max == m as real;
    forall px, py | b.x1 <= px < b.x2 && b.y1 <= py < b.y2
      ensures Pixel(f, g, px, py) <= m
    {
      RectMaxBound(f, g, b, b.y2, px, py);
    }
    RectMaxAttained(f, g, b, b.y2);
  }

  /** A counted row sums to at most its width times the box's maximum. */
  lemma RowSumBound(f: seq<byte>, g: Geometry, b: Box, py: int)
    requires Fits(|f|, g) && Inside(b, g) && b.x1 < b.x2 && b.y1 <= py < b.y2
    ensures Sum(Row(f, g, b.x1, b.x2, py)) <= (b.x2 - b.x1) * RectMax(f, g, b, b.y2)
  {
    RowMaxBelow(f, g, b, py);
    SumBelowMax(Row(f, g, b.x1, b.x2, py), RectMax(f, g, b, b.y2));
  }

  lemma RowMaxBelow(f: seq<byte>, g: Geometry, b: Box, py: int)
    requires Fits(|f|, g) && Inside(b, g) && b.y1 <= py < b.y2
    ensures MaxOf(Row(f, g, b.x1, b.x2, py)) <= RectMax(f, g, b, b.y2)
  {
    RectMaxMonotone(f, g, b, py + 1, b.y2);
    RectMaxCoversRow(f, g, b, py + 1);
  }

  lemma RectMaxCoversRow(f: seq<byte>, g: Geometry, b: Box, y: int)
    requires Fits(|f|, g) && Inside(b, g) && b.y1 < y <= g.height
    ensures MaxOf(Row(f, g, b.x1, b.x2, y - 1)) <= RectMax(f, g, b, y)
  {
  }

  lemma SumBelowMax(s: seq<byte>, m: int)
    requires MaxOf(s) <= m
    ensures Sum(s) <= |s| * m
  {
    MaxOfBounds(s);
    SumBound(s, m);
  }

  /** The measured mean lies between 0 and the measured max. */
  lemma RectStatsMean(f: seq<byte>, g: Geometry, b: Box)
    requires Fits(|f|, g) && Inside(b, g) && RectStats(f, g, b).valid
    ensures 0.0 <= RectStats(f, g, b).mean <= RectStats(f, g, b).max <= 255.0
  {
    var m := RectMax(f, g, b, b.y2);
    forall py | b.y1 <= py < b.y2
      ensures Sum(Row(f, g, b.x1, b.x2, py)) <= (b.x2 - b.x1) * m
    {
      RowSumBound(f, g, b, py);
    }
    RectSumBound(f, g, b, b.y2, (b.x2 - b.x1) * m);
    MulAssoc(b.x2 - b.x1, b.y2 - b.y1, m);
    MeanBelowMax(RectSum(f, g, b, b.y2), b.x2 - b.x1, b.y2 - b.y1, m);
  }

  lemma PositiveArea(w: int, h: int)
    requires w > 0 && h > 0
    ensures w * h > 0
  {
  }

  lemma MeanBelowMax(sum: nat, w: int, h: int, m: int)
    requires w > 0 && h > 0 && sum <= w * h * m
    ensures 0.0 <= sum as real / (w * h) as real <= m as real
  {
    PositiveArea(w, h);
    var pixels := w * h;
    assert (sum as real) <= (pixels as real) * (m as real);
  }

  // ---------------------------------------------------------------------
  // Ring buffer and mean
  // ---------------------------------------------------------------------

  function SumR(s: seq<real>): real {
    if s == [] then 0.0 else SumR(s[..|s| - 1]) + s[|s| - 1]
  }

  /** The mean of the samples, 0 for none. */
  function Mean(s: seq<real>): real {
    if s == [] then 0.0 else SumR(s) / |s| as real
  }

  lemma {:induction false} SumRConcat(a: seq<real>, b: seq<real>)
    ensures SumR(a + b) == SumR(a) + SumR(b)
    decreases |b|
  {
    if b == [] {
      assert a + b == a;
    } else {
      var ab := a + b;
      var b' := b[..|b| - 1];
      assert ab[..|ab| - 1] == a + b';
      assert ab[|ab| - 1] == b[|b| - 1];
      assert SumR(ab) == SumR(a + b') + b[|b| - 1];
      SumRConcat(a, b');
      assert SumR(b) == SumR(b') + b[|b| - 1];
    }
  }

  lemma {:induction false} SumRBounds(s: seq<real>, lo: real, hi: real)
    requires forall i :: 0 <= i < |s| ==> lo <= s[i] <= hi
    ensures |s| as real * lo <= SumR(s) <= |s| as real * hi
    decreases |s|
  {
    if s != [] {
      SumRBounds(s[..|s| - 1], lo, hi);
    }
  }

  /** A mean of samples that lie in [lo, hi] lies in [lo, hi]. */
  lemma MeanBounds(s: seq<real>, lo: real, hi: real)
    requires s != [] && forall i :: 0 <= i < |s| ==> lo <= s[i] <= hi
    ensures lo <= Mean(s) <= hi
  {
    SumRBounds(s, lo, hi);
    var n := |s| as real;
    assert SumR(s) / n >= (n * lo) / n;
    assert SumR(s) / n <= (n * hi) / n;
  }

  /**
   * The samples a ring buffer of HISTORY_SIZE slots holds, oldest first:
   * the first count slots until it fills, then the slots from the write
   * index round to the one before it.
   */
  function RingContents(h: seq<real>, count: int, index: int): seq<real>
    requires |h| == HISTORY_SIZE && 0 <= count <= HISTORY_SIZE && 0 <= index < HISTORY_SIZE
  {
    if count < HISTORY_SIZE then h[..count] else h[index..] + h[..index]
  }

  /** Writing a sample at the index and advancing it pushes the sample onto the held window. */
  lemma RingPushed(h: seq<real>, count: int, index: int, x: real)
    requires |h| == HISTORY_SIZE && 0 <= count <= HISTORY_SIZE && 0 <= index < HISTORY_SIZE
    requires count < HISTORY_SIZE ==> index == count
    ensures RingContents(h[index := x], if count < HISTORY_SIZE then count + 1 else HISTORY_SIZE, (index + 1) % HISTORY_SIZE)
         == PushCapped(RingContents(h, count, index), x, HISTORY_SIZE)
  {
    if count < HISTORY_SIZE {
      RingFilling(h, count, x);
    } else {
      RingFull(h, index, x);
    }
  }

  lemma RingFilling(h: seq<real>, count: int, x: real)
    requires |h| == HISTORY_SIZE && 0 <= count < HISTORY_SIZE
    ensures RingContents(h[count := x], count + 1, (count + 1) % HISTORY_SIZE) == h[..count] + [x]
  {
    var h' := h[count := x];
    assert h'[..count + 1] == h[..count] + [x];
    if count + 1 == HISTORY_SIZE {
      assert h'[0..] + h'[..0] == h'[..count + 1];
    }
  }

  lemma RingFull(h: seq<real>, k: int, x: real)
    requires |h| == HISTORY_SIZE && 0 <= k < HISTORY_SIZE
    ensures RingContents(h[k := x], HISTORY_SIZE, (k + 1) % HISTORY_SIZE) == (h[k..] + h[..k])[1..] + [x]
  {
    var h' := h[k := x];
    if k < HISTORY_SIZE - 1 {
      assert h'[k + 1..] + h'[..k + 1] == (h[k..] + h[..k])[1..] + [x];
    } else {
      assert h'[0..] + h'[..0] == (h[k..] + h[..k])[1..] + [x];
    }
  }

  /** Appending to a window that keeps at most cap samples drops the oldest one when full. */
  function PushCapped(s: seq<real>, x: real, cap: nat): (r: seq<real>)
    requires 1 <= cap && |s| <= cap
    ensures |r| == (if |s| < cap then |s| + 1 else cap)
    ensures r[|r| - 1] == x
    ensures r[..|r| - 1] == if |s| < cap then s else s[1..]
  {
    if |s| < cap then s + [x] else s[1..] + [x]
  }

  lemma RectStep(f: seq<byte>, g: Geometry, b: Box, y: int)
    requires Fits(|f|, g) && Inside(b, g) && b.y1 <= y < g.height
    ensures 0 <= RowStart(g, y) && RowStart(g, y) + g.width <= |f|
    ensures RectSum(f, g, b, y + 1) == RectSum(f, g, b, y) + Sum(Segment(f, RowStart(g, y), b.x1, b.x2))
    ensures var r := MaxOf(Segment(f, RowStart(g, y), b.x1, b.x2));
            RectMax(f, g, b, y + 1) == if r > RectMax(f, g, b, y) then r else RectMax(f, g, b, y)
  {
    RowInBuffer(|f|, g, y);
    assert Row(f, g, b.x1, b.x2, y) == Segment(f, RowStart(g, y), b.x1, b.x2);
  }

  /** The row loop of measureBrightnessRect: per-row sums and maxima accumulated over the box. */
  method ScanRows(frame: array<byte>, g: Geometry, b: Box) returns (sum: nat, maxVal: byte)
    requires Fits(frame.Length, g) && Inside(b, g) && b.y1 <= b.y2
    ensures sum == RectSum(frame[..], g, b, b.y2)
    ensures maxVal == RectMax(frame[..], g, b, b.y2)
  {
    ghost var f := frame[..];
    sum, maxVal := 0, 0;
    var y := b.y1;
    while y < b.y2
      invariant b.y1 <= y <= b.y2
      invariant sum == RectSum(f, g, b, y)
      invariant maxVal == RectMax(f, g, b, y)
    {
      RowInBuffer(frame.Length, g, y);
      var rowSum := FastSumRow(frame, RowStart(g, y), b.x1, b.x2);
      var rowMax := FastMaxRow(frame, RowStart(g, y), b.x1, b.x2);
      RectStep(f, g, b, y);
      sum := sum + rowSum;
      if rowMax > maxVal {
        maxVal := rowMax;
      }
      y := y + 1;
    }
  }

  class AutoExposureController {
    var zoneCenterX: int
    var zoneCenterY: int
    var zoneRadius: int
    var zoneDefined: bool
    var targetMin: real
    var targetMax: real
    var targetIdeal: real
    var minShutter: int
    var maxShutter: int
    var minGain: real
    var maxGain: real
    var currentShutter: int
    var currentGain: real
    var currentMode: PresetMode
    var autoEnabled: bool
    var adjustmentSpeed: real
    var minAdjustmentInterval: real
    var lastAdjustmentTime: real
    const history: array<real>
    var historyCount: int
    var historyIndex: int
    /** The samples the ring buffer holds, oldest first. */
    ghost var Recent: seq<real>

    ghost predicate Valid()
      reads this, history
    {
      history.Length == HISTORY_SIZE
      && 0 <= historyCount <= HISTORY_SIZE && 0 <= historyIndex < HISTORY_SIZE
      && (historyCount < HISTORY_SIZE ==> historyIndex == historyCount)
      && Recent == RingContents(history[..], historyCount, historyIndex)
      && targetIdeal != 0.0
      && 0.0 <= adjustmentSpeed <= 1.0
    }

    /** The snapshot of fields the adjustment rule reads. */
    function Settings(): Exposure
      reads this
    {
      Exposure(targetMin, targetMax, targetIdeal, minShutter, maxShutter, minGain, maxGain,
               currentShutter, currentGain, adjustmentSpeed)
    }

    constructor ()
      ensures Valid() && fresh(history)
      ensures !zoneDefined && zoneCenterX == 0 && zoneCenterY == 0 && zoneRadius == 0
      ensures targetMin == 160.0 && targetMax == 200.0 && targetIdeal == 180.0
      ensures minShutter == 500 && maxShutter == 1500 && minGain == 1.0 && maxGain == 16.0
      ensures currentShutter == 800 && currentGain == 10.0 && currentMode == Auto && autoEnabled
      ensures adjustmentSpeed == 0.3 && minAdjustmentInterval == 0.1 && lastAdjustmentTime == 0.0
      ensures historyCount == 0 && historyIndex == 0 && Recent == []
      ensures history[..] == [0.0, 0.0, 0.0, 0.0, 0.0]
    {
      zoneCenterX, zoneCenterY, zoneRadius, zoneDefined := 0, 0, 0, false;
      targetMin, targetMax, targetIdeal := 160.0, 200.0, 180.0;
      minShutter, maxShutter, minGain, maxGain := 500, 1500, 1.0, 16.0;
      currentShutter, currentGain, currentMode, autoEnabled := 800, 10.0, Auto, true;
      adjustmentSpeed, minAdjustmentInterval, lastAdjustmentTime := 0.3, 0.1, 0.0;
      history := new real[HISTORY_SIZE](_ => 0.0);
      historyCount, historyIndex := 0, 0;
      Recent := [];
    }

    method SetBallZone(cx: int, cy: int, radius: int)
      modifies this`zoneCenterX, this`zoneCenterY, this`zoneRadius, this`zoneDefined
      ensures zoneCenterX == cx && zoneCenterY == cy && zoneRadius == radius && zoneDefined
    {
      zoneCenterX, zoneCenterY, zoneRadius, zoneDefined := cx, cy, radius, true;
    }

    /** AUTO only re-enables automatic control; any other mode loads its preset and turns it off. */
    method SetPresetMode(mode: PresetMode)
      requires Valid()
      modifies this`currentShutter, this`currentGain, this`targetIdeal, this`currentMode, this`autoEnabled
      ensures Valid() && currentMode == mode && autoEnabled == (mode == Auto)
      ensures mode == Auto ==>
        currentShutter == old(currentShutter) && currentGain == old(currentGain) && targetIdeal == old(targetIdeal)
      ensures mode != Auto ==>
        var p := PRESETS[ModeIndex(mode)];
        currentShutter == p.shutterUs && currentGain == p.gain && targetIdeal == p.targetBrightness
    {
      if mode == Auto {
        autoEnabled := true;
        currentMode := Auto;
        return;
      }
      var i := ModeIndex(mode);
      if 0 <= i < 5 {
        var p := PRESETS[i];
        currentShutter := p.shutterUs;
        currentGain := p.gain;
        targetIdeal := p.targetBrightness;
        currentMode := mode;
        autoEnabled := false;
      }
    }

    method SetTargetBrightness(min: real, max: real, ideal: real)
      requires Valid() && ideal != 0.0
      modifies this`targetMin, this`targetMax, this`targetIdeal
      ensures Valid() && targetMin == min && targetMax == max && targetIdeal == ideal
    {
      targetMin, targetMax, targetIdeal := min, max, ideal;
    }

    method SetShutterLimits(minUs: int, maxUs: int)
      modifies this`minShutter, this`maxShutter
      ensures minShutter == minUs && maxShutter == maxUs
    {
      minShutter, maxShutter := minUs, maxUs;
    }

    method SetGainLimits(min: real, max: real)
      modifies this`minGain, this`maxGain
      ensures minGain == min && maxGain == max
    {
      minGain, maxGain := min, max;
    }

    /** The speed is clamped to [0, 1]; a value already inside is kept. */
    method SetAdjustmentSpeed(speed: real)
      requires Valid()
      modifies this`adjustmentSpeed
      ensures Valid() && 0.0 <= adjustmentSpeed <= 1.0
      ensures 0.0 <= speed <= 1.0 ==> adjustmentSpeed == speed
      ensures speed < 0.0 ==> adjustmentSpeed == 0.0
      ensures speed > 1.0 ==> adjustmentSpeed == 1.0
    {
      adjustmentSpeed := MaxR(0.0, MinR(1.0, speed));
    }

    /** The zone measured: the configured one, or the centre box of a quarter of the smaller side. */
    function ZoneFor(g: Geometry): (int, int, int)
      reads this
    {
      if zoneDefined then (zoneCenterX, zoneCenterY, zoneRadius)
      else (g.width / 2, g.height / 2, Min(g.width, g.height) / 4)
    }

    method MeasureBrightnessRect(frame: array<byte>, width: int, height: int, stride: int)
      returns (stats: BrightnessStats)
      requires Fits(frame.Length, Geometry(width, height, stride))
      ensures stats == RectStats(frame[..], Geometry(width, height, stride),
                                 ZoneBox((zoneCenterX, zoneCenterY, zoneRadius), Geometry(width, height, stride)))
    {
      var g := Geometry(width, height, stride);
      var boxSize := Trunc(zoneRadius as real * 1.5);
      var x1 := Max(0, zoneCenterX - boxSize);
      var x2 := Min(width, zoneCenterX + boxSize);
      var y1 := Max(0, zoneCenterY - boxSize);
      var y2 := Min(height, zoneCenterY + boxSize);
      var b := Box(x1, x2, y1, y2);
      assert b == ZoneBox((zoneCenterX, zoneCenterY, zoneRadius), g);
      if x2 <= x1 || y2 <= y1 {
        return INVALID_STATS;
      }
      var sum, maxVal := ScanRows(frame, g, b);
      PositiveArea(x2 - x1, y2 - y1);
      var pixels := (x2 - x1) * (y2 - y1);
      stats := BrightnessStats(sum as real / pixels as real, maxVal as real, pixels, true);
      ScanStats(frame[..], g, b, sum, maxVal, pixels);
    }

    /**
     * measureBrightness: no frame gives an invalid result and changes
     * nothing; without a configured zone the centre zone is written into
     * the zone fields (the zone stays unconfigured) before measuring.
     */
    method MeasureBrightness(frame: array?<byte>, width: int, height: int, stride: int)
      returns (stats: BrightnessStats)
      requires frame != null ==> Fits(frame.Length, Geometry(width, height, stride))
      modifies this`zoneCenterX, this`zoneCenterY, this`zoneRadius
      ensures frame == null ==> stats == INVALID_STATS && unchanged(this)
      ensures frame != null ==>
        var g := Geometry(width, height, stride);
        (zoneCenterX, zoneCenterY, zoneRadius) == old(ZoneFor(g))
        && stats == RectStats(frame[..], g, ZoneBox(old(ZoneFor(g)), g))
    {
      if frame == null {
        return INVALID_STATS;
      }
      if !zoneDefined {
        zoneCenterX := width / 2;
        zoneCenterY := height / 2;
        zoneRadius := Min(width, height) / 4;
      }
      stats := MeasureBrightnessRect(frame, width, height, stride);
    }

    /** addToHistory: overwrite the slot at the index, advance it modulo the size, count up to the size. */
    method AddToHistory(brightness: real)
      requires Valid()
      modifies this`historyIndex, this`historyCount, this`Recent, history
      ensures Valid()
      ensures history[..] == old(history[..])[old(historyIndex) := brightness]
      ensures historyIndex == (old(historyIndex) + 1) % HISTORY_SIZE
      ensures historyCount == if old(historyCount) < HISTORY_SIZE then old(historyCount) + 1 else HISTORY_SIZE
      ensures Recent == PushCapped(old(Recent), brightness, HISTORY_SIZE)
    {
      RingPushed(history[..], historyCount, historyIndex, brightness);
      history[historyIndex] := brightness;
      Recent := PushCapped(Recent, brightness, HISTORY_SIZE);
      historyIndex := (historyIndex + 1) % HISTORY_SIZE;
      if historyCount < HISTORY_SIZE {
        historyCount := historyCount + 1;
      }
    }

    /** getSmoothedBrightness: the mean of the first count slots, which is the mean of the held samples. */
    method GetSmoothedBrightness() returns (m: real)
      requires Valid()
      ensures m == (if historyCount == 0 then 0.0 else SumR(history[..historyCount]) / historyCount as real)
      ensures m == Mean(Recent)
    {
      if historyCount == 0 {
        return 0.0;
      }
      var sum := 0.0;
      var i := 0;
      while i < historyCount
        invariant 0 <= i <= historyCount
        invariant sum == SumR(history[..i])
      {
        assert history[..i + 1][..i] == history[..i];
        sum := sum + history[i];
        i := i + 1;
      }
      m := sum / historyCount as real;
      if historyCount == HISTORY_SIZE {
        SumRConcat(history[historyIndex..], history[..historyIndex]);
        SumRConcat(history[..historyIndex], history[historyIndex..]);
        assert history[..historyCount] == history[..];
        assert history[..historyIndex] + history[historyIndex..] == history[..];
      }
    }

    /** The outcome update reports when a gate stops it before any measurement. */
    function Unchanged(reason: Reason): AdjustmentResult
      reads this
    {
      AdjustmentResult(false, currentShutter, currentGain, 0.0, reason)
    }

    predicate Gated(force: bool, now: real)
      reads this
    {
      !force && (!autoEnabled || now - lastAdjustmentTime < minAdjustmentInterval)
    }

    /**
     * update: manual mode (without force) and the rate limit (without force)
     * stop before measuring and change nothing; otherwise the frame is
     * measured and, when the measurement is valid, acted on.
     */
    method Update(frame: array?<byte>, width: int, height: int, stride: int, force: bool, now: real)
      returns (result: AdjustmentResult)
      requires Valid()
      requires frame != null ==> Fits(frame.Length, Geometry(width, height, stride))
      modifies this`zoneCenterX, this`zoneCenterY, this`zoneRadius, this`currentShutter, this`currentGain,
               this`lastAdjustmentTime, this`historyIndex, this`historyCount, this`Recent, history
      ensures Valid()
      ensures !old(autoEnabled) && !force ==> result == old(Unchanged(ManualMode)) && unchanged(this, history)
      ensures old(autoEnabled) && !force && now - old(lastAdjustmentTime) < minAdjustmentInterval ==>
        result == old(Unchanged(RateLimited)) && unchanged(this, history)
      ensures !old(Gated(force, now)) ==> MeasuredAndAdjusted(frame, Geometry(width, height, stride), now, result)
    {
      if !autoEnabled && !force {
        return Unchanged(ManualMode);
      }
      var elapsed := now - lastAdjustmentTime;
      if !force && elapsed < minAdjustmentInterval {
        return Unchanged(RateLimited);
      }
      result := MeasureAndAdjust(frame, width, height, stride, now);
    }

    /**
     * What update does past its gates: the zone fields take the measured
     * zone (a configured zone stays); an invalid measurement changes no
     * setting and no history; otherwise the mean is pushed into the history,
     * the smoothed value drives the adjustment rule, and `adjusted` holds
     * exactly when shutter or gain changed, which is also when the
     * adjustment time moves to now.
     */
    twostate predicate MeasuredAndAdjusted(frame: array?<byte>, g: Geometry, now: real, result: AdjustmentResult)
      requires old(Valid()) && Valid()
      requires frame != null ==> Fits(frame.Length, g)
      reads this, history, frame
    {
      var stats := if frame == null then INVALID_STATS else RectStats(frame[..], g, ZoneBox(old(ZoneFor(g)), g));
      (zoneCenterX, zoneCenterY, zoneRadius)
        == (if frame == null then old((zoneCenterX, zoneCenterY, zoneRadius)) else old(ZoneFor(g)))
      && if !stats.valid then
        result == old(Unchanged(InvalidMeasurement)) && history[..] == old(history[..])
        && Recent == old(Recent) && historyIndex == old(historyIndex) && historyCount == old(historyCount)
        && currentShutter == old(currentShutter) && currentGain == old(currentGain)
        && lastAdjustmentTime == old(lastAdjustmentTime)
      else
        Recent == PushCapped(old(Recent), stats.mean, HISTORY_SIZE)
        && var adj := CalculateAdjustment(old(Settings()), Mean(Recent));
        var changed := adj.shutter != old(currentShutter) || adj.gain != old(currentGain);
        currentShutter == adj.shutter && currentGain == adj.gain
        && lastAdjustmentTime == (if changed then now else old(lastAdjustmentTime))
        && result == AdjustmentResult(changed, adj.shutter, adj.gain, Mean(Recent), adj.reason)
    }

    method MeasureAndAdjust(frame: array?<byte>, width: int, height: int, stride: int, now: real)
      returns (result: AdjustmentResult)
      requires Valid()
      requires frame != null ==> Fits(frame.Length, Geometry(width, height, stride))
      modifies this`zoneCenterX, this`zoneCenterY, this`zoneRadius, this`currentShutter, this`currentGain,
               this`lastAdjustmentTime, this`historyIndex, this`historyCount, this`Recent, history
      ensures Valid()
      ensures MeasuredAndAdjusted(frame, Geometry(width, height, stride), now, result)
    {
      ghost var g := Geometry(width, height, stride);
      ghost var expected := if frame == null then INVALID_STATS else RectStats(frame[..], g, ZoneBox(ZoneFor(g), g));
      ghost var e := Settings();
      ghost var before := Unchanged(InvalidMeasurement);
      var stats := MeasureBrightness(frame, width, height, stride);
      assert stats == expected;
      assert Settings() == e && Unchanged(InvalidMeasurement) == before;
      if !stats.valid {
        return Unchanged(InvalidMeasurement);
      }
      result := AdjustFromSample(stats.mean, now);
    }

    /** Push one sample, smooth, and apply the adjustment rule to the smoothed value. */
    method AdjustFromSample(mean: real, now: real) returns (result: AdjustmentResult)
      requires Valid()
      modifies this`currentShutter, this`currentGain, this`lastAdjustmentTime,
               this`historyIndex, this`historyCount, this`Recent, history
      ensures Valid()
      ensures Recent == PushCapped(old(Recent), mean, HISTORY_SIZE)
      ensures var adj := CalculateAdjustment(old(Settings()), Mean(Recent));
        var changed := adj.shutter != old(currentShutter) || adj.gain != old(currentGain);
        currentShutter == adj.shutter && currentGain == adj.gain
        && lastAdjustmentTime == (if changed then now else old(lastAdjustmentTime))
        && result == AdjustmentResult(changed, adj.shutter, adj.gain, Mean(Recent), adj.reason)
    {
      ghost var e := Settings();
      AddToHistory(mean);
      assert Settings() == e;
      var smoothed := GetSmoothedBrightness();
      assert smoothed == Mean(Recent);
      var adj, changed := ApplyAdjustment(smoothed, now);
      assert adj == CalculateAdjustment(e, Mean(Recent));
      result := AdjustmentResult(changed, currentShutter, currentGain, smoothed, adj.reason);
    }

    /** The last step of update: compute the adjustment and store it when shutter or gain changes. */
    method ApplyAdjustment(smoothed: real, now: real) returns (adj: Adjustment, changed: bool)
      requires Valid()
      modifies this`currentShutter, this`currentGain, this`lastAdjustmentTime
      ensures Valid()
      ensures adj == CalculateAdjustment(old(Settings()), smoothed)
      ensures changed == (adj.shutter != old(currentShutter) || adj.gain != old(currentGain))
      ensures currentShutter == adj.shutter && currentGain == adj.gain
      ensures lastAdjustmentTime == if changed then now else old(lastAdjustmentTime)
    {
      adj := CalculateAdjustment(Settings(), smoothed);
      changed := adj.shutter != currentShutter || adj.gain != currentGain;
      if changed {
        currentShutter := adj.shutter;
        currentGain := adj.gain;
        lastAdjustmentTime := now;
      }
    }

    /** reset: default shutter and gain, automatic mode, and an emptied, zeroed history. */
    method Reset()
      requires Valid()
      modifies this`currentShutter, this`currentGain, this`autoEnabled, this`currentMode,
               this`historyCount, this`historyIndex, this`Recent, history
      ensures Valid()
      ensures currentShutter == 800 && currentGain == 10.0 && autoEnabled && currentMode == Auto
      ensures historyCount == 0 && historyIndex == 0 && Recent == []
      ensures history[..] == [0.0, 0.0, 0.0, 0.0, 0.0]
    {
      currentShutter := 800;
      currentGain := 10.0;
      autoEnabled := true;
      currentMode := Auto;
      historyCount := 0;
      historyIndex := 0;
      forall k | 0 <= k < history.Length {
        history[k] := 0.0;
      }
      Recent := [];
    }
  }

  datatype AdjustmentResult = AdjustmentResult(adjusted: bool, shutterUs: int, gain: real, brightness: real, reason: Reason)
}
