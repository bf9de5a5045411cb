/**
 * The Python auto-exposure controller. It follows the same rule as the
 * C++ one, but keeps the history as a list capped at five samples, reads
 * the clock itself (here the `now` argument), rounds the new gain to two
 * decimals and truncates the new shutter time, and has fixed limits and
 * target band. Sending the settings to the camera may fail: that outcome
 * is the `applied` argument of Update.
 */
module AutoExposurePy {
  import opened Wrappers
  import opened Numbers
  import opened AutoExposure

  const TARGET_MIN: real := 160.0
  const TARGET_MAX: real := 200.0
  const MIN_SHUTTER: int := 500
  const MAX_SHUTTER: int := 1500
  const MIN_GAIN: real := 1.0
  const MAX_GAIN: real := 16.0
  const ADJUSTMENT_SPEED: real := 0.3
  const MIN_ADJUSTMENT_INTERVAL: real := 0.1

  /** Shutter and gain before the final int() and round(..., 2), with the reason. */
  datatype Raw = Raw(shutter: real, gain: real, reason: Reason)

  function RawAdjustment(e: Exposure, b: real): Raw
    requires e.targetIdeal != 0.0
  {
    var ratio := ErrorRatio(e, b);
    if b < e.targetMin then
      if e.gain < e.maxGain then
        Raw(e.shutter as real, MinR(e.maxGain, e.gain * (1.0 + ratio * e.speed * 4.0)), IncreasedGain)
      else if e.shutter < e.maxShutter then
        Raw(MinR(e.maxShutter as real, e.shutter as real + ratio * e.speed * 200.0), e.gain, IncreasedShutter)
      else Raw(e.shutter as real, e.gain, AtMaxExposure)
    else
      if e.gain > e.minGain then
        Raw(e.shutter as real, MaxR(e.minGain, e.gain * (1.0 - ratio * e.speed * 0.5)), DecreasedGain)
      else if e.shutter > e.minShutter then
        Raw(MaxR(e.minShutter as real, e.shutter as real - ratio * e.speed * 100.0), e.gain, DecreasedShutter)
      else Raw(e.shutter as real, e.gain, AtMinExposure)
  }

  /**
   * calculate_adjustment: inside the band the current values come back
   * untouched; outside it the shutter is truncated and the gain rounded to
   * two decimals, whatever the branch.
   */
  function CalculateAdjustmentPy(e: Exposure, b: real): (r: Adjustment)
    requires e.targetIdeal != 0.0
    ensures r.reason == WithinTarget <==> InBand(e, b)
    ensures InBand(e, b) ==> r.shutter == e.shutter && r.gain == e.gain
    ensures !InBand(e, b) ==> HasDigits(r.gain, 100)
  {
    if InBand(e, b) then Adjustment(e.shutter, e.gain, WithinTarget)
    else
      var raw := RawAdjustment(e, b);
      RoundHasDigits(raw.gain, 100);
      Adjustment(Trunc(raw.shutter), Round(raw.gain, 100), raw.reason)
  }

  lemma TruncOfInt(k: int)
    ensures Trunc(k as real) == k
  {
  }

  /**
   * The Python rule against the C++ one: the same reason, the same result
   * inside the band, the C++ gain rounded to two decimals outside it, and
   * the same shutter except when decreasing it by a fractional amount,
   * where Python's truncation of the difference lands one microsecond lower.
   */
  lemma {:induction false} PyMatchesCpp(e: Exposure, b: real)
    requires e.targetIdeal != 0.0 && 0.0 <= e.speed && 0 <= e.minShutter && 0 <= e.shutter
    ensures var c := CalculateAdjustment(e, b);
            var p := CalculateAdjustmentPy(e, b);
            p.reason == c.reason
            && (InBand(e, b) ==> p == c)
            && (!InBand(e, b) ==> p.gain == Round(c.gain, 100))
            && (p.shutter == c.shutter || (c.reason == DecreasedShutter && p.shutter == c.shutter - 1))
  {
    if !InBand(e, b) {
      var ratio := ErrorRatio(e, b);
      TruncOfInt(e.shutter);
      if b < e.targetMin && e.gain >= e.maxGain && e.shutter < e.maxShutter {
        StepNonNegative(ratio, e.speed);
        TruncIncrease(e.shutter, e.maxShutter, ratio * e.speed * 200.0);
      } else if b >= e.targetMin && e.gain <= e.minGain && e.shutter > e.minShutter {
        StepNonNegative(ratio, e.speed);
        TruncDecrease(e.shutter, e.minShutter, ratio * e.speed * 100.0);
      }
    }
  }

  lemma StepNonNegative(ratio: real, speed: real)
    requires 0.0 <= ratio && 0.0 <= speed
    ensures 0.0 <= ratio * speed * 200.0 && 0.0 <= ratio * speed * 100.0
  {
    assert 0.0 <= ratio * speed;
  }

  /** Truncating the capped sum equals adding the truncated increment, then capping. */
  lemma TruncIncrease(shutter: int, maxShutter: int, inc: real)
    requires 0 <= shutter < maxShutter && 0.0 <= inc
    ensures Trunc(MinR(maxShutter as real, shutter as real + inc)) == Min(maxShutter, shutter + Trunc(inc))
  {
    TruncOfInt(maxShutter);
    if shutter as real + inc <= maxShutter as real {
      assert Trunc(shutter as real + inc) == shutter + Trunc(inc);
    }
  }

  /** Truncating the floored difference lands on the C++ value or one below it. */
  lemma TruncDecrease(shutter: int, minShutter: int, dec: real)
    requires 0 <= minShutter < shutter && 0.0 <= dec
    ensures var p := Trunc(MaxR(minShutter as real, shutter as real - dec));
      var c := Max(minShutter, shutter - Trunc(dec));
      p == c || p == c - 1
  {
    TruncOfInt(minShutter);
    if minShutter as real < shutter as real - dec {
      var t := Trunc(dec);
      assert t as real <= dec < t as real + 1.0;
      assert Trunc(shutter as real - dec) == shutter - t || Trunc(shutter as real - dec) == shutter - t - 1;
    }
  }

  /**
   * With limits and a current gain that have at most two decimals, the
   * Python rule keeps shutter and gain inside the limits.
   */
  lemma PyWithinLimits(e: Exposure, b: real)
    requires e.targetIdeal != 0.0 && 0.0 <= e.speed && 0 <= e.minShutter && 0.0 <= e.minGain
    requires HasDigits(e.minGain, 100) && HasDigits(e.maxGain, 100)
    requires e.minShutter <= e.shutter <= e.maxShutter && e.minGain <= e.gain <= e.maxGain
    ensures var p := CalculateAdjustmentPy(e, b);
            e.minShutter <= p.shutter <= e.maxShutter && e.minGain <= p.gain <= e.maxGain
  {
    var c := CalculateAdjustment(e, b);
    PyMatchesCpp(e, b);
    assert e.minGain <= c.gain <= e.maxGain;
    if !InBand(e, b) {
      RoundAtMost(c.gain, e.maxGain, 100);
      RoundAtLeast(c.gain, e.minGain, 100);
      var raw := RawAdjustment(e, b);
      assert e.minShutter as real <= raw.shutter <= e.maxShutter as real;
    }
  }

  /**
   * A gain with at most two decimals survives rounding, so the Python rule
   * changes shutter or gain only when it reports an adjustment.
   */
  lemma PyChangesOnlyWhenAdjusting(e: Exposure, b: real)
    requires e.targetIdeal != 0.0 && HasDigits(e.gain, 100)
    ensures var p := CalculateAdjustmentPy(e, b);
            (p.shutter != e.shutter || p.gain != e.gain) ==> Adjusting(p.reason)
  {
    if !InBand(e, b) {
      var raw := RawAdjustment(e, b);
      if !Adjusting(raw.reason) {
        RoundIdempotent(e.gain, 100);
        TruncOfInt(e.shutter);
      }
    }
  }

  /** The zone box: the configured zone widened by half, or else the centre box of a quarter of the smaller side. */
  function ZoneRegion(center: Option<(int, int)>, radius: Option<real>, g: Geometry): (b: Box)
    requires 0 <= g.width && 0 <= g.height
    ensures Inside(b, g)
  {
    if center.None? || radius.None? then
      ClippedBox(g.width / 2, g.height / 2, Min(g.width, g.height) / 4, g)
    else
      ClippedBox(center.value.0, center.value.1, Trunc(radius.value * 1.5), g)
  }

  /** For a configured zone with a whole radius, the Python box is the C++ box. */
  lemma ConfiguredRegionMatchesCpp(cx: int, cy: int, r: int, g: Geometry)
    requires 0 <= g.width && 0 <= g.height
    ensures ZoneRegion(Some((cx, cy)), Some(r as real), g) == ZoneBox((cx, cy, r), g)
  {
  }

  /** Without a zone, Python widens nothing, so its box lies inside the C++ centre box. */
  lemma DefaultRegionWithinCpp(g: Geometry)
    requires 0 <= g.width && 0 <= g.height
    ensures var p := ZoneRegion(None, None, g);
            var c := ZoneBox((g.width / 2, g.height / 2, Min(g.width, g.height) / 4), g);
            c.x1 <= p.x1 && p.x2 <= c.x2 && c.y1 <= p.y1 && p.y2 <= c.y2
  {
    var q := Min(g.width, g.height) / 4;
    assert q <= Trunc(q as real * 1.5);
  }

  /** The extra fields update reports once a measurement was valid. */
  datatype Detail = Detail(raw: real, max: real, target: real)

  datatype UpdateStatus = UpdateStatus(
    adjusted: bool, reason: Reason, brightness: real, shutter: int, gain: real, detail: Option<Detail>)

  datatype Status = Status(mode: string, autoEnabled: bool, shutter: int, gain: real, target: real, history: seq<real>)

  class AutoExposureController {
    var zoneCenter: Option<(int, int)>
    var zoneRadius: Option<real>
    var targetIdeal: real
    var currentShutter: int
    var currentGain: real
    var lastAdjustmentTime: real
    var history: seq<real>
    /** None stands for automatic mode; a preset name otherwise. */
    var currentMode: Option<PresetMode>
    var autoModeEnabled: bool

    /**
     * The history holds at most five brightness means, each in [0, 255];
     * shutter and gain stay inside the fixed limits, the gain with at most
     * two decimals; automatic mode is on exactly when no preset is current.
     */
    ghost predicate Valid()
      reads this
    {
      |history| <= HISTORY_SIZE
      && (forall i :: 0 <= i < |history| ==> 0.0 <= history[i] <= 255.0)
      && targetIdeal > 0.0
      && MIN_SHUTTER <= currentShutter <= MAX_SHUTTER
      && MIN_GAIN <= currentGain <= MAX_GAIN && HasDigits(currentGain, 100)
      && (autoModeEnabled <==> currentMode.None?) && currentMode != Some(Auto)
    }

    function Settings(): Exposure
      reads this
    {
      Exposure(TARGET_MIN, TARGET_MAX, targetIdeal, MIN_SHUTTER, MAX_SHUTTER, MIN_GAIN, MAX_GAIN,
               currentShutter, currentGain, ADJUSTMENT_SPEED)
    }

    constructor (center: Option<(int, int)>, radius: Option<real>)
      ensures Valid()
      ensures zoneCenter == center && zoneRadius == radius && targetIdeal == 180.0
      ensures currentShutter == 800 && currentGain == 10.0 && lastAdjustmentTime == 0.0
      ensures history == [] && currentMode == None && autoModeEnabled
    {
      zoneCenter, zoneRadius := center, radius;
      targetIdeal := 180.0;
      currentShutter, currentGain := 800, 10.0;
      lastAdjustmentTime := 0.0;
      history := [];
      currentMode, autoModeEnabled := None, true;
      assert HasDigits(10.0, 100);
    }

    method SetBallZone(center: Option<(int, int)>, radius: Option<real>)
      modifies this`zoneCenter, this`zoneRadius
      ensures zoneCenter == center && zoneRadius == radius
    {
      zoneCenter, zoneRadius := center, radius;
    }

    /**
     * set_preset_mode: "auto" turns automatic mode on and forgets the
     * preset; a preset name loads shutter, gain and target and turns it
     * off; any other name is ignored.
     */
    method SetPresetMode(mode: string)
      requires Valid()
      modifies this`currentShutter, this`currentGain, this`targetIdeal, this`currentMode, this`autoModeEnabled
      ensures Valid()
      ensures ParseModeName(mode).None? ==> unchanged(this)
      ensures ParseModeName(mode) == Some(Auto) ==>
        autoModeEnabled && currentMode == None && Settings() == old(Settings())
      ensures ParseModeName(mode).Some? && ParseModeName(mode) != Some(Auto) ==>
        var p := PRESETS[ModeIndex(ParseModeName(mode).value)];
        currentShutter == p.shutterUs && currentGain == p.gain && targetIdeal == p.targetBrightness
        && currentMode == ParseModeName(mode) && !autoModeEnabled
    {
      var parsed := ParseModeName(mode);
      if parsed == Some(Auto) {
        autoModeEnabled := true;
        currentMode := None;
        return;
      }
      if parsed.None? {
        return;
      }
      var p := PRESETS[ModeIndex(parsed.value)];
      assert HasDigits(2.0, 100) && HasDigits(4.0, 100) && HasDigits(12.0, 100) && HasDigits(16.0, 100);
      currentShutter := p.shutterUs;
      currentGain := p.gain;
      targetIdeal := p.targetBrightness;
      currentMode := parsed;
      autoModeEnabled := false;
    }

    /**
     * measure_brightness on a grey frame of height rows by width columns:
     * the mean and max of the zone box, invalid (0, 0) when the box is
     * empty; a valid mean joins the history, which drops its oldest sample
     * beyond five.
     */
    method MeasureBrightness(frame: seq<byte>, width: nat, height: nat) returns (mean: real, maxB: real, valid: bool)
      requires Valid()
      requires Fits(|frame|, Geometry(width, height, width))
      modifies this`history
      ensures Valid()
      ensures var g := Geometry(width, height, width);
              var b := ZoneRegion(zoneCenter, zoneRadius, g);
              var st := RectStats(frame, g, b);
              (valid <==> b.x1 < b.x2 && b.y1 < b.y2)
              && mean == st.mean && maxB == st.max
              && (valid ==> 0.0 <= mean <= maxB <= 255.0)
      ensures history == if valid then PushCapped(old(history), mean, HISTORY_SIZE) else old(history)
    {
      var g := Geometry(width, height, width);
      var b := ZoneRegion(zoneCenter, zoneRadius, g);
      RectStatsValid(frame, g, b);
      if b.x2 <= b.x1 || b.y2 <= b.y1 {
        return 0.0, 0.0, false;
      }
      var st := RectStats(frame, g, b);
      RectStatsMean(frame, g, b);
      mean, maxB, valid := st.mean, st.max, true;
      history := history + [mean];
      if |history| > HISTORY_SIZE {
        history := history[1..];
      }
    }

    /** get_smoothed_brightness: nothing for an empty history, else the mean, which stays in [0, 255]. */
    function SmoothedBrightness(): (r: Option<real>)
      requires Valid()
      reads this
      ensures r.None? <==> history == []
      ensures r.Some? ==> 0.0 <= r.value <= 255.0
    {
      if history == [] then None
      else
        MeanBounds(history, 0.0, 255.0);
        Some(Mean(history))
    }

    /** get_status: the mode name reads back as the current preset, or as "auto" without one. */
    function GetStatus(): (s: Status)
      reads this
      ensures ParseModeName(s.mode) == Some(if currentMode.Some? then currentMode.value else Auto)
      ensures s.history == history && s.autoEnabled == autoModeEnabled
    {
      ModeNameRoundTrip(if currentMode.Some? then currentMode.value else Auto);
      Status(if currentMode.Some? then ModeName(currentMode.value) else "auto",
             autoModeEnabled, currentShutter, currentGain, targetIdeal, history)
    }

    function Unchanged(reason: Reason): UpdateStatus
      reads this
    {
      UpdateStatus(false, reason, 0.0, currentShutter, currentGain, None)
    }

    predicate Gated(force: bool, now: real)
      reads this
    {
      !force && (!autoModeEnabled || now - lastAdjustmentTime < MIN_ADJUSTMENT_INTERVAL)
    }

    /**
     * What update does past its gates: an invalid measurement changes
     * nothing; otherwise the history takes the mean, the rule runs on the
     * smoothed value, the new settings are kept whenever they differ, and
     * `adjusted` and the adjustment time follow only when the camera took them.
     */
    twostate predicate Acted(frame: seq<byte>, g: Geometry, now: real, applied: bool, st: UpdateStatus)
      requires old(Valid()) && Fits(|frame|, g)
      reads this
    {
      var stats := RectStats(frame, g, old(ZoneRegion(zoneCenter, zoneRadius, g)));
      if !stats.valid then
        st == old(Unchanged(InvalidMeasurement)) && history == old(history)
        && currentShutter == old(currentShutter) && currentGain == old(currentGain)
        && lastAdjustmentTime == old(lastAdjustmentTime)
      else
        history == PushCapped(old(history), stats.mean, HISTORY_SIZE)
        && var adj := CalculateAdjustmentPy(old(Settings()), Mean(history));
        var changed := adj.shutter != old(currentShutter) || adj.gain != old(currentGain);
        currentShutter == adj.shutter && currentGain == adj.gain
        && lastAdjustmentTime == (if changed && applied then now else old(lastAdjustmentTime))
        && st == UpdateStatus(changed && applied, adj.reason, Mean(history), adj.shutter, adj.gain,
                              Some(Detail(stats.mean, stats.max, targetIdeal)))
    }

    /**
     * update on a grey frame: manual mode and the rate limit (both unless
     * forced) stop before measuring and change nothing.
     */
    method Update(frame: seq<byte>, width: nat, height: nat, force: bool, now: real, applied: bool)
      returns (st: UpdateStatus)
      requires Valid()
      requires Fits(|frame|, Geometry(width, height, width))
      modifies this`history, this`currentShutter, this`currentGain, this`lastAdjustmentTime
      ensures Valid()
      ensures !old(autoModeEnabled) && !force ==> st == old(Unchanged(ManualMode)) && unchanged(this)
      ensures old(autoModeEnabled) && !force && now - old(lastAdjustmentTime) < MIN_ADJUSTMENT_INTERVAL ==>
        st == old(Unchanged(RateLimited)) && unchanged(this)
      ensures !old(Gated(force, now)) ==> Acted(frame, Geometry(width, height, width), now, applied, st)
    {
      if !autoModeEnabled && !force {
        return Unchanged(ManualMode);
      }
      if !force && now - lastAdjustmentTime < MIN_ADJUSTMENT_INTERVAL {
        return Unchanged(RateLimited);
      }
      st := MeasureAndAct(frame, width, height, now, applied);
    }

    method MeasureAndAct(frame: seq<byte>, width: nat, height: nat, now: real, applied: bool)
      returns (st: UpdateStatus)
      requires Valid()
      requires Fits(|frame|, Geometry(width, height, width))
      modifies this`history, this`currentShutter, this`currentGain, this`lastAdjustmentTime
      ensures Valid()
      ensures Acted(frame, Geometry(width, height, width), now, applied, st)
    {
      var meanBright, maxBright, valid := MeasureBrightness(frame, width, height);
      if !valid {
        return Unchanged(InvalidMeasurement);
      }
      var smoothed := SmoothedBrightness();
      var brightness := if smoothed.Some? then smoothed.value else meanBright;
      var adj, adjusted := Adjust(brightness, now, applied);
      st := UpdateStatus(adjusted, adj.reason, brightness, currentShutter, currentGain,
                         Some(Detail(meanBright, maxBright, targetIdeal)));
    }

    /** The rule's result is kept whenever it differs; only a camera that accepted it counts as adjusted. */
    method Adjust(brightness: real, now: real, applied: bool) returns (adj: Adjustment, adjusted: bool)
      requires Valid()
      modifies this`currentShutter, this`currentGain, this`lastAdjustmentTime
      ensures Valid()
      ensures adj == CalculateAdjustmentPy(old(Settings()), brightness)
      ensures currentShutter == adj.shutter && currentGain == adj.gain
      ensures adjusted == ((adj.shutter != old(currentShutter) || adj.gain != old(currentGain)) && applied)
      ensures lastAdjustmentTime == if adjusted then now else old(lastAdjustmentTime)
    {
      var e := Settings();
      adj := CalculateAdjustmentPy(e, brightness);
      PyWithinLimits(e, brightness);
      if adj.reason == WithinTarget {
        assert adj.gain == currentGain;
      } else {
        assert HasDigits(adj.gain, 100);
      }
      adjusted := false;
      if adj.shutter != currentShutter || adj.gain != currentGain {
        currentShutter := adj.shutter;
        currentGain := adj.gain;
        if applied {
          adjusted := true;
          lastAdjustmentTime := now;
        }
      }
    }

    /** reset: empty history, default shutter and gain, automatic mode; the target stays. */
    method Reset()
      requires Valid()
      modifies this`history, this`currentShutter, this`currentGain, this`autoModeEnabled, this`currentMode
      ensures Valid()
      ensures history == [] && currentShutter == 800 && currentGain == 10.0
      ensures autoModeEnabled && currentMode == None
    {
      history := [];
      currentShutter, currentGain := 800, 10.0;
      autoModeEnabled, currentMode := true, None;
      assert HasDigits(10.0, 100);
    }
  }
}
