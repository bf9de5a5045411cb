/**
 * The Python binding of the C++ auto-exposure controller: preset names
 * become modes, numpy frames become (data, width, height, row stride),
 * results become dictionaries, and the two kinds of bad input raise.
 * A raised error is a `Failure` carrying its message.
 */
module FastAutoExposure {
  import opened Wrappers
  import opened AutoExposure

  const NOT_GREY: string := "Frame must be 2D array (grayscale)"

  /** The dictionary measure_brightness returns. */
  datatype MeasureDict = MeasureDict(mean: real, max: real, pixels: int, valid: bool)

  /** The dictionary update returns. */
  datatype UpdateDict = UpdateDict(adjusted: bool, shutter: int, gain: real, brightness: real, reason: string)

  /** A numpy frame as the binding sees it: its number of dimensions, shape and row stride in bytes. */
  datatype FrameInfo = FrameInfo(ndim: int, height: int, width: int, stride: int)

  class PyAutoExposureController {
    const controller: AutoExposureController

    ghost predicate Valid()
      reads this, controller, controller.history
    {
      controller.Valid()
    }

    constructor ()
      ensures Valid() && fresh(controller) && fresh(controller.history)
      ensures controller.autoEnabled && controller.currentShutter == 800 && controller.currentGain == 10.0
    {
      controller := new AutoExposureController();
    }

    method SetBallZone(cx: int, cy: int, radius: int)
      requires Valid()
      modifies controller`zoneCenterX, controller`zoneCenterY, controller`zoneRadius, controller`zoneDefined
      ensures Valid()
      ensures controller.zoneCenterX == cx && controller.zoneCenterY == cy
      ensures controller.zoneRadius == radius && controller.zoneDefined
    {
      controller.SetBallZone(cx, cy, radius);
    }

    /**
     * set_preset_mode: a known name selects its mode; any other raises and
     * changes nothing. AUTO only re-enables automatic control; a fixed mode
     * loads its preset's shutter, gain and target brightness.
     */
    method SetPresetMode(mode: string) returns (r: Result<()>)
      requires Valid()
      modifies controller`currentShutter, controller`currentGain, controller`targetIdeal,
               controller`currentMode, controller`autoEnabled
      ensures Valid()
      ensures ParseModeName(mode).None? ==>
        r == Failure("Unknown preset mode: " + mode) && unchanged(controller)
      ensures ParseModeName(mode).Some? ==>
        var m := ParseModeName(mode).value;
        r == Success(()) && controller.currentMode == m && ModeName(controller.currentMode) == mode
        && controller.autoEnabled == (m == Auto)
        && (m == Auto ==> controller.currentShutter == old(controller.currentShutter)
                          && controller.currentGain == old(controller.currentGain)
                          && controller.targetIdeal == old(controller.targetIdeal))
        && (m != Auto ==> controller.currentShutter == PRESETS[ModeIndex(m)].shutterUs
                          && controller.currentGain == PRESETS[ModeIndex(m)].gain
                          && controller.targetIdeal == PRESETS[ModeIndex(m)].targetBrightness)
    {
      var parsed := ParseModeName(mode);
      if parsed.None? {
        return Failure("Unknown preset mode: " + mode);
      }
      controller.SetPresetMode(parsed.value);
      r := Success(());
    }

    method SetTargetBrightness(min: real, max: real, ideal: real)
      requires Valid() && ideal != 0.0
      modifies controller`targetMin, controller`targetMax, controller`targetIdeal
      ensures Valid()
      ensures controller.targetMin == min && controller.targetMax == max && controller.targetIdeal == ideal
    {
      controller.SetTargetBrightness(min, max, ideal);
    }

    method SetShutterLimits(minUs: int, maxUs: int)
      requires Valid()
      modifies controller`minShutter, controller`maxShutter
      ensures Valid()
      ensures controller.minShutter == minUs && controller.maxShutter == maxUs
    {
      controller.SetShutterLimits(minUs, maxUs);
    }

    method SetGainLimits(min: real, max: real)
      requires Valid()
      modifies controller`minGain, controller`maxGain
      ensures Valid()
      ensures controller.minGain == min && controller.maxGain == max
    {
      controller.SetGainLimits(min, max);
    }

    /** The speed is clamped to [0, 1]; a value already inside is kept. */
    method SetAdjustmentSpeed(speed: real)
      requires Valid()
      modifies controller`adjustmentSpeed
      ensures Valid() && 0.0 <= controller.adjustmentSpeed <= 1.0
      ensures 0.0 <= speed <= 1.0 ==> controller.adjustmentSpeed == speed
      ensures speed < 0.0 ==> controller.adjustmentSpeed == 0.0
      ensures speed > 1.0 ==> controller.adjustmentSpeed == 1.0
    {
      controller.SetAdjustmentSpeed(speed);
    }

    /**
     * measure_brightness: only a two-dimensional frame is measured; the
     * dictionary carries the controller's statistics, and the measured zone
     * is written into the zone fields as the controller does.
     */
    method MeasureBrightness(info: FrameInfo, frame: array<byte>) returns (r: Result<MeasureDict>)
      requires info.ndim == 2 ==> Fits(frame.Length, Geometry(info.width, info.height, info.stride))
      modifies controller`zoneCenterX, controller`zoneCenterY, controller`zoneRadius
      ensures info.ndim != 2 ==> r == Failure(NOT_GREY) && unchanged(controller)
      ensures info.ndim == 2 ==>
        var g := Geometry(info.width, info.height, info.stride);
        var st := RectStats(frame[..], g, ZoneBox(old(controller.ZoneFor(g)), g));
        r == Success(MeasureDict(st.mean, st.max, st.pixels, st.valid))
        && (controller.zoneCenterX, controller.zoneCenterY, controller.zoneRadius) == old(controller.ZoneFor(g))
    {
      if info.ndim != 2 {
        return Failure(NOT_GREY);
      }
      var stats := controller.MeasureBrightness(frame, info.width, info.height, info.stride);
      r := Success(MeasureDict(stats.mean, stats.max, stats.pixels, stats.valid));
    }

    /**
     * update: only a two-dimensional frame is processed; the dictionary is
     * the controller's update result, field by field, with the reason as
     * its text. `outcome` names that result: the manual-mode or rate-limit
     * result when a gate stops the update, and otherwise the one the
     * controller's measure-and-adjust rule gives.
     */
    method Update(info: FrameInfo, frame: array<byte>, force: bool, now: real)
      returns (r: Result<UpdateDict>, ghost outcome: AdjustmentResult)
      requires Valid()
      requires info.ndim == 2 ==> Fits(frame.Length, Geometry(info.width, info.height, info.stride))
      modifies controller`zoneCenterX, controller`zoneCenterY, controller`zoneRadius,
               controller`currentShutter, controller`currentGain, controller`lastAdjustmentTime,
               controller`historyIndex, controller`historyCount, controller`Recent, controller.history
      ensures Valid()
      ensures info.ndim != 2 ==> r == Failure(NOT_GREY) && unchanged(controller, controller.history)
      ensures info.ndim == 2 ==> r == Success(DictOf(outcome))
      ensures info.ndim == 2 ==>
        r.value.shutter == controller.currentShutter && r.value.gain == controller.currentGain
        && (r.value.adjusted <==> controller.currentShutter != old(controller.currentShutter)
                                  || controller.currentGain != old(controller.currentGain))
      ensures info.ndim == 2 && !old(controller.autoEnabled) && !force ==>
        r == Success(UpdateDict(false, controller.currentShutter, controller.currentGain, 0.0, "manual_mode"))
        && unchanged(controller, controller.history)
      ensures info.ndim == 2 && old(controller.autoEnabled) && !force
              && now - old(controller.lastAdjustmentTime) < controller.minAdjustmentInterval ==>
        r == Success(UpdateDict(false, controller.currentShutter, controller.currentGain, 0.0, "rate_limited"))
        && unchanged(controller, controller.history)
      ensures info.ndim == 2 && !old(controller.Gated(force, now)) ==>
        controller.MeasuredAndAdjusted(frame, Geometry(info.width, info.height, info.stride), now, outcome)
    {
      if info.ndim != 2 {
        return Failure(NOT_GREY), AdjustmentResult(false, 0, 0.0, 0.0, NoUpdate);
      }
      var result := controller.Update(frame, info.width, info.height, info.stride, force, now);
      outcome := result;
      r := Success(DictOf(result));
    }

    /** getCurrentShutter: the shutter the next adjustment starts from, and the one a gated update reports. */
    function GetCurrentShutter(): (shutter: int)
      reads this, controller
      ensures shutter == controller.Settings().shutter
      ensures forall reason :: controller.Unchanged(reason).shutterUs == shutter
    {
      controller.currentShutter
    }

    /** getCurrentGain: the gain the next adjustment starts from, and the one a gated update reports. */
    function GetCurrentGain(): (gain: real)
      reads this, controller
      ensures gain == controller.Settings().gain
      ensures forall reason :: controller.Unchanged(reason).gain == gain
    {
      controller.currentGain
    }

    /**
     * isAutoMode: outside automatic mode an unforced update is always
     * gated; in automatic mode it goes ahead once the minimum interval
     * since the last adjustment has passed.
     */
    function IsAutoMode(): (auto: bool)
      reads this, controller
      ensures !auto ==> forall now :: controller.Gated(false, now)
      ensures auto ==> !controller.Gated(false, controller.lastAdjustmentTime + controller.minAdjustmentInterval)
    {
      controller.autoEnabled
    }

    /** reset: default shutter and gain, automatic mode and an empty history; targets, limits and zone stay. */
    method Reset()
      requires Valid()
      modifies controller`currentShutter, controller`currentGain, controller`autoEnabled, controller`currentMode,
               controller`historyCount, controller`historyIndex, controller`Recent, controller.history
      ensures Valid()
      ensures GetCurrentShutter() == 800 && GetCurrentGain() == 10.0 && IsAutoMode()
      ensures controller.Recent == [] && controller.currentMode == Auto
    {
      controller.Reset();
    }
  }

  /** The dictionary update returns for a controller result. */
  function DictOf(res: AdjustmentResult): UpdateDict
  {
    UpdateDict(res.adjusted, res.shutterUs, res.gain, res.brightness, ReasonText(res.reason))
  }
}
