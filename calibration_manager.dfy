/**
 * The camera's pixel scale, taken from the apparent size of a golf ball:
 * a ball of regulation diameter (42.67 mm) imaged with radius r pixels
 * gives 2r / 42.67 pixels per millimetre. The circle detector that finds
 * the ball in a frame is an input (its radius, or 0 when it finds none);
 * signals become the returned outcome.
 */
module CalibrationManager {
  import opened Numbers

  const GOLF_BALL_DIAMETER_MM: real := 42.67

  /** What the manager reports after a calibration attempt. */
  datatype Outcome = CalibrationComplete(pixelsPerMm: real, ballRadiusPixels: int) | CalibrationFailed(reason: string)

  /** The scale for a ball imaged with the given radius in pixels. */
  function PixelsPerMm(radiusPixels: int): (scale: real)
    ensures scale * GOLF_BALL_DIAMETER_MM == 2.0 * radiusPixels as real
    ensures radiusPixels > 0 ==> scale > 0.0
  {
    (radiusPixels as real * 2.0) / GOLF_BALL_DIAMETER_MM
  }

  /**
   * The scale is the one that measures the ball at its regulation size, and
   * a larger image of the ball gives a larger scale.
   */
  lemma ScaleMeasuresBall(r: int, s: int)
    requires 0 < r <= s
    ensures (2.0 * r as real) / PixelsPerMm(r) == GOLF_BALL_DIAMETER_MM
    ensures PixelsPerMm(r) <= PixelsPerMm(s)
  {
    var k := PixelsPerMm(r);
    assert k * GOLF_BALL_DIAMETER_MM == 2.0 * r as real;
    assert PixelsPerMm(s) - k == (2.0 * (s - r) as real) / GOLF_BALL_DIAMETER_MM;
  }

  class Manager {
    var isCalibrating: bool
    var pixelsPerMm: real
    var ballRadiusPixels: int

    /** Not calibrating, and no scale yet. */
    constructor()
      ensures !isCalibrating && pixelsPerMm == 0.0 && ballRadiusPixels == 0
    {
      isCalibrating := false;
      pixelsPerMm := 0.0;
      ballRadiusPixels := 0;
    }

    /**
     * calibrateFromFrame: an empty frame fails at once and changes nothing;
     * otherwise the detected radius, rounded to the nearest pixel, sets
     * the scale when it is positive, and calibration ends in every case.
     */
    method CalibrateFromFrame(frameEmpty: bool, detectedRadius: real) returns (outcome: Outcome)
      modifies this
      ensures frameEmpty ==> outcome == CalibrationFailed("Empty frame")
      ensures frameEmpty ==> isCalibrating == old(isCalibrating)
      ensures !frameEmpty ==> !isCalibrating
      ensures !frameEmpty && detectedRadius > 0.0 ==>
        && ballRadiusPixels == RoundHalfEven(detectedRadius)
        && pixelsPerMm == PixelsPerMm(ballRadiusPixels)
        && outcome == CalibrationComplete(pixelsPerMm, ballRadiusPixels)
      ensures (frameEmpty || detectedRadius <= 0.0) ==>
        pixelsPerMm == old(pixelsPerMm) && ballRadiusPixels == old(ballRadiusPixels) && outcome.CalibrationFailed?
    {
      if frameEmpty {
        return CalibrationFailed("Empty frame");
      }
      isCalibrating := true;
      if detectedRadius > 0.0 {
        var radiusPixels := RoundHalfEven(detectedRadius);
        pixelsPerMm := (radiusPixels as real * 2.0) / GOLF_BALL_DIAMETER_MM;
        ballRadiusPixels := radiusPixels;
        outcome := CalibrationComplete(pixelsPerMm, ballRadiusPixels);
      } else {
        outcome := CalibrationFailed("Could not detect ball in frame. Ensure ball is visible and well-lit.");
      }
      isCalibrating := false;
    }

    /** setManualCalibration: a radius of zero or less is refused and changes nothing. */
    method SetManualCalibration(radiusPixels: int) returns (outcome: Outcome)
      modifies this
      ensures radiusPixels <= 0 ==>
        outcome == CalibrationFailed("Invalid ball radius")
        && pixelsPerMm == old(pixelsPerMm) && ballRadiusPixels == old(ballRadiusPixels)
      ensures radiusPixels > 0 ==>
        && ballRadiusPixels == radiusPixels
        && pixelsPerMm == PixelsPerMm(radiusPixels)
        && outcome == CalibrationComplete(pixelsPerMm, radiusPixels)
      ensures isCalibrating == old(isCalibrating)
    {
      if radiusPixels <= 0 {
        return CalibrationFailed("Invalid ball radius");
      }
      ballRadiusPixels := radiusPixels;
      pixelsPerMm := (radiusPixels as real * 2.0) / GOLF_BALL_DIAMETER_MM;
      outcome := CalibrationComplete(pixelsPerMm, ballRadiusPixels);
    }

    method ResetCalibration()
      modifies this
      ensures pixelsPerMm == 0.0 && ballRadiusPixels == 0 && isCalibrating == old(isCalibrating)
    {
      pixelsPerMm := 0.0;
      ballRadiusPixels := 0;
    }
  }
}
