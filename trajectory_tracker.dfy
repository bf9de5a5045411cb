/**
 * The trajectory tracker: a bounded record of the ball's positions while
 * tracking is on, the initial velocity and launch figures computed from it
 * when tracking stops, and a parabola fit by the source's own coefficient
 * formulas over the least-squares sums. The Kalman filter,
 * the conversion to world coordinates and the trigonometry are inputs.
 */
module TrajectoryTracker {
  import opened Numbers
  import opened Wrappers
  import opened Geometry

  const MAX_TRAJECTORY_POINTS: nat := 100
  /** Frames used for the initial velocity. */
  const VELOCITY_FRAMES: nat := 10
  const MICROS_PER_SECOND: real := 1000000.0
  /** The vertical launch angle assumed when the trajectory is flat in the model (no height). */
  const DEFAULT_VERTICAL_ANGLE: real := 12.0
  const MPS_TO_MPH: real := 2.23694

  /** A tracked point: the world position (the image position when uncalibrated), timestamp in microseconds. */
  datatype TrajectoryPoint = TrajectoryPoint(position: Point2, imagePosition: Point2, timestamp: int, confidence: real)

  /** timeDeltaSeconds: the distance in seconds between two microsecond timestamps. */
  function TimeDeltaSeconds(t1: int, t2: int): (dt: real)
    ensures dt >= 0.0
    ensures dt * MICROS_PER_SECOND == (if t2 >= t1 then t2 - t1 else t1 - t2) as real
  {
    (if t2 >= t1 then t2 - t1 else t1 - t2) as real / MICROS_PER_SECOND
  }

  /** The order of the two timestamps does not matter, and a timestamp is 0 s from itself. */
  lemma TimeDeltaSymmetric(t1: int, t2: int)
    ensures TimeDeltaSeconds(t1, t2) == TimeDeltaSeconds(t2, t1)
    ensures TimeDeltaSeconds(t1, t1) == 0.0
  {
  }

  /** Appending a point, dropping the oldest beyond 100. */
  function Appended(points: seq<TrajectoryPoint>, p: TrajectoryPoint): (r: seq<TrajectoryPoint>)
    ensures |points| <= MAX_TRAJECTORY_POINTS ==> |r| <= MAX_TRAJECTORY_POINTS
    ensures |r| == (if |points| + 1 > MAX_TRAJECTORY_POINTS then |points| else |points| + 1)
    ensures r[|r| - 1] == p
    ensures r[..|r| - 1] == points[|points| + 1 - |r|..]
  {
    var pushed := points + [p];
    if |pushed| > MAX_TRAJECTORY_POINTS then pushed[1..] else pushed
  }

  /** Any run of appends keeps the newest 100 points, in order. */
  function AppendAll(points: seq<TrajectoryPoint>, ps: seq<TrajectoryPoint>): seq<TrajectoryPoint>
    decreases |ps|
  {
    if ps == [] then points else Appended(AppendAll(points, ps[..|ps| - 1]), ps[|ps| - 1])
  }

  lemma {:induction false} AppendAllKeepsNewest(points: seq<TrajectoryPoint>, ps: seq<TrajectoryPoint>)
    requires |points| <= MAX_TRAJECTORY_POINTS
    ensures var r := AppendAll(points, ps);
      |r| == Min(|points| + |ps|, MAX_TRAJECTORY_POINTS) && r == (points + ps)[|points| + |ps| - |r|..]
    decreases |ps|
  {
    if ps != [] {
      var init := ps[..|ps| - 1];
      AppendAllKeepsNewest(points, init);
      assert points + ps == (points + init) + [ps[|ps| - 1]];
      AppendedSuffix(points + init, AppendAll(points, init), ps[|ps| - 1]);
    }
  }

  /** Appending to a suffix of a list gives a suffix of the extended list. */
  lemma AppendedSuffix(all: seq<TrajectoryPoint>, r0: seq<TrajectoryPoint>, x: TrajectoryPoint)
    requires |r0| <= |all| && r0 == all[|all| - |r0|..]
    ensures var r := Appended(r0, x); r == (all + [x])[|all| + 1 - |r|..]
  {
    var r := Appended(r0, x);
    assert r0 + [x] == (all + [x])[|all| - |r0|..];
    assert r == (r0 + [x])[|r0| + 1 - |r|..];
  }

  /**
   * calculateInitialVelocity: with at least three points, the displacement
   * from the first to the last of the first ten over the time between them,
   * when that time exceeds 1 ms; otherwise zero.
   */
  function InitialVelocity(points: seq<TrajectoryPoint>): (v: Point2)
    ensures |points| < 3 ==> v == ORIGIN
  {
    var n := Min(VELOCITY_FRAMES, |points|);
    if n < 3 then ORIGIN
    else
      var t := TimeDeltaSeconds(points[0].timestamp, points[n - 1].timestamp);
      if t > 0.001 then Div(Sub(points[n - 1].position, points[0].position), t) else ORIGIN
  }

  /** A ball moving at constant velocity v over the first ten points has initial velocity v. */
  lemma UniformMotionVelocity(points: seq<TrajectoryPoint>, v: Point2)
    requires |points| >= 3
    requires var n := Min(VELOCITY_FRAMES, |points|);
      points[n - 1].timestamp - points[0].timestamp > 1000
      && forall i :: 0 <= i < n ==>
        var t := (points[i].timestamp - points[0].timestamp) as real / MICROS_PER_SECOND;
        points[i].position == Point2(points[0].position.x + v.x * t, points[0].position.y + v.y * t)
    ensures InitialVelocity(points) == v
  {
    var n := Min(VELOCITY_FRAMES, |points|);
    var t := (points[n - 1].timestamp - points[0].timestamp) as real / MICROS_PER_SECOND;
    assert TimeDeltaSeconds(points[0].timestamp, points[n - 1].timestamp) == t;
    assert t > 0.001;
    var d := Sub(points[n - 1].position, points[0].position);
    assert d == Point2(v.x * t, v.y * t);
    assert d.x / t == v.x && d.y / t == v.y;
  }

  datatype LaunchMetrics = LaunchMetrics(verticalDeg: real, horizontalDeg: real, speedMps: real)

  /**
   * calculateLaunchAngles and calculateBallSpeed on a velocity without
   * height: the vertical angle is the 12-degree default from five points
   * on, and otherwise the angle of a zero rise; the horizontal angle is the
   * velocity's heading. `atan2Deg` and `sqrt` are the math library's.
   */
  function Launch(v: Point2, pointCount: nat, atan2Deg: (real, real) -> real, sqrt: real -> real): (m: LaunchMetrics)
    ensures pointCount >= 5 ==> m.verticalDeg == DEFAULT_VERTICAL_ANGLE
    ensures m.horizontalDeg == atan2Deg(v.y, v.x)
  {
    var horizontalSpeed := sqrt(v.x * v.x + v.y * v.y);
    var vertical := if pointCount >= 5 then DEFAULT_VERTICAL_ANGLE else atan2Deg(0.0, horizontalSpeed);
    LaunchMetrics(vertical, atan2Deg(v.y, v.x), sqrt(v.x * v.x + v.y * v.y))
  }

  // ---------------------------------------------------------------------
  // fitParabola

  datatype Sums = Sums(sumX: real, sumX2: real, sumX3: real, sumX4: real, sumY: real, sumXY: real, sumX2Y: real)

  const NO_SUMS := Sums(0.0, 0.0, 0.0, 0.0, 0.0, 0.0, 0.0)

  /** One point's contribution to the power sums. */
  function AddPoint(s: Sums, p: Point2): Sums {
    var x, y := p.x, p.y;
    var x2 := x * x;
    Sums(s.sumX + x, s.sumX2 + x2, s.sumX3 + x2 * x, s.sumX4 + x2 * x2, s.sumY + y, s.sumXY + x * y, s.sumX2Y + x2 * y)
  }

  /** The power sums of the first k points. */
  function SumsOf(ps: seq<Point2>, k: nat): Sums
    requires k <= |ps|
  {
    if k == 0 then NO_SUMS else AddPoint(SumsOf(ps, k - 1), ps[k - 1])
  }

  /** The point's vertical distance from the parabola y = a x^2 + b x + c. */
  function Residual(p: Point2, a: real, b: real, c: real): real {
    p.y - (a * p.x * p.x + b * p.x + c)
  }

  /** One point's squared residual against the curve and against the mean, added to r. */
  function AddResiduals(r: (real, real), p: Point2, a: real, b: real, c: real, meanY: real): (r': (real, real))
    ensures r'.0 >= r.0 && r'.1 >= r.1
  {
    var e := Residual(p, a, b, c);
    var d := p.y - meanY;
    assert e * e >= 0.0 && d * d >= 0.0;
    (r.0 + e * e, r.1 + d * d)
  }

  /** The sums of the squared residuals of the first k points against the curve and against their mean. */
  function ResidualsOf(ps: seq<Point2>, k: nat, a: real, b: real, c: real, meanY: real): (r: (real, real))
    requires k <= |ps|
    ensures r.0 >= 0.0 && r.1 >= 0.0
  {
    if k == 0 then (0.0, 0.0) else AddResiduals(ResidualsOf(ps, k - 1, a, b, c, meanY), ps[k - 1], a, b, c, meanY)
  }

  datatype ParabolicFit = ParabolicFit(a: real, b: real, c: real, rSquared: real)

  const NO_FIT := ParabolicFit(0.0, 0.0, 0.0, 0.0)

  /** The determinant of the normal equations' matrix, expanded along its first row. */
  function Denominator(n: real, s: Sums): real {
    n * (s.sumX2 * s.sumX4 - s.sumX3 * s.sumX3)
    - s.sumX * (s.sumX * s.sumX4 - s.sumX3 * s.sumX2)
    + s.sumX2 * (s.sumX * s.sumX3 - s.sumX2 * s.sumX2)
  }

  /**
   * The coefficients by the source's own formulas (which are not Cramer's
   * rule for these equations), c from the first normal equation.
   */
  function Coefficients(n: real, s: Sums, denom: real): (real, real, real)
    requires n != 0.0 && denom != 0.0
  {
    var a := (n * (s.sumX2Y * s.sumX2 - s.sumXY * s.sumX3)
              - s.sumX * (s.sumY * s.sumX2 - s.sumXY * s.sumX)
              + s.sumX2 * (s.sumY * s.sumX3 - s.sumX2Y * s.sumX)) / denom;
    var b := (s.sumY * (s.sumX2 * s.sumX4 - s.sumX3 * s.sumX3)
              - s.sumX * (n * s.sumX4 - s.sumX2 * s.sumX2)
              + s.sumXY * (s.sumX * s.sumX3 - s.sumX2 * s.sumX2)) / denom;
    (a, b, (s.sumY - a * s.sumX2 - b * s.sumX) / n)
  }

  /** R^2 from the residual and total sums of squares; 0 when the points do not vary. */
  function RSquared(ssRes: real, ssTotal: real): real {
    if ssTotal > 0.0 then 1.0 - ssRes / ssTotal else 0.0
  }

  /** The fit for a non-singular system, with R^2 against the mean. */
  function FitFromSums(ps: seq<Point2>, s: Sums, denom: real): ParabolicFit
    requires |ps| > 0 && denom != 0.0
  {
    var n := |ps| as real;
    var (a, b, c) := Coefficients(n, s, denom);
    var r := ResidualsOf(ps, |ps|, a, b, c, s.sumY / n);
    ParabolicFit(a, b, c, RSquared(r.0, r.1))
  }

  /** fitParabola: no fit below three points or for a (nearly) singular system. */
  function Fit(ps: seq<Point2>): ParabolicFit {
    if |ps| < 3 then NO_FIT
    else
      var s := SumsOf(ps, |ps|);
      var denom := Denominator(|ps| as real, s);
      if Abs(denom) < 0.0000000001 then NO_FIT else FitFromSums(ps, s, denom)
  }

  /** The guards give the all-zero fit; any fit's R^2 is at most 1. */
  lemma FitFacts(ps: seq<Point2>)
    ensures |ps| < 3 ==> Fit(ps) == NO_FIT
    ensures |ps| >= 3 && Abs(Denominator(|ps| as real, SumsOf(ps, |ps|))) < 0.0000000001 ==> Fit(ps) == NO_FIT
    ensures Fit(ps).rSquared <= 1.0
  {
    if |ps| >= 3 {
      var s := SumsOf(ps, |ps|);
      var denom := Denominator(|ps| as real, s);
      if Abs(denom) >= 0.0000000001 {
        var n := |ps| as real;
        var (a, b, c) := Coefficients(n, s, denom);
        var r := ResidualsOf(ps, |ps|, a, b, c, s.sumY / n);
        if r.1 > 0.0 {
          assert r.0 / r.1 >= 0.0;
        }
      }
    }
  }

  /** fitParabola's two loops: the power sums, then the residuals. */
  method FitParabola(ps: seq<Point2>) returns (fit: ParabolicFit)
    ensures fit == Fit(ps)
  {
    if |ps| < 3 {
      return NO_FIT;
    }
    var s := NO_SUMS;
    var i := 0;
    while i < |ps|
      invariant 0 <= i <= |ps| && s == SumsOf(ps, i)
    {
      s := AddPoint(s, ps[i]);
      i := i + 1;
    }
    var n := |ps| as real;
    var denom := Denominator(n, s);
    if Abs(denom) < 0.0000000001 {
      return NO_FIT;
    }
    var (a, b, c) := Coefficients(n, s, denom);
    var meanY := s.sumY / n;
    var ssTotal, ssRes := 0.0, 0.0;
    var j := 0;
    while j < |ps|
      invariant 0 <= j <= |ps| && (ssRes, ssTotal) == ResidualsOf(ps, j, a, b, c, meanY)
    {
      var r := AddResiduals((ssRes, ssTotal), ps[j], a, b, c, meanY);
      ssRes, ssTotal := r.0, r.1;
      j := j + 1;
    }
    fit := ParabolicFit(a, b, c, RSquared(ssRes, ssTotal));
  }

  class Tracker {
    var isTracking: bool
    var trackingStartTime: int
    var trajectoryPoints: seq<TrajectoryPoint>
    var consecutiveMisses: int
    var launchMetricsCalculated: bool
    var launchAngleVertical: real
    var launchAngleHorizontal: real
    var ballSpeedMps: real

    /** The bound on the trajectory. */
    predicate Valid()
      reads this
    {
      |trajectoryPoints| <= MAX_TRAJECTORY_POINTS
    }

    constructor ()
      ensures Valid() && !isTracking && trajectoryPoints == [] && consecutiveMisses == 0
      ensures !launchMetricsCalculated && launchAngleVertical == 0.0 && launchAngleHorizontal == 0.0 && ballSpeedMps == 0.0
    {
      isTracking := false;
      trackingStartTime := 0;
      trajectoryPoints := [];
      consecutiveMisses := 0;
      launchMetricsCalculated := false;
      launchAngleVertical, launchAngleHorizontal, ballSpeedMps := 0.0, 0.0, 0.0;
    }

    /** The ball speed in miles per hour. */
    function BallSpeedMph(): (mph: real)
      reads this
      ensures ballSpeedMps >= 0.0 ==> mph >= ballSpeedMps
    {
      ballSpeedMps * MPS_TO_MPH
    }

    /** startTracking: ignored while tracking; otherwise an empty trajectory started at `now`. */
    method StartTracking(now: int)
      requires Valid()
      modifies this
      ensures Valid()
      ensures old(isTracking) ==> unchanged(this)
      ensures !old(isTracking) ==>
        isTracking && trackingStartTime == now && trajectoryPoints == [] && consecutiveMisses == 0
        && !launchMetricsCalculated
      ensures !old(isTracking) ==>
        launchAngleVertical == old(launchAngleVertical) && launchAngleHorizontal == old(launchAngleHorizontal)
        && ballSpeedMps == old(ballSpeedMps)
    {
      if isTracking {
        return;
      }
      isTracking := true;
      trackingStartTime := now;
      trajectoryPoints := [];
      consecutiveMisses := 0;
      launchMetricsCalculated := false;
    }

    /**
     * updateTracking: refused when not tracking; otherwise the point is
     * appended within the bound and the miss count cleared. `world` is the
     * calibrated world position, absent without extrinsic calibration.
     */
    method UpdateTracking(ballPosition: Point2, timestamp: int, confidence: real, world: Option<Point2>)
      returns (accepted: bool)
      requires Valid()
      modifies this
      ensures Valid()
      ensures accepted <==> old(isTracking)
      ensures !accepted ==> unchanged(this)
      ensures accepted ==>
        trajectoryPoints == Appended(old(trajectoryPoints),
          TrajectoryPoint(if world.Some? then world.value else ballPosition, ballPosition, timestamp, confidence))
        && consecutiveMisses == 0
      ensures isTracking == old(isTracking) && launchMetricsCalculated == old(launchMetricsCalculated)
      ensures launchAngleVertical == old(launchAngleVertical) && launchAngleHorizontal == old(launchAngleHorizontal)
      ensures ballSpeedMps == old(ballSpeedMps) && trackingStartTime == old(trackingStartTime)
    {
      if !isTracking {
        return false;
      }
      var position := if world.Some? then world.value else ballPosition;
      trajectoryPoints := trajectoryPoints + [TrajectoryPoint(position, ballPosition, timestamp, confidence)];
      if |trajectoryPoints| > MAX_TRAJECTORY_POINTS {
        trajectoryPoints := trajectoryPoints[1..];
      }
      consecutiveMisses := 0;
      accepted := true;
    }

    /** calculateInitialVelocity's loop over the first ten points. */
    method CalculateInitialVelocity() returns (v: Point2)
      ensures v == InitialVelocity(trajectoryPoints)
    {
      var n := Min(VELOCITY_FRAMES, |trajectoryPoints|);
      if n < 3 {
        return ORIGIN;
      }
      var times, xs, ys := [], [], [];
      var t0 := trajectoryPoints[0].timestamp;
      var i := 0;
      while i < n
        invariant 0 <= i <= n && |times| == |xs| == |ys| == i
        invariant forall j :: 0 <= j < i ==> times[j] == TimeDeltaSeconds(t0, trajectoryPoints[j].timestamp)
        invariant forall j :: 0 <= j < i ==> xs[j] == trajectoryPoints[j].position.x && ys[j] == trajectoryPoints[j].position.y
      {
        times := times + [TimeDeltaSeconds(t0, trajectoryPoints[i].timestamp)];
        xs := xs + [trajectoryPoints[i].position.x];
        ys := ys + [trajectoryPoints[i].position.y];
        i := i + 1;
      }
      v := ORIGIN;
      if times != [] && times[|times| - 1] > 0.001 {
        v := Point2((xs[|xs| - 1] - xs[0]) / times[|times| - 1], (ys[|ys| - 1] - ys[0]) / times[|times| - 1]);
      }
    }

    /**
     * stopTracking: ignored when not tracking; otherwise tracking stops and,
     * with at least three points, the launch figures are computed from the
     * initial velocity.
     */
    method StopTracking(atan2Deg: (real, real) -> real, sqrt: real -> real)
      requires Valid()
      modifies this
      ensures Valid()
      ensures !old(isTracking) ==> unchanged(this)
      ensures old(isTracking) ==> !isTracking && trajectoryPoints == old(trajectoryPoints)
      ensures old(isTracking) ==> consecutiveMisses == old(consecutiveMisses) && trackingStartTime == old(trackingStartTime)
      ensures old(isTracking) && |trajectoryPoints| >= 3 ==>
        var m := Launch(InitialVelocity(trajectoryPoints), |trajectoryPoints|, atan2Deg, sqrt);
        launchMetricsCalculated && launchAngleVertical == m.verticalDeg
        && launchAngleHorizontal == m.horizontalDeg && ballSpeedMps == m.speedMps
      ensures old(isTracking) && |trajectoryPoints| < 3 ==>
        launchMetricsCalculated == old(launchMetricsCalculated) && launchAngleVertical == old(launchAngleVertical)
        && launchAngleHorizontal == old(launchAngleHorizontal) && ballSpeedMps == old(ballSpeedMps)
    {
      if !isTracking {
        return;
      }
      isTracking := false;
      if |trajectoryPoints| >= 3 {
        var v := CalculateInitialVelocity();
        var m := Launch(v, |trajectoryPoints|, atan2Deg, sqrt);
        launchAngleVertical, launchAngleHorizontal := m.verticalDeg, m.horizontalDeg;
        ballSpeedMps := m.speedMps;
        launchMetricsCalculated := true;
      }
    }

    /** reset: not tracking, no points, no misses, all figures zero. */
    method Reset()
      modifies this
      ensures Valid() && !isTracking && trajectoryPoints == [] && consecutiveMisses == 0
      ensures !launchMetricsCalculated && launchAngleVertical == 0.0 && launchAngleHorizontal == 0.0 && ballSpeedMps == 0.0
      ensures trackingStartTime == old(trackingStartTime)
    {
      isTracking := false;
      trajectoryPoints := [];
      consecutiveMisses := 0;
      launchAngleVertical, launchAngleHorizontal, ballSpeedMps := 0.0, 0.0, 0.0;
      launchMetricsCalculated := false;
    }
  }
}
