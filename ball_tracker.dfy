/**
 * The ball tracker's session: armed, it keeps the last 30 frames and waits
 * for camera motion (confirmed by the radar when one is connected); once
 * triggered, it follows the ball through a growing search window,
 * rejecting detections that stray from the linear prediction, until enough
 * frames are collected or the ball is lost. Frame pixels, the motion test
 * and the ball search are inputs.
 */
module BallTracker {
  import opened Numbers
  import opened Wrappers
  import opened Geometry

  datatype TrackingState = Idle | Armed | Triggered | Tracking | Analyzing | Complete

  datatype BallPosition = BallPosition(pixelPos: Point2, timestamp: int, frameNumber: int, confidence: real)

  const BUFFER_SIZE: nat := 30
  const MAX_SEARCH_RADIUS: real := 300.0
  const PRE_TRIGGER_FRAMES: nat := 5
  /** Frames the camera is given to settle after arming; the reference frame is the 10th. */
  const SETTLE_FRAMES: int := 10
  /** Misses tolerated right after the hit, counted in tracked positions. */
  const EARLY_MISSES: int := 5
  const RADAR_CONFIRM_MPH: real := 5.0
  /** The largest plausible movement between two frames, in pixels. */
  const MAX_FRAME_TO_FRAME_DISTANCE: real := 100.0
  /** The fixed confidence calculateConfidence gives every tracked position. */
  const TRACKED_CONFIDENCE: real := 0.8

  // ---------------------------------------------------------------------
  // Prediction

  /** The sum of the last m frame-to-frame steps of ps. */
  function StepSum(ps: seq<Point2>, m: nat): Point2
    requires m < |ps|
  {
    if m == 0 then ORIGIN
    else Add(StepSum(ps, m - 1), Sub(ps[|ps| - m], ps[|ps| - m - 1]))
  }

  /** The steps telescope: their sum is the displacement over the last m steps. */
  lemma {:induction false} StepSumTelescopes(ps: seq<Point2>, m: nat)
    requires m < |ps|
    ensures StepSum(ps, m) == Sub(ps[|ps| - 1], ps[|ps| - 1 - m])
  {
    if m > 0 {
      StepSumTelescopes(ps, m - 1);
    }
  }

  /**
   * predictNextPosition: the zone centre before any position, the only
   * position after one, and otherwise the last position moved by the mean
   * of the last (up to) two steps.
   */
  function Predicted(ps: seq<Point2>, zoneCenter: Point2): Point2 {
    if |ps| == 0 then zoneCenter
    else if |ps| == 1 then ps[0]
    else
      var n := Min(3, |ps|);
      Add(ps[|ps| - 1], Div(StepSum(ps, n - 1), (n - 1) as real))
  }

  /** The prediction extrapolates the mean velocity over the last min(3, size) positions. */
  lemma PredictedExtrapolates(ps: seq<Point2>, zoneCenter: Point2)
    requires |ps| >= 2
    ensures var n := Min(3, |ps|);
      Predicted(ps, zoneCenter) == Add(ps[|ps| - 1], Div(Sub(ps[|ps| - 1], ps[|ps| - n]), (n - 1) as real))
  {
    StepSumTelescopes(ps, Min(3, |ps|) - 1);
  }

  /** A ball moving by the same step v between its last positions is predicted to move by v again. */
  lemma ConstantVelocityPredicted(ps: seq<Point2>, zoneCenter: Point2, v: Point2)
    requires |ps| >= 2
    requires Sub(ps[|ps| - 1], ps[|ps| - 2]) == v
    requires |ps| >= 3 ==> Sub(ps[|ps| - 2], ps[|ps| - 3]) == v
    ensures Predicted(ps, zoneCenter) == Add(ps[|ps| - 1], v)
  {
    StepSumTelescopes(ps, Min(3, |ps|) - 1);
  }

  /** predictNextPosition's loop, from the newest step backwards. */
  method PredictNextPosition(ps: seq<Point2>, zoneCenter: Point2) returns (p: Point2)
    ensures p == Predicted(ps, zoneCenter)
  {
    if |ps| == 0 {
      return zoneCenter;
    }
    if |ps| == 1 {
      return ps[0];
    }
    var n := Min(3, |ps|);
    var velocity := ORIGIN;
    var i := |ps| - 1;
    while i >= |ps| - n + 1
      invariant |ps| - n <= i <= |ps| - 1
      invariant velocity == StepSum(ps, |ps| - 1 - i)
    {
      velocity := Add(velocity, Sub(ps[i], ps[i - 1]));
      i := i - 1;
    }
    p := Add(ps[|ps| - 1], Div(velocity, (n - 1) as real));
  }

  /** validatePosition: closer than 100 px to the prediction (compared squared, as the norm is a square root). */
  function ValidPosition(pos: Point2, predicted: Point2): (valid: bool)
    ensures valid ==>
      -MAX_FRAME_TO_FRAME_DISTANCE < pos.x - predicted.x < MAX_FRAME_TO_FRAME_DISTANCE
      && -MAX_FRAME_TO_FRAME_DISTANCE < pos.y - predicted.y < MAX_FRAME_TO_FRAME_DISTANCE
  {
    var d := Sub(pos, predicted);
    SquareBound(d.x, MAX_FRAME_TO_FRAME_DISTANCE);
    SquareBound(d.y, MAX_FRAME_TO_FRAME_DISTANCE);
    SquaredNorm(d) < MAX_FRAME_TO_FRAME_DISTANCE * MAX_FRAME_TO_FRAME_DISTANCE
  }

  /** A square below c * c bounds the value within (-c, c). */
  lemma SquareBound(d: real, c: real)
    requires c > 0.0
    ensures d * d < c * c ==> -c < d < c
  {
    if d >= c {
      assert d * d >= c * d >= c * c;
    } else if d <= -c {
      assert d * d >= -c * d >= c * c;
    }
  }

  /** The prediction itself always validates, and validity does not depend on the order of the two points. */
  lemma ValidPositionFacts(pos: Point2, predicted: Point2)
    ensures ValidPosition(predicted, predicted)
    ensures ValidPosition(pos, predicted) <==> ValidPosition(predicted, pos)
  {
    var d, e := Sub(pos, predicted), Sub(predicted, pos);
    assert e.x * e.x == d.x * d.x;
    assert e.y * e.y == d.y * d.y;
    var z := Sub(predicted, predicted);
    assert z.x == 0.0 && z.y == 0.0;
  }

  // ---------------------------------------------------------------------
  // Search window

  function Pow(rate: real, k: nat): (r: real)
    ensures rate >= 1.0 ==> r >= 1.0
  {
    if k == 0 then 1.0
    else
      var r := rate * Pow(rate, k - 1);
      assert rate >= 1.0 ==> r >= Pow(rate, k - 1) by {
        if rate >= 1.0 {
          assert (rate - 1.0) * Pow(rate, k - 1) >= 0.0;
        }
      }
      r
  }

  /** getSearchRegion's half-width: the zone radius grown by rate^k, capped at 300 px. */
  function SearchRadius(zoneRadius: real, rate: real, framesSinceHit: nat): real {
    MinR(zoneRadius * Pow(rate, framesSinceHit), MAX_SEARCH_RADIUS)
  }

  /** A whole-pixel rectangle, as cv::Rect holds it: top-left corner, width and height. */
  datatype Region = Region(x: int, y: int, width: int, height: int)

  /**
   * The two rounded ends of a span of half-width r around c lie in order
   * and at most 2 * 300 px apart: an odd distance of 601 would need both
   * ends to be ties rounded to even neighbours.
   */
  lemma RoundedSpan(c: real, r: real)
    requires 0.0 <= r <= MAX_SEARCH_RADIUS
    ensures var lo, hi := RoundHalfEven(c - r), RoundHalfEven(c + r);
      lo <= hi && (hi - lo) as real <= 2.0 * MAX_SEARCH_RADIUS
  {
    RoundMonotone(c - r, c + r);
  }

  /**
   * The square of half-width r around c as cv::Rect(Point2f, Point2f)
   * builds it: each corner rounded to the nearest pixel (cvRound), the
   * rectangle spanning the two.
   */
  function Window(c: Point2, r: real): (w: Region)
    ensures w.width >= 0 && w.height >= 0
    ensures 0.0 <= r <= MAX_SEARCH_RADIUS ==>
      w.x == RoundHalfEven(c.x - r) && w.x + w.width == RoundHalfEven(c.x + r)
      && w.y == RoundHalfEven(c.y - r) && w.y + w.height == RoundHalfEven(c.y + r)
      && w.width as real <= 2.0 * MAX_SEARCH_RADIUS && w.height as real <= 2.0 * MAX_SEARCH_RADIUS
  {
    var x0, y0 := RoundHalfEven(c.x - r), RoundHalfEven(c.y - r);
    var x1, y1 := RoundHalfEven(c.x + r), RoundHalfEven(c.y + r);
    assert 0.0 <= r <= MAX_SEARCH_RADIUS ==>
      x0 <= x1 && (x1 - x0) as real <= 2.0 * MAX_SEARCH_RADIUS && y0 <= y1 && (y1 - y0) as real <= 2.0 * MAX_SEARCH_RADIUS
    by {
      if 0.0 <= r <= MAX_SEARCH_RADIUS {
        RoundedSpan(c.x, r);
        RoundedSpan(c.y, r);
      }
    }
    Region(Min(x0, x1), Min(y0, y1), Max(x0, x1) - Min(x0, x1), Max(y0, y1) - Min(y0, y1))
  }

  /**
   * getSearchRegion: the square of that half-width around the last
   * position, as a whole-pixel rectangle. For a non-negative half-width
   * each edge lies within half a pixel of the exact square's, and the
   * window is at most 600 px wide and high.
   */
  function SearchRegion(last: Point2, zoneRadius: real, rate: real, framesSinceHit: nat): (w: Region)
    ensures w.width >= 0 && w.height >= 0
    ensures var r := SearchRadius(zoneRadius, rate, framesSinceHit);
      r >= 0.0 ==>
        Abs(w.x as real - (last.x - r)) <= 0.5 && Abs((w.x + w.width) as real - (last.x + r)) <= 0.5
        && Abs(w.y as real - (last.y - r)) <= 0.5 && Abs((w.y + w.height) as real - (last.y + r)) <= 0.5
        && w.width as real <= 2.0 * MAX_SEARCH_RADIUS && w.height as real <= 2.0 * MAX_SEARCH_RADIUS
  {
    Window(last, SearchRadius(zoneRadius, rate, framesSinceHit))
  }

  /** The rounding shows: around (0.3, 0) with half-width 10.3 the window is 21 px wide and 20 px high. */
  lemma RoundedWindowExample()
    ensures SearchRegion(Point2(0.3, 0.0), 10.3, 1.0, 0) == Region(-10, -10, 21, 20)
  {
    assert SearchRadius(10.3, 1.0, 0) == 10.3;
    assert RoundHalfEven(-10.0) == -10 && RoundHalfEven(10.6) == 11;
    assert RoundHalfEven(-10.3) == -10 && RoundHalfEven(10.3) == 10;
  }

  /**
   * With a growth rate of at least 1 the half-width starts at the zone
   * radius (when that is under 300 px), never shrinks from one frame to the
   * next and never exceeds 300 px; the rounded window of the next frame
   * contains this frame's.
   */
  lemma SearchRegionGrows(last: Point2, zoneRadius: real, rate: real, k: nat)
    requires zoneRadius >= 0.0 && rate >= 1.0
    ensures zoneRadius <= MAX_SEARCH_RADIUS ==> zoneRadius <= SearchRadius(zoneRadius, rate, k)
    ensures SearchRadius(zoneRadius, rate, k) <= SearchRadius(zoneRadius, rate, k + 1) <= MAX_SEARCH_RADIUS
    ensures var w, w' := SearchRegion(last, zoneRadius, rate, k), SearchRegion(last, zoneRadius, rate, k + 1);
      w'.x <= w.x && w'.y <= w.y && w.x + w.width <= w'.x + w'.width && w.y + w.height <= w'.y + w'.height
  {
    RadiusGrows(zoneRadius, rate, k);
    WindowContains(last, SearchRadius(zoneRadius, rate, k), SearchRadius(zoneRadius, rate, k + 1));
  }

  lemma RadiusGrows(zoneRadius: real, rate: real, k: nat)
    requires zoneRadius >= 0.0 && rate >= 1.0
    ensures zoneRadius <= MAX_SEARCH_RADIUS ==> zoneRadius <= SearchRadius(zoneRadius, rate, k)
    ensures 0.0 <= SearchRadius(zoneRadius, rate, k) <= SearchRadius(zoneRadius, rate, k + 1) <= MAX_SEARCH_RADIUS
  {
    var p := Pow(rate, k);
    assert Pow(rate, k + 1) == rate * p;
    assert zoneRadius * (rate * p) - zoneRadius * p == zoneRadius * p * (rate - 1.0);
    assert zoneRadius * p * (rate - 1.0) >= 0.0 by {
      assert zoneRadius * p >= 0.0;
    }
    assert zoneRadius * p - zoneRadius == zoneRadius * (p - 1.0);
    assert zoneRadius * (p - 1.0) >= 0.0;
  }

  /** Widening the half-width moves every rounded edge outward or leaves it. */
  lemma WindowContains(c: Point2, r: real, r': real)
    requires 0.0 <= r <= r' <= MAX_SEARCH_RADIUS
    ensures var w, w' := Window(c, r), Window(c, r');
      w'.x <= w.x && w'.y <= w.y && w.x + w.width <= w'.x + w'.width && w.y + w.height <= w'.y + w'.height
  {
    EdgesOutward(c.x, r, r');
    EdgesOutward(c.y, r, r');
  }

  lemma EdgesOutward(a: real, r: real, r': real)
    requires r <= r'
    ensures RoundHalfEven(a - r') <= RoundHalfEven(a - r) && RoundHalfEven(a + r) <= RoundHalfEven(a + r')
  {
    RoundMonotone(a - r', a - r);
    RoundMonotone(a + r, a + r');
  }

  // ---------------------------------------------------------------------
  // The session

  datatype Radar = NoRadar | Disconnected | Connected(speedMph: real)

  /** The trigger: camera motion, confirmed by the radar above 5 mph unless no radar is connected. */
  function ShouldTrigger(cameraMotion: bool, radar: Radar): (trigger: bool)
    ensures trigger ==> cameraMotion
    ensures radar.Connected? && radar.speedMph <= RADAR_CONFIRM_MPH ==> !trigger
    ensures cameraMotion && !radar.Connected? ==> trigger
  {
    cameraMotion && (!radar.Connected? || radar.speedMph > RADAR_CONFIRM_MPH)
  }

  datatype Event = NoEvent | HitDetected(at: Point2) | TrackingFailed | TrackingComplete(frames: nat)

  /**
   * What one processFrame call sees: whether the camera had a frame, its
   * identity and timestamp, and what the image analysis would find (the
   * resting ball on the reference frame, motion against it, the ball in a
   * search window).
   */
  datatype FrameInput = FrameInput(
    frameEmpty: bool, frameId: int, timestamp: int,
    stationaryBall: Point2, cameraMotion: bool, radar: Radar,
    detect: Region -> Option<Point2>)

  datatype Config = Config(minTrackingFrames: int, maxTrackingFrames: int, searchExpansionRate: real,
                           ballZoneCenter: Point2, ballZoneRadius: real)

  datatype Session = Session(
    state: TrackingState, frameBuffer: seq<int>, timestampBuffer: seq<int>,
    framesSinceArmed: int, frameNumber: int,
    stationaryBallPos: Point2, lastBallPos: Point2, hitTime: int,
    trackedPositions: seq<BallPosition>)

  /**
   * The session invariant: the two buffers stay in step and within 30;
   * while armed nothing is tracked and the buffer holds every frame since
   * arming up to 30; while following the ball fewer than the maximum
   * positions are held.
   */
  predicate SessionInv(s: Session, c: Config) {
    |s.frameBuffer| == |s.timestampBuffer| <= BUFFER_SIZE
    && (s.state == Armed ==>
          s.trackedPositions == [] && s.framesSinceArmed >= 0
          && |s.frameBuffer| == Min(s.framesSinceArmed, BUFFER_SIZE))
    && (s.state in {Triggered, Tracking} ==> |s.trackedPositions| < c.maxTrackingFrames)
  }

  function Positions(tracked: seq<BallPosition>): (ps: seq<Point2>)
    ensures |ps| == |tracked| && forall i :: 0 <= i < |tracked| ==> ps[i] == tracked[i].pixelPos
  {
    seq(|tracked|, i requires 0 <= i < |tracked| => tracked[i].pixelPos)
  }

  /** The pre-trigger positions: the resting ball at the timestamps of the newest (up to) five buffered frames. */
  function PreTrigger(timestamps: seq<int>, stationary: Point2, frameNumber: int): (pre: seq<BallPosition>)
    ensures |pre| == Min(PRE_TRIGGER_FRAMES, |timestamps|)
    ensures forall j :: 0 <= j < |pre| ==>
      pre[j] == BallPosition(stationary, timestamps[|timestamps| - |pre| + j], frameNumber - (|pre| - j), 1.0)
  {
    var n := Min(PRE_TRIGGER_FRAMES, |timestamps|);
    seq(n, j requires 0 <= j < n => BallPosition(stationary, timestamps[|timestamps| - n + j], frameNumber - (n - j), 1.0))
  }

  /** The buffers after one frame: appended, and the oldest dropped beyond 30 frames. */
  function BufferFrame(s: Session, frameId: int, timestamp: int): Session {
    var drop := |s.frameBuffer| + 1 > BUFFER_SIZE;
    var fb := s.frameBuffer + [frameId];
    var tb := s.timestampBuffer + [timestamp];
    s.(frameBuffer := if drop then fb[1..] else fb,
       timestampBuffer := if drop && |tb| > 0 then tb[1..] else tb,
       framesSinceArmed := s.framesSinceArmed + 1)
  }

  /** A frame while armed. */
  function ArmedStep(s: Session, f: FrameInput): (Session, Event) {
    ArmedDecide(BufferFrame(s, f.frameId, f.timestamp), f)
  }

  /** The armed branch after the frame is buffered: settle, record the resting ball, or trigger. */
  function ArmedDecide(b: Session, f: FrameInput): (Session, Event) {
    if b.framesSinceArmed < SETTLE_FRAMES then (b, NoEvent)
    else if b.framesSinceArmed == SETTLE_FRAMES then (b.(stationaryBallPos := f.stationaryBall), NoEvent)
    else if ShouldTrigger(f.cameraMotion, f.radar) then
      (b.(hitTime := f.timestamp, lastBallPos := b.stationaryBallPos, state := Triggered,
          trackedPositions := b.trackedPositions + PreTrigger(b.timestampBuffer, b.stationaryBallPos, b.frameNumber)),
       HitDetected(b.stationaryBallPos))
    else (b, NoEvent)
  }

  /** analyzeTrajectory: too few positions fail and change nothing; otherwise the session is complete. */
  function Analyze(s: Session, c: Config): (Session, Event) {
    if |s.trackedPositions| < c.minTrackingFrames then (s, TrackingFailed)
    else (s.(state := Complete), TrackingComplete(|s.trackedPositions|))
  }

  /** The ball is lost: enough positions are analysed, too few fail and disarm. */
  function Lost(s: Session, c: Config): (Session, Event) {
    if |s.trackedPositions| >= c.minTrackingFrames then Analyze(s.(state := Analyzing), c)
    else (s.(state := Idle), TrackingFailed)
  }

  /** A frame while following the ball. */
  function FollowStep(s: Session, c: Config, f: FrameInput): (out: (Session, Event))
    ensures var n := |s.trackedPositions|;
      n <= |out.0.trackedPositions| <= n + 1 && out.0.trackedPositions[..n] == s.trackedPositions
    ensures var n := |s.trackedPositions|;
      |out.0.trackedPositions| == n + 1 ==>
        out.0.lastBallPos == out.0.trackedPositions[n].pixelPos
        && ValidPosition(out.0.lastBallPos, Predicted(Positions(s.trackedPositions), c.ballZoneCenter))
    ensures out.1 == TrackingFailed ==> |out.0.trackedPositions| < c.minTrackingFrames
  {
    var region := SearchRegion(s.lastBallPos, c.ballZoneRadius, c.searchExpansionRate, |s.trackedPositions|);
    FollowDecide(s, c, f.detect(region), f.timestamp)
  }

  /** The following branch once the search window has been looked at: keep a plausible ball, or give up. */
  function FollowDecide(s: Session, c: Config, found: Option<Point2>, timestamp: int): (Session, Event) {
    var framesSinceHit := |s.trackedPositions|;
    match found
    case Some(ballPos) =>
      var predicted := Predicted(Positions(s.trackedPositions), c.ballZoneCenter);
      if ValidPosition(ballPos, predicted) then
        var t := s.(trackedPositions := s.trackedPositions + [BallPosition(ballPos, timestamp, s.frameNumber, TRACKED_CONFIDENCE)],
                    lastBallPos := ballPos, state := Tracking);
        if |t.trackedPositions| >= c.maxTrackingFrames then Analyze(t.(state := Analyzing), c)
        else (t, NoEvent)
      else Lost(s, c)
    case None =>
      if framesSinceHit > EARLY_MISSES then Lost(s, c) else (s, NoEvent)
  }

  /** processFrame: no frame changes nothing; otherwise the frame is counted and handled by state. */
  function Step(s: Session, c: Config, f: FrameInput): (Session, Event) {
    if f.frameEmpty then (s, NoEvent)
    else
      var s1 := s.(frameNumber := s.frameNumber + 1);
      match s.state
      case Armed => ArmedStep(s1, f)
      case Triggered => FollowStep(s1, c, f)
      case Tracking => FollowStep(s1, c, f)
      case _ => (s1, NoEvent)
  }

  /** processFrame keeps the session invariant. */
  lemma StepKeepsInv(s: Session, c: Config, f: FrameInput)
    requires SessionInv(s, c) && c.maxTrackingFrames > PRE_TRIGGER_FRAMES
    ensures SessionInv(Step(s, c, f).0, c)
  {
    if f.frameEmpty || s.state !in {Armed, Triggered, Tracking} {
    } else if s.state == Armed {
      ArmedKeepsInv(s, c, f);
    } else {
      FollowKeepsInv(s, c, f);
    }
  }

  /** A frame while armed keeps the session invariant, whether it triggers or not. */
  lemma ArmedKeepsInv(s: Session, c: Config, f: FrameInput)
    requires SessionInv(s, c) && s.state == Armed && !f.frameEmpty && c.maxTrackingFrames > PRE_TRIGGER_FRAMES
    ensures SessionInv(Step(s, c, f).0, c)
  {
    var b := BufferFrame(s.(frameNumber := s.frameNumber + 1), f.frameId, f.timestamp);
    assert |b.frameBuffer| == Min(b.framesSinceArmed, BUFFER_SIZE);
  }

  /** A frame while following the ball keeps the session invariant. */
  lemma FollowKeepsInv(s: Session, c: Config, f: FrameInput)
    requires SessionInv(s, c) && s.state in {Triggered, Tracking} && !f.frameEmpty
    ensures SessionInv(Step(s, c, f).0, c)
  {
    var s1 := s.(frameNumber := s.frameNumber + 1);
    FollowStepKeepsInv(s1, c, f);
    assert Step(s, c, f) == FollowStep(s1, c, f);
  }

  /** The following branch itself keeps the session invariant. */
  lemma FollowStepKeepsInv(s: Session, c: Config, f: FrameInput)
    requires SessionInv(s, c) && s.state in {Triggered, Tracking}
    ensures SessionInv(FollowStep(s, c, f).0, c)
  {
  }

  /**
   * The trigger: past the settling frames, an armed session is triggered
   * exactly when the trigger condition holds, and then holds the five
   * pre-trigger positions of the resting ball and follows it from there.
   */
  lemma TriggerExactly(s: Session, c: Config, f: FrameInput)
    requires SessionInv(s, c) && s.state == Armed && !f.frameEmpty && s.framesSinceArmed >= SETTLE_FRAMES
    ensures var (t, e) := Step(s, c, f);
      (t.state == Triggered <==> ShouldTrigger(f.cameraMotion, f.radar))
      && (t.state == Triggered ==>
            |t.trackedPositions| == PRE_TRIGGER_FRAMES && e == HitDetected(s.stationaryBallPos)
            && t.lastBallPos == s.stationaryBallPos && t.hitTime == f.timestamp)
      && (t.state != Triggered ==> t.state == Armed && e == NoEvent)
  {
    var b := BufferFrame(s.(frameNumber := s.frameNumber + 1), f.frameId, f.timestamp);
    assert |b.timestampBuffer| >= SETTLE_FRAMES;
  }

  /**
   * Following the ball ends in one of three ways: it goes on (still
   * following, no event), completes with at least the minimum number of
   * positions, or fails; a session that gives up with too few positions
   * returns to idle, and reaching the maximum always stops following.
   */
  lemma FollowOutcomes(s: Session, c: Config, f: FrameInput)
    requires SessionInv(s, c) && s.state in {Triggered, Tracking} && !f.frameEmpty
    ensures var (t, e) := Step(s, c, f);
      (|| (t.state in {Triggered, Tracking} && e == NoEvent && |t.trackedPositions| < c.maxTrackingFrames)
       || (t.state == Complete && e == TrackingComplete(|t.trackedPositions|) && |t.trackedPositions| >= c.minTrackingFrames)
       || (t.state == Idle && e == TrackingFailed && |t.trackedPositions| < c.minTrackingFrames)
       || (t.state == Analyzing && e == TrackingFailed && |t.trackedPositions| >= c.maxTrackingFrames))
      && |s.trackedPositions| <= |t.trackedPositions| <= |s.trackedPositions| + 1
      && t.trackedPositions[..|s.trackedPositions|] == s.trackedPositions
  {
  }

  /** A detection far from the prediction ends the session at once, however early. */
  lemma StrayDetectionEnds(s: Session, c: Config, f: FrameInput, ballPos: Point2)
    requires s.state in {Triggered, Tracking} && !f.frameEmpty
    requires f.detect(SearchRegion(s.lastBallPos, c.ballZoneRadius, c.searchExpansionRate, |s.trackedPositions|)) == Some(ballPos)
    requires !ValidPosition(ballPos, Predicted(Positions(s.trackedPositions), c.ballZoneCenter))
    ensures Step(s, c, f).0.state in {Idle, Analyzing, Complete}
    ensures Step(s, c, f).1 != NoEvent
  {
  }

  /** Any number of frames. */
  function Run(s: Session, c: Config, fs: seq<FrameInput>): Session
    decreases |fs|
  {
    if fs == [] then s else Step(Run(s, c, fs[..|fs| - 1]), c, fs[|fs| - 1]).0
  }

  /** The invariant holds over any run, and a finished session stays finished. */
  lemma {:induction false} RunKeepsInv(s: Session, c: Config, fs: seq<FrameInput>)
    requires SessionInv(s, c) && c.maxTrackingFrames > PRE_TRIGGER_FRAMES
    ensures SessionInv(Run(s, c, fs), c)
    ensures s.state in {Idle, Analyzing, Complete} ==> Run(s, c, fs).state == s.state
    decreases |fs|
  {
    if fs != [] {
      RunKeepsInv(s, c, fs[..|fs| - 1]);
      StepKeepsInv(Run(s, c, fs[..|fs| - 1]), c, fs[|fs| - 1]);
    }
  }

  class Tracker {
    var state: TrackingState
    var frameBuffer: seq<int>
    var timestampBuffer: seq<int>
    var framesSinceArmed: int
    var frameNumber: int
    var stationaryBallPos: Point2
    var lastBallPos: Point2
    var hitTime: int
    var trackedPositions: seq<BallPosition>

    var minTrackingFrames: int
    var maxTrackingFrames: int
    var searchExpansionRate: real
    var ballZoneCenter: Point2
    var ballZoneRadius: real

    function Current(): Session
      reads this
    {
      Session(state, frameBuffer, timestampBuffer, framesSinceArmed, frameNumber,
              stationaryBallPos, lastBallPos, hitTime, trackedPositions)
    }

    function Settings(): Config
      reads this
    {
      Config(minTrackingFrames, maxTrackingFrames, searchExpansionRate, ballZoneCenter, ballZoneRadius)
    }

    /** The constructor: idle, with the tuned defaults (10 to 60 frames, 25% growth). */
    constructor ()
      ensures state == Idle && trackedPositions == [] && frameBuffer == [] && timestampBuffer == []
      ensures framesSinceArmed == 0 && frameNumber == 0
      ensures minTrackingFrames == 10 && maxTrackingFrames == 60
      ensures searchExpansionRate == 1.25
      ensures SessionInv(Current(), Settings())
    {
      state := Idle;
      frameBuffer, timestampBuffer := [], [];
      framesSinceArmed, frameNumber := 0, 0;
      stationaryBallPos, lastBallPos := ORIGIN, ORIGIN;
      hitTime := 0;
      trackedPositions := [];
      minTrackingFrames, maxTrackingFrames := 10, 60;
      searchExpansionRate := 1.25;
      ballZoneCenter, ballZoneRadius := ORIGIN, 0.0;
    }

    /** armTracking: refused without both calibrations; otherwise a fresh armed session on the calibrated zone. */
    method ArmTracking(ballZoneCalibrated: bool, zoneDefined: bool, zoneCenter: Point2, zoneRadius: real)
      returns (armed: bool)
      modifies this
      ensures armed <==> ballZoneCalibrated && zoneDefined
      ensures !armed ==> Current() == old(Current()) && Settings() == old(Settings())
      ensures armed ==> Current() == old(Current()).(state := Armed, frameBuffer := [], timestampBuffer := [],
                                                     trackedPositions := [], framesSinceArmed := 0, frameNumber := 0)
      ensures armed ==> Settings() == old(Settings()).(ballZoneCenter := zoneCenter, ballZoneRadius := zoneRadius)
      ensures armed ==> SessionInv(Current(), Settings())
    {
      if !ballZoneCalibrated || !zoneDefined {
        return false;
      }
      ballZoneCenter, ballZoneRadius := zoneCenter, zoneRadius;
      frameBuffer, timestampBuffer := [], [];
      trackedPositions := [];
      framesSinceArmed, frameNumber := 0, 0;
      state := Armed;
      armed := true;
    }

    /** disarmTracking: back to idle, keeping what was collected. */
    method DisarmTracking()
      modifies this
      ensures Current() == old(Current()).(state := Idle) && Settings() == old(Settings())
    {
      state := Idle;
    }

    /** resetTracking: idle, with the buffers and the trajectory cleared. */
    method ResetTracking()
      modifies this
      ensures Current() == old(Current()).(state := Idle, trackedPositions := [], frameBuffer := [], timestampBuffer := [])
      ensures Settings() == old(Settings())
      ensures SessionInv(Current(), Settings())
    {
      DisarmTracking();
      trackedPositions := [];
      frameBuffer, timestampBuffer := [], [];
    }

    /** analyzeTrajectory. */
    method AnalyzeTrajectory() returns (e: Event)
      modifies this
      ensures (Current(), e) == Analyze(old(Current()), Settings()) && Settings() == old(Settings())
    {
      if |trackedPositions| < minTrackingFrames {
        return TrackingFailed;
      }
      state := Complete;
      e := TrackingComplete(|trackedPositions|);
    }

    /** The armed branch of processFrame, with the pre-trigger loop. */
    method ArmedFrame(f: FrameInput) returns (e: Event)
      modifies this
      ensures (Current(), e) == ArmedStep(old(Current()), f) && Settings() == old(Settings())
    {
      BufferIncoming(f);
      e := DecideArmed(f);
    }

    /** The frame and its timestamp enter the rolling buffers; one more frame since arming. */
    method BufferIncoming(f: FrameInput)
      modifies this
      ensures Current() == BufferFrame(old(Current()), f.frameId, f.timestamp) && Settings() == old(Settings())
    {
      var drop := |frameBuffer| + 1 > BUFFER_SIZE;
      frameBuffer := frameBuffer + [f.frameId];
      timestampBuffer := timestampBuffer + [f.timestamp];
      if drop {
        frameBuffer := frameBuffer[1..];
        if |timestampBuffer| > 0 {
          timestampBuffer := timestampBuffer[1..];
        }
      }
      framesSinceArmed := framesSinceArmed + 1;
    }

    method DecideArmed(f: FrameInput) returns (e: Event)
      modifies this
      ensures (Current(), e) == ArmedDecide(old(Current()), f) && Settings() == old(Settings())
    {
      e := NoEvent;
      if framesSinceArmed < SETTLE_FRAMES {
      } else if framesSinceArmed == SETTLE_FRAMES {
        stationaryBallPos := f.stationaryBall;
      } else if ShouldTrigger(f.cameraMotion, f.radar) {
        hitTime := f.timestamp;
        lastBallPos := stationaryBallPos;
        state := Triggered;
        e := HitDetected(stationaryBallPos);
        ghost var b := Current();
        AddPreTriggerPositions();
        assert Current() == b.(trackedPositions := b.trackedPositions + PreTrigger(b.timestampBuffer, b.stationaryBallPos, b.frameNumber));
      }
    }

    /** The pre-trigger loop: the resting ball at the newest (up to) five buffered timestamps. */
    method AddPreTriggerPositions()
      modifies this
      ensures Current() == old(Current()).(trackedPositions :=
        old(trackedPositions) + PreTrigger(old(timestampBuffer), old(stationaryBallPos), old(frameNumber)))
      ensures Settings() == old(Settings())
    {
      var tb, ball, number := timestampBuffer, stationaryBallPos, frameNumber;
      var pre := Min(PRE_TRIGGER_FRAMES, |tb|);
      ghost var all := PreTrigger(tb, ball, number);
      var i := |tb| - pre;
      while i < |tb|
        invariant |tb| - pre <= i <= |tb|
        invariant trackedPositions == old(trackedPositions) + all[..i - (|tb| - pre)]
        invariant Current() == old(Current()).(trackedPositions := trackedPositions) && Settings() == old(Settings())
      {
        trackedPositions := trackedPositions + [BallPosition(ball, tb[i], number - (|tb| - i), 1.0)];
        i := i + 1;
      }
      assert all[..pre] == all;
    }

    /** The following branch of processFrame. */
    method FollowFrame(f: FrameInput) returns (e: Event)
      modifies this
      ensures (Current(), e) == FollowStep(old(Current()), Settings(), f) && Settings() == old(Settings())
    {
      var region := SearchRegion(lastBallPos, ballZoneRadius, searchExpansionRate, |trackedPositions|);
      e := DecideFollow(f.detect(region), f.timestamp);
    }

    /** The following branch after the search: track the found ball, or give up on it. */
    method DecideFollow(found: Option<Point2>, timestamp: int) returns (e: Event)
      modifies this
      ensures (Current(), e) == FollowDecide(old(Current()), Settings(), found, timestamp) && Settings() == old(Settings())
    {
      var framesSinceHit := |trackedPositions|;
      e := NoEvent;
      if found.Some? {
        var ballPos := found.value;
        var predicted := PredictNextPosition(Positions(trackedPositions), ballZoneCenter);
        if ValidPosition(ballPos, predicted) {
          trackedPositions := trackedPositions + [BallPosition(ballPos, timestamp, frameNumber, TRACKED_CONFIDENCE)];
          lastBallPos := ballPos;
          state := Tracking;
          if |trackedPositions| >= maxTrackingFrames {
            state := Analyzing;
            e := AnalyzeTrajectory();
          }
        } else {
          e := GiveUp();
        }
      } else if framesSinceHit > EARLY_MISSES {
        e := GiveUp();
      }
    }

    /** The ball is lost: analyse with enough positions, otherwise fail and disarm. */
    method GiveUp() returns (e: Event)
      modifies this
      ensures (Current(), e) == Lost(old(Current()), Settings()) && Settings() == old(Settings())
    {
      if |trackedPositions| >= minTrackingFrames {
        state := Analyzing;
        e := AnalyzeTrajectory();
      } else {
        DisarmTracking();
        e := TrackingFailed;
      }
    }

    /** processFrame. */
    method ProcessFrame(f: FrameInput) returns (e: Event)
      modifies this
      ensures (Current(), e) == Step(old(Current()), old(Settings()), f) && Settings() == old(Settings())
    {
      if f.frameEmpty {
        return NoEvent;
      }
      frameNumber := frameNumber + 1;
      match state
      case Armed =>
        e := ArmedFrame(f);
      case Triggered =>
        e := FollowFrame(f);
      case Tracking =>
        e := FollowFrame(f);
      case _ =>
        e := NoEvent;
    }
  }
}
