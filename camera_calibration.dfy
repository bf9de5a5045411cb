/**
 * The ball-zone readiness machine of the camera calibration: seven states
 * driven by one observation per frame (ball detected, inside the zone,
 * its position, the time in ms), a 15-deep history of in-zone positions
 * with a stability test, the 1000 ms dwell that arms the system, and the
 * live tracker's confidence and miss counters with the search radius they
 * choose. Frames, circle detection and the Kalman filter are not modelled;
 * the clock is a parameter.
 */
module CameraCalibration {
  import opened Wrappers

  datatype BallZoneState =
    | NoBall
    | BallOutOfZone
    | BallInZoneMoving
    | BallInZoneStable
    | Ready
    | ImpactDetected
    | PostImpact

  /** The short name shown for each state. */
  function StateString(s: BallZoneState): (name: string)
    ensures |name| >= 5
  {
    match s
    case NoBall => "NO_BALL"
    case BallOutOfZone => "OUT_OF_ZONE"
    case BallInZoneMoving => "MOVING"
    case BallInZoneStable => "STABILIZING"
    case Ready => "READY"
    case ImpactDetected => "IMPACT"
    case PostImpact => "PROCESSING"
  }

  /** Distinct states have distinct names. */
  lemma StateStringInjective(s: BallZoneState, t: BallZoneState)
    ensures StateString(s) == StateString(t) <==> s == t
  {
  }

  const STABILITY_HISTORY_SIZE: nat := 15
  const STABILITY_THRESHOLD: real := 2.0
  const READY_REQUIRED_MS: int := 1000

  datatype Point = Point(x: real, y: real)

  function SquaredDistance(p: Point, q: Point): (d: real)
    ensures d >= 0.0
  {
    (p.x - q.x) * (p.x - q.x) + (p.y - q.y) * (p.y - q.y)
  }

  /**
   * Within the stability threshold of `origin`: the Euclidean distance is
   * below 2.0 px, that is the squared distance is below 4.0.
   */
  predicate Near(p: Point, origin: Point) {
    SquaredDistance(p, origin) < STABILITY_THRESHOLD * STABILITY_THRESHOLD
  }

  /** A full history none of whose positions is 2 px or more from the first. */
  predicate Stable(h: seq<Point>) {
    |h| >= STABILITY_HISTORY_SIZE && forall i :: 0 <= i < |h| ==> Near(h[i], h[0])
  }

  /**
   * The history after an observation: an in-zone detection is appended and
   * the oldest position dropped beyond 15; anything else clears it.
   */
  function Recorded(h: seq<Point>, detected: bool, inZone: bool, p: Point): (r: seq<Point>)
    ensures !(detected && inZone) ==> r == []
    ensures detected && inZone ==>
      |r| == (if |h| + 1 > STABILITY_HISTORY_SIZE then |h| else |h| + 1)
      && r == (h + [p])[|h| + 1 - |r|..] && r[|r| - 1] == p
    ensures |h| <= STABILITY_HISTORY_SIZE ==> |r| <= STABILITY_HISTORY_SIZE
  {
    if detected && inZone then
      var pushed := h + [p];
      if |pushed| > STABILITY_HISTORY_SIZE then pushed[1..] else pushed
    else []
  }

  /** The part of the detector's state the zone machine reads and writes. */
  datatype Zone = Zone(
    state: BallZoneState, history: seq<Point>, stableStartTime: int, impactTime: int, armed: bool)

  /** updateBallZoneState for one frame observed at time `now` (ms). */
  function ZoneStep(z: Zone, detected: bool, inZone: bool, p: Point, now: int): (out: Zone)
    ensures out.history == Recorded(z.history, detected, inZone, p)
    ensures z.state == NoBall ==>
      out.state == (if detected && inZone then BallInZoneMoving else if detected then BallOutOfZone else NoBall)
    ensures z.state == BallOutOfZone ==>
      out.state == (if !detected then NoBall else if inZone then BallInZoneMoving else BallOutOfZone)
    ensures z.state == BallInZoneMoving ==>
      out.state == (if !detected then NoBall else if !inZone then BallOutOfZone
                    else if Stable(out.history) then BallInZoneStable else BallInZoneMoving)
    ensures z.state == BallInZoneStable ==>
      out.state == (if !detected then NoBall else if !inZone then BallOutOfZone
                    else if !Stable(out.history) then BallInZoneMoving
                    else if now - z.stableStartTime >= READY_REQUIRED_MS then Ready else BallInZoneStable)
    ensures out.state == Ready && z.state != Ready ==>
      z.state == BallInZoneStable && now - z.stableStartTime >= READY_REQUIRED_MS && Stable(out.history)
    ensures out.armed == (z.armed || (z.state != Ready && out.state == Ready))
    ensures z.state == Ready ==>
      (out.state == Ready || out.state == ImpactDetected)
      && (out.state == ImpactDetected <==> !detected || !inZone)
    ensures z.state == ImpactDetected ==> out.state == PostImpact
    ensures z.state == PostImpact ==> out.state == PostImpact
    ensures out.stableStartTime == (if z.state == BallInZoneMoving && out.state == BallInZoneStable then now else z.stableStartTime)
    ensures out.impactTime == (if z.state == Ready && out.state == ImpactDetected then now else z.impactTime)
  {
    Transit(z.(history := Recorded(z.history, detected, inZone, p)), detected, inZone, now)
  }

  /** The state change of updateBallZoneState, once the position history is updated. */
  function Transit(z: Zone, detected: bool, inZone: bool, now: int): (out: Zone)
    ensures out.history == z.history
    ensures out.state == Ready ==> z.state == BallInZoneStable || z.state == Ready
    ensures out.armed == (z.armed || (z.state == BallInZoneStable && out.state == Ready))
    ensures !detected && z.state in {BallOutOfZone, BallInZoneMoving, BallInZoneStable} ==> out.state == NoBall
    ensures z.state == PostImpact ==> out == z
  {
    match z.state
    case NoBall =>
      if detected && inZone then z.(state := BallInZoneMoving)
      else if detected && !inZone then z.(state := BallOutOfZone)
      else z
    case BallOutOfZone =>
      if !detected then z.(state := NoBall)
      else if inZone then z.(state := BallInZoneMoving)
      else z
    case BallInZoneMoving =>
      if !detected || !inZone then z.(state := if !detected then NoBall else BallOutOfZone)
      else if Stable(z.history) then z.(state := BallInZoneStable, stableStartTime := now)
      else z
    case BallInZoneStable =>
      if !detected || !inZone then z.(state := if !detected then NoBall else BallOutOfZone)
      else if !Stable(z.history) then z.(state := BallInZoneMoving)
      else if now - z.stableStartTime >= READY_REQUIRED_MS then z.(state := Ready, armed := true)
      else z
    case Ready =>
      if !detected || !inZone then z.(state := ImpactDetected, impactTime := now)
      else z
    case ImpactDetected => z.(state := PostImpact)
    case PostImpact => z
  }

  /**
   * What holds between frames: the history is at most 15 deep; it is empty
   * exactly when no ball is tracked in the zone (before the impact
   * processing); a stabilizing ball has a stable history; READY is armed.
   */
  ghost predicate ZoneInv(z: Zone) {
    |z.history| <= STABILITY_HISTORY_SIZE
    && (z.state in {NoBall, BallOutOfZone, ImpactDetected} ==> z.history == [])
    && (z.state in {BallInZoneMoving, BallInZoneStable, Ready} ==> z.history != [])
    && (z.state == BallInZoneStable ==> Stable(z.history))
    && (z.state == Ready ==> z.armed)
  }

  /** resetTracking's zone part. */
  const RESET_ZONE := Zone(NoBall, [], 0, 0, false)

  lemma ZoneStepKeepsInv(z: Zone, detected: bool, inZone: bool, p: Point, now: int)
    requires ZoneInv(z)
    ensures ZoneInv(ZoneStep(z, detected, inZone, p, now))
  {
    var h := Recorded(z.history, detected, inZone, p);
    assert detected && inZone ==> h != [];
    TransitKeepsInv(z.(history := h), detected, inZone, now);
  }

  /** The switch keeps the invariant when the history it reads is non-empty exactly while the ball is in the zone. */
  lemma TransitKeepsInv(y: Zone, detected: bool, inZone: bool, now: int)
    requires |y.history| <= STABILITY_HISTORY_SIZE && (y.history != [] <==> detected && inZone)
    requires y.state == Ready ==> y.armed
    ensures ZoneInv(Transit(y, detected, inZone, now))
  {
    match y.state
    case NoBall =>
    case BallOutOfZone =>
    case BallInZoneMoving =>
    case BallInZoneStable =>
    case Ready =>
    case ImpactDetected =>
    case PostImpact =>
  }

  datatype Observation = Observation(detected: bool, inZone: bool, position: Point, now: int)

  /** The zone after a run of frames, oldest first. */
  function RunZone(z: Zone, obs: seq<Observation>): Zone
    decreases |obs|
  {
    if obs == [] then z
    else
      var o := obs[|obs| - 1];
      ZoneStep(RunZone(z, obs[..|obs| - 1]), o.detected, o.inZone, o.position, o.now)
  }

  /**
   * Over any run from a consistent zone the invariant holds, the system
   * stays armed once armed, and once processing an impact it never leaves
   * POST_IMPACT.
   */
  lemma {:induction false} RunZoneKeepsInv(z: Zone, obs: seq<Observation>)
    requires ZoneInv(z)
    ensures var out := RunZone(z, obs);
      ZoneInv(out) && (z.armed ==> out.armed) && (z.state == PostImpact ==> out.state == PostImpact)
    decreases |obs|
  {
    if obs != [] {
      var o := obs[|obs| - 1];
      RunZoneKeepsInv(z, obs[..|obs| - 1]);
      ZoneStepKeepsInv(RunZone(z, obs[..|obs| - 1]), o.detected, o.inZone, o.position, o.now);
    }
  }

  /**
   * Arming needs a stable ball: from a reset, a run that ends READY passed
   * through a stabilizing ball whose dwell of at least 1000 ms ended at a
   * frame in the run.
   */
  /** Frame `k` of the run armed the system: it ended a dwell of at least 1000 ms. */
  ghost predicate ArmedAt(z: Zone, obs: seq<Observation>, k: int) {
    0 <= k < |obs|
    && RunZone(z, obs[..k]).state == BallInZoneStable
    && obs[k].now - RunZone(z, obs[..k]).stableStartTime >= READY_REQUIRED_MS
    && RunZone(z, obs[..k + 1]).state == Ready
  }

  /**
   * Arming needs a stable ball: a run that ends READY from a state that was
   * not READY passed through a stabilizing ball whose dwell of at least
   * 1000 ms ended at a frame in the run.
   */
  lemma {:induction false} ReadyNeedsDwell(z: Zone, obs: seq<Observation>)
    requires z.state != Ready && RunZone(z, obs).state == Ready
    ensures exists k :: ArmedAt(z, obs, k)
    decreases |obs|
  {
    var prefix := obs[..|obs| - 1];
    if RunZone(z, prefix).state == Ready {
      ReadyNeedsDwell(z, prefix);
      var k :| ArmedAt(z, prefix, k);
      ArmedAtExtends(z, obs, k);
    } else {
      ArmedAtLast(z, obs);
    }
  }

  lemma ArmedAtExtends(z: Zone, obs: seq<Observation>, k: int)
    requires obs != [] && ArmedAt(z, obs[..|obs| - 1], k)
    ensures ArmedAt(z, obs, k)
  {
    var prefix := obs[..|obs| - 1];
    assert prefix[..k] == obs[..k] && prefix[..k + 1] == obs[..k + 1];
  }

  lemma ArmedAtLast(z: Zone, obs: seq<Observation>)
    requires obs != [] && RunZone(z, obs[..|obs| - 1]).state != Ready && RunZone(z, obs).state == Ready
    ensures ArmedAt(z, obs, |obs| - 1)
  {
    assert obs[..|obs| - 1 + 1] == obs;
  }

  /** The live tracker's counters. */
  datatype Track = Track(initialized: bool, kalmanInitialized: bool, confidence: int, missedFrames: int)

  const RESET_TRACK := Track(false, false, 0, 0)

  /**
   * A frame in which Hough finds no circle: one more miss; unless the Kalman
   * prediction carries the track (fewer than 10 misses, confidence above 3),
   * more than 15 misses drop the track.
   */
  function NoCircles(t: Track): (out: Track)
    ensures out.missedFrames == t.missedFrames + 1
    ensures out.initialized ==> t.initialized
    ensures var predicted := t.kalmanInitialized && t.missedFrames + 1 < 10 && t.confidence > 3;
      var lost := !predicted && t.missedFrames + 1 > 15;
      out.initialized == (t.initialized && !lost) && out.confidence == (if lost then 0 else t.confidence)
      && out.kalmanInitialized == (t.kalmanInitialized && !lost)
  {
    var t := t.(missedFrames := t.missedFrames + 1);
    if t.kalmanInitialized && t.missedFrames < 10 && t.confidence > 3 then t
    else if t.missedFrames > 15 then t.(initialized := false, kalmanInitialized := false, confidence := 0)
    else t
  }

  /** Every candidate scored below 0.2: one more miss and nothing else. */
  function Rejected(t: Track): (out: Track)
    ensures out.missedFrames == t.missedFrames + 1
    ensures out.(missedFrames := t.missedFrames) == t
  {
    t.(missedFrames := t.missedFrames + 1)
  }

  /** A ball was found: the track is initialized at full confidence and the misses cleared. */
  function Detected(t: Track): (out: Track)
    ensures out.initialized && out.confidence == 10 && out.missedFrames == 0
    ensures out.kalmanInitialized == t.kalmanInitialized
  {
    t.(initialized := true, confidence := 10, missedFrames := 0)
  }

  const LOCKED_RADIUS: real := 30.0
  const MEDIUM_RADIUS: real := 50.0
  const WIDE_RADIUS: real := 100.0
  const UNLIMITED_RADIUS: real := 999999.0

  /**
   * The search radius around the last position: with a track of confidence
   * above 2, 30 px from confidence 8, 50 px from 5 and 100 px below;
   * without one the whole frame (or zone) is searched.
   */
  function SearchRadius(t: Track): (r: real)
    ensures t.initialized && t.confidence > 2 ==>
      (r == LOCKED_RADIUS <==> t.confidence >= 8)
      && (r == MEDIUM_RADIUS <==> 5 <= t.confidence < 8)
      && (r == WIDE_RADIUS <==> t.confidence < 5)
    ensures !(t.initialized && t.confidence > 2) ==> r == UNLIMITED_RADIUS
  {
    if t.initialized && t.confidence > 2 then
      if t.confidence >= 8 then LOCKED_RADIUS
      else if t.confidence >= 5 then MEDIUM_RADIUS
      else WIDE_RADIUS
    else UNLIMITED_RADIUS
  }

  /** More confidence never widens the search. */
  lemma SearchRadiusMonotone(t: Track, u: Track)
    requires t.initialized == u.initialized && t.confidence <= u.confidence
    ensures SearchRadius(u) <= SearchRadius(t)
  {
  }

  /**
   * After a detection the search locks to 30 px and stays locked through
   * up to 15 frames without circles, whatever the Kalman state.
   */
  lemma {:induction false} MissesKeepLock(t: Track, n: nat)
    requires n <= 15
    ensures var u := Misses(Detected(t), n);
      u.initialized && u.confidence == 10 && u.missedFrames == n && SearchRadius(u) == LOCKED_RADIUS
  {
    if n > 0 {
      MissesKeepLock(t, n - 1);
    }
  }

  function Misses(t: Track, n: nat): Track {
    if n == 0 then t else NoCircles(Misses(t, n - 1))
  }

  class BallZoneDetector {
    var zoneState: BallZoneState
    var ballPositionHistory: seq<Point>
    var stableStartTime: int
    var impactTime: int
    var isArmed: bool
    var liveTrackingInitialized: bool
    var kalmanInitialized: bool
    var trackingConfidence: int
    var missedFrames: int
    var zoneCorners: seq<Point>
    var isZoneDefined: bool
    var markerCorners: seq<Point>

    function CurrentZone(): Zone
      reads this
    {
      Zone(zoneState, ballPositionHistory, stableStartTime, impactTime, isArmed)
    }

    function CurrentTrack(): Track
      reads this
    {
      Track(liveTrackingInitialized, kalmanInitialized, trackingConfidence, missedFrames)
    }

    constructor ()
      ensures CurrentZone() == RESET_ZONE && CurrentTrack() == RESET_TRACK
      ensures zoneCorners == [] && !isZoneDefined && markerCorners == []
    {
      zoneState, ballPositionHistory, stableStartTime, impactTime, isArmed := NoBall, [], 0, 0, false;
      liveTrackingInitialized, kalmanInitialized, trackingConfidence, missedFrames := false, false, 0, 0;
      zoneCorners, isZoneDefined, markerCorners := [], false, [];
    }

    /** isBallStable: enough history and the largest movement from the first position under 2 px. */
    method IsBallStable() returns (stable: bool)
      ensures stable == Stable(ballPositionHistory)
    {
      var h := ballPositionHistory;
      if |h| < STABILITY_HISTORY_SIZE {
        return false;
      }
      var maxMovement := 0.0;
      var first := h[0];
      var i := 0;
      while i < |h|
        invariant 0 <= i <= |h|
        invariant maxMovement >= 0.0
        invariant maxMovement < STABILITY_THRESHOLD * STABILITY_THRESHOLD
                  <==> forall j :: 0 <= j < i ==> Near(h[j], first)
      {
        var movement := SquaredDistance(h[i], first);
        if movement > maxMovement {
          maxMovement := movement;
        }
        i := i + 1;
      }
      return maxMovement < STABILITY_THRESHOLD * STABILITY_THRESHOLD;
    }

    /** updateBallZoneState: the new zone is the one `ZoneStep` gives. */
    method UpdateBallZoneState(ballDetected: bool, inZone: bool, ballX: real, ballY: real, now: int)
      modifies this
      ensures CurrentZone() == ZoneStep(old(CurrentZone()), ballDetected, inZone, Point(ballX, ballY), now)
      ensures CurrentTrack() == old(CurrentTrack()) && zoneCorners == old(zoneCorners)
      ensures isZoneDefined == old(isZoneDefined) && markerCorners == old(markerCorners)
    {
      RecordPosition(ballDetected, inZone, Point(ballX, ballY));
      Transition(ballDetected, inZone, now);
    }

    /** The position history: the ball's position appended (at most 15 kept) while it is in the zone, cleared otherwise. */
    method RecordPosition(ballDetected: bool, inZone: bool, p: Point)
      modifies this
      ensures CurrentZone() == old(CurrentZone()).(history := Recorded(old(ballPositionHistory), ballDetected, inZone, p))
      ensures CurrentTrack() == old(CurrentTrack()) && zoneCorners == old(zoneCorners)
      ensures isZoneDefined == old(isZoneDefined) && markerCorners == old(markerCorners)
    {
      if ballDetected && inZone {
        ballPositionHistory := ballPositionHistory + [p];
        if |ballPositionHistory| > STABILITY_HISTORY_SIZE {
          ballPositionHistory := ballPositionHistory[1..];
        }
      } else {
        ballPositionHistory := [];
      }
    }

    /** The zone state machine's switch for one frame. */
    method Transition(ballDetected: bool, inZone: bool, now: int)
      modifies this
      ensures CurrentZone() == Transit(old(CurrentZone()), ballDetected, inZone, now)
      ensures CurrentTrack() == old(CurrentTrack()) && zoneCorners == old(zoneCorners)
      ensures isZoneDefined == old(isZoneDefined) && markerCorners == old(markerCorners)
    {
      match zoneState {
        case NoBall =>
          if ballDetected && inZone {
            zoneState := BallInZoneMoving;
          } else if ballDetected && !inZone {
            zoneState := BallOutOfZone;
          }
        case BallOutOfZone =>
          if !ballDetected {
            zoneState := NoBall;
          } else if inZone {
            zoneState := BallInZoneMoving;
          }
        case BallInZoneMoving =>
          if !ballDetected || !inZone {
            zoneState := if !ballDetected then NoBall else BallOutOfZone;
          } else {
            var stable := IsBallStable();
            if stable {
              zoneState := BallInZoneStable;
              stableStartTime := now;
            }
          }
        case BallInZoneStable =>
          if !ballDetected || !inZone {
            zoneState := if !ballDetected then NoBall else BallOutOfZone;
          } else {
            var stable := IsBallStable();
            if !stable {
              zoneState := BallInZoneMoving;
            } else if now - stableStartTime >= READY_REQUIRED_MS {
              zoneState := Ready;
              isArmed := true;
            }
          }
        case Ready =>
          if !ballDetected || !inZone {
            zoneState := ImpactDetected;
            impactTime := now;
          }
        case ImpactDetected =>
          zoneState := PostImpact;
        case PostImpact =>
      }
    }

    /** resetTracking: back to NO_BALL, disarmed, no history, no track. */
    method ResetTracking()
      modifies this
      ensures CurrentZone() == old(CurrentZone()).(state := NoBall, history := [], armed := false)
      ensures CurrentTrack() == RESET_TRACK
      ensures zoneCorners == old(zoneCorners) && isZoneDefined == old(isZoneDefined)
      ensures markerCorners == old(markerCorners)
    {
      liveTrackingInitialized := false;
      kalmanInitialized := false;
      trackingConfidence := 0;
      missedFrames := 0;
      zoneState := NoBall;
      isArmed := false;
      ballPositionHistory := [];
    }

    /** The counters of detectBallLive for a frame without circles. */
    method OnNoCircles()
      modifies this
      ensures CurrentTrack() == NoCircles(old(CurrentTrack())) && CurrentZone() == old(CurrentZone())
    {
      missedFrames := missedFrames + 1;
      if kalmanInitialized && missedFrames < 10 && trackingConfidence > 3 {
        return;
      }
      if missedFrames > 15 {
        liveTrackingInitialized := false;
        kalmanInitialized := false;
        trackingConfidence := 0;
      }
    }

    /** The counters of detectBallLive when every candidate is rejected. */
    method OnCandidatesRejected()
      modifies this
      ensures CurrentTrack() == Rejected(old(CurrentTrack())) && CurrentZone() == old(CurrentZone())
    {
      missedFrames := missedFrames + 1;
    }

    /** The counters of detectBallLive when a ball is found. */
    method OnBallFound()
      modifies this
      ensures CurrentTrack() == Detected(old(CurrentTrack())) && CurrentZone() == old(CurrentZone())
    {
      if !liveTrackingInitialized {
        liveTrackingInitialized := true;
        trackingConfidence := 10;
      } else {
        trackingConfidence := 10;
      }
      missedFrames := 0;
    }

    /** setZoneCorners: exactly four corners define the zone; anything else changes nothing. */
    method SetZoneCorners(corners: seq<Point>) returns (ok: bool)
      modifies this
      ensures ok <==> |corners| == 4
      ensures ok ==> zoneCorners == corners && isZoneDefined
      ensures !ok ==> zoneCorners == old(zoneCorners) && isZoneDefined == old(isZoneDefined)
      ensures CurrentZone() == old(CurrentZone()) && CurrentTrack() == old(CurrentTrack()) && markerCorners == old(markerCorners)
    {
      if |corners| != 4 {
        return false;
      }
      zoneCorners := corners;
      isZoneDefined := true;
      return true;
    }

    /**
     * setGroundPlanePoints' guard: at least four image points, as many as
     * world points; the image points are kept as the marker corners.
     */
    method SetGroundPlanePoints(imagePoints: seq<Point>, worldPoints: seq<Point>) returns (ok: bool)
      modifies this
      ensures ok <==> |imagePoints| == |worldPoints| && |imagePoints| >= 4
      ensures markerCorners == (if ok then imagePoints else old(markerCorners))
      ensures CurrentZone() == old(CurrentZone()) && CurrentTrack() == old(CurrentTrack())
      ensures zoneCorners == old(zoneCorners) && isZoneDefined == old(isZoneDefined)
    {
      if |imagePoints| != |worldPoints| || |imagePoints| < 4 {
        return false;
      }
      markerCorners := imagePoints;
      return true;
    }
  }
}
