/**
 * The hybrid radar-plus-camera shot check of the capture loop: a ball is
 * locked when first seen; once the radar reports an impact, the camera
 * confirms it only if the locked ball moved past a threshold along the
 * configured axis, and otherwise the swing is a practice swing. A bounded
 * buffer holds the latest frames for the replay. Frames are opaque
 * numbers; reading the camera pipe, circle detection and writing replays
 * are not modelled.
 */
module CaptureManager {
  import opened Wrappers
  import opened Numbers

  /** A detected ball in pixels; radius -1 means none was found. */
  datatype BallDetection = BallDetection(x: int, y: int, radius: int, confidence: real)

  const NO_BALL := BallDetection(-1, -1, -1, 0.0)
  const SAME_BALL_PX: int := 50
  const BUFFER_SIZE: nat := 40

  /** The square root of `n` rounded down, as a cast of the C++ `sqrt` to `int` gives it. */
  function FloorSqrt(n: nat): (r: nat)
    ensures r * r <= n < (r + 1) * (r + 1)
  {
    if n == 0 then 0
    else
      var s := FloorSqrt(n - 1);
      if (s + 1) * (s + 1) <= n then s + 1 else s
  }

  /** isSameBall: both balls present and the truncated distance of their centres below 50 px. */
  function IsSameBall(a: BallDetection, b: BallDetection): (same: bool)
    ensures same ==>
      a.radius >= 0 && b.radius >= 0 && (a.x - b.x) * (a.x - b.x) + (a.y - b.y) * (a.y - b.y) < SAME_BALL_PX * SAME_BALL_PX
    ensures a.radius >= 0 && b.radius >= 0 && a.x == b.x && a.y == b.y ==> same
  {
    if a.radius < 0 || b.radius < 0 then false
    else
      var dx, dy := a.x - b.x, a.y - b.y;
      var r := FloorSqrt(dx * dx + dy * dy);
      MulMonotone(if r + 1 <= SAME_BALL_PX then r + 1 else SAME_BALL_PX, if r + 1 <= SAME_BALL_PX then SAME_BALL_PX else r + 1);
      r < SAME_BALL_PX
  }

  /** Truncating the distance loses nothing here: the same ball means a squared distance below 2500. */
  lemma SameBallDistance(a: BallDetection, b: BallDetection)
    ensures IsSameBall(a, b) <==>
      a.radius >= 0 && b.radius >= 0 && (a.x - b.x) * (a.x - b.x) + (a.y - b.y) * (a.y - b.y) < SAME_BALL_PX * SAME_BALL_PX
  {
    if a.radius >= 0 && b.radius >= 0 {
      var d := (a.x - b.x) * (a.x - b.x) + (a.y - b.y) * (a.y - b.y);
      var r := FloorSqrt(d);
      if r < SAME_BALL_PX {
        assert (r + 1) * (r + 1) <= SAME_BALL_PX * SAME_BALL_PX by {
          assert r + 1 <= SAME_BALL_PX;
          MulMonotone(r + 1, SAME_BALL_PX);
        }
      } else {
        MulMonotone(SAME_BALL_PX, r);
      }
    }
  }

  lemma MulMonotone(a: nat, b: nat)
    requires a <= b
    ensures a * a <= b * b
  {
    assert a * a <= a * b <= b * b;
  }

  /** A present ball is the same ball as itself. */
  lemma SameBallReflexive(a: BallDetection)
    requires a.radius >= 0
    ensures IsSameBall(a, a)
  {
    assert FloorSqrt(0) == 0;
  }

  /**
   * detectImpact: with both balls present, the movement along the axis (0
   * is x, anything else y) times the direction exceeds the threshold.
   */
  function DetectImpact(original: BallDetection, current: BallDetection, threshold: int, axis: int, direction: int): (moved: bool)
    ensures moved ==> original.radius >= 0 && current.radius >= 0
    ensures moved && threshold >= 0 ==>
      direction != 0 && (if axis == 0 then current.x != original.x else current.y != original.y)
  {
    if original.radius < 0 || current.radius < 0 then false
    else
      var movement := if axis == 0 then (current.x - original.x) * direction else (current.y - original.y) * direction;
      movement > threshold
  }

  /**
   * With direction +1 an impact is a move of more than the threshold toward
   * larger coordinates, with -1 toward smaller ones; a ball that did not
   * move is never an impact for a non-negative threshold.
   */
  lemma ImpactDirection(o: BallDetection, c: BallDetection, threshold: int, axis: int)
    requires o.radius >= 0 && c.radius >= 0
    ensures var delta := if axis == 0 then c.x - o.x else c.y - o.y;
      (DetectImpact(o, c, threshold, axis, 1) <==> delta > threshold)
      && (DetectImpact(o, c, threshold, axis, -1) <==> -delta > threshold)
      && (threshold >= 0 && delta == 0 ==> !DetectImpact(o, c, threshold, axis, 1) && !DetectImpact(o, c, threshold, axis, -1))
  {
  }

  /** The frame buffer after a frame: appended, the oldest dropped beyond 40. */
  function Buffered(buffer: seq<nat>, frame: nat): (r: seq<nat>)
    ensures |buffer| <= BUFFER_SIZE ==> |r| <= BUFFER_SIZE
    ensures r != [] && r[|r| - 1] == frame
    ensures |r| == (if |buffer| + 1 > BUFFER_SIZE then |buffer| else |buffer| + 1)
    ensures r == (buffer + [frame])[|buffer| + 1 - |r|..]
  {
    var pushed := buffer + [frame];
    if |pushed| > BUFFER_SIZE then pushed[1..] else pushed
  }

  /** What a frame of the capture loop announces. */
  datatype Outcome =
    | NoShot
    | ShotCaptured(shotNumber: int, replay: seq<nat>)
    | PracticeSwing
    | CameraImpact

  /** The capture loop's tracking state and the radar flags it shares. */
  datatype Session = Session(
    ballLocked: bool, originalBall: BallDetection,
    kld2Triggered: bool, kld2ImpactDetected: bool, waitingForImpact: bool,
    frameBuffer: seq<nat>, shotNumber: int)

  datatype Settings = Settings(useKld2Trigger: bool, impactThreshold: int, impactAxis: int, impactDirection: int)

  /** The loop's settings when none are stored: 10 px along y, positive direction. */
  const DEFAULT_SETTINGS := Settings(true, 10, 1, 1)

  /** The locking rule: an unlocked loop locks on the first ball with a positive radius. */
  function Lock(s: Session, ball: BallDetection): (l: Session)
    ensures l.ballLocked == (s.ballLocked || ball.radius > 0)
    ensures l.originalBall == (if !s.ballLocked && ball.radius > 0 then ball else s.originalBall)
    ensures l.(ballLocked := s.ballLocked, originalBall := s.originalBall) == s
  {
    if !s.ballLocked && ball.radius > 0 then s.(originalBall := ball, ballLocked := true) else s
  }

  /** The locked ball is in view: the frame's ball is the same ball. */
  predicate Watching(l: Session, ball: BallDetection) {
    l.ballLocked && IsSameBall(l.originalBall, ball)
  }

  /** The locked ball moved past the threshold in the frame. */
  predicate Moved(l: Session, cfg: Settings, ball: BallDetection) {
    DetectImpact(l.originalBall, ball, cfg.impactThreshold, cfg.impactAxis, cfg.impactDirection)
  }

  /** The state after a frame is buffered and a first ball is locked. */
  function Received(s: Session, frame: nat, ball: BallDetection): Session {
    Lock(s, ball).(frameBuffer := Buffered(s.frameBuffer, frame))
  }

  /** What the loop decides once the frame is buffered and the lock taken. */
  function Decide(l: Session, cfg: Settings, ball: BallDetection): (Session, Outcome) {
    if Watching(l, ball) then
      var moved := Moved(l, cfg, ball);
      if cfg.useKld2Trigger then
        if l.kld2ImpactDetected then
          if moved then
            (Session(false, NO_BALL, false, false, false, [], l.shotNumber + 1), ShotCaptured(l.shotNumber, l.frameBuffer))
          else
            (l.(kld2Triggered := false, kld2ImpactDetected := false, waitingForImpact := false), PracticeSwing)
        else (l, NoShot)
      else if moved then (l, CameraImpact)
      else (l, NoShot)
    else (l, NoShot)
  }

  /** One frame of the capture loop after it was read. */
  function FrameStep(s: Session, cfg: Settings, frame: nat, ball: BallDetection): (Session, Outcome) {
    Decide(Received(s, frame, ball), cfg, ball)
  }

  /**
   * What a frame decides: a shot is captured exactly when the radar flagged
   * an impact and the locked ball, still the same ball, moved; then the loop
   * unlocks, clears the flags and the buffer and counts the shot. The same
   * ball not moving is a practice swing, which clears the flags and keeps
   * the lock. Without the radar a move is only reported. Nothing else
   * changes the flags.
   */
  lemma FrameOutcomes(s: Session, cfg: Settings, frame: nat, ball: BallDetection)
    ensures var out := FrameStep(s, cfg, frame, ball);
      var l := Lock(s, ball);
      var checked := Watching(l, ball);
      var moved := Moved(l, cfg, ball);
      (out.1.ShotCaptured? <==> checked && cfg.useKld2Trigger && s.kld2ImpactDetected && moved)
      && (out.1 == PracticeSwing <==> checked && cfg.useKld2Trigger && s.kld2ImpactDetected && !moved)
      && (out.1 == CameraImpact <==> checked && !cfg.useKld2Trigger && moved)
      && (out.1.ShotCaptured? ==>
            out.1 == ShotCaptured(s.shotNumber, Buffered(s.frameBuffer, frame))
            && out.0 == Session(false, NO_BALL, false, false, false, [], s.shotNumber + 1))
      && (out.1 == PracticeSwing ==>
            out.0 == l.(kld2Triggered := false, kld2ImpactDetected := false, waitingForImpact := false,
                         frameBuffer := Buffered(s.frameBuffer, frame)))
      && (!out.1.ShotCaptured? && out.1 != PracticeSwing ==> out.0 == l.(frameBuffer := Buffered(s.frameBuffer, frame)))
  {
  }

  /**
   * A confirmed shot needs a ball that moved past the threshold and yet
   * stayed within 50 px of where it was locked: with the default settings
   * it moved 11 to 49 px down the frame.
   */
  lemma ShotNeedsSmallMove(s: Session, frame: nat, ball: BallDetection)
    requires s.ballLocked && FrameStep(s, DEFAULT_SETTINGS, frame, ball).1.ShotCaptured?
    ensures 10 < ball.y - s.originalBall.y < SAME_BALL_PX
  {
    FrameOutcomes(s, DEFAULT_SETTINGS, frame, ball);
    assert Lock(s, ball) == s;
    assert IsSameBall(s.originalBall, ball) && DetectImpact(s.originalBall, ball, 10, 1, 1);
    var o := s.originalBall;
    SquareSumBound(o.x - ball.x, o.y - ball.y, SAME_BALL_PX);
  }

  /** A coordinate difference is below c in size when the squared distance is below c * c. */
  lemma SquareSumBound(dx: int, dy: int, c: int)
    requires c >= 0 && dx * dx + dy * dy < c * c
    ensures -c < dy < c
  {
    assert dx * dx >= 0;
    if dy >= c {
      MulMonotone(c, dy);
    } else if dy <= -c {
      MulMonotone(c, -dy);
    }
  }

  /** The capture loop over a run of frames, with what each announced. */
  function RunFrames(s: Session, cfg: Settings, frames: seq<(nat, BallDetection)>): (Session, seq<Outcome>)
    decreases |frames|
  {
    if frames == [] then (s, [])
    else
      var before := RunFrames(s, cfg, frames[..|frames| - 1]);
      var f := frames[|frames| - 1];
      var last := FrameStep(before.0, cfg, f.0, f.1);
      (last.0, before.1 + [last.1])
  }

  function Shots(outcomes: seq<Outcome>): nat {
    if outcomes == [] then 0
    else Shots(outcomes[..|outcomes| - 1]) + (if outcomes[|outcomes| - 1].ShotCaptured? then 1 else 0)
  }

  lemma {:induction false} ShotsAppend(a: seq<Outcome>, b: seq<Outcome>)
    ensures Shots(a + b) == Shots(a) + Shots(b)
    decreases |b|
  {
    if b == [] {
      assert a + b == a;
    } else {
      ShotsAppend(a, b[..|b| - 1]);
      assert (a + b)[..|a + b| - 1] == a + b[..|b| - 1];
    }
  }

  /**
   * Over any run the buffer stays within 40 frames, the shot number grows by
   * the number of captured shots, and without the radar no shot is ever
   * captured.
   */
  lemma {:induction false} RunAccounting(s: Session, cfg: Settings, frames: seq<(nat, BallDetection)>)
    requires |s.frameBuffer| <= BUFFER_SIZE
    ensures var out := RunFrames(s, cfg, frames);
      |out.0.frameBuffer| <= BUFFER_SIZE && out.0.shotNumber == s.shotNumber + Shots(out.1)
      && (!cfg.useKld2Trigger ==> Shots(out.1) == 0)
    decreases |frames|
  {
    if frames != [] {
      var before := RunFrames(s, cfg, frames[..|frames| - 1]);
      var f := frames[|frames| - 1];
      var last := FrameStep(before.0, cfg, f.0, f.1);
      RunAccounting(s, cfg, frames[..|frames| - 1]);
      FrameOutcomes(before.0, cfg, f.0, f.1);
      ShotsAppend(before.1, [last.1]);
      assert [last.1][..0] == [];
    }
  }

  /** createReplayVideo's frame rate: the slowed rate truncated, at least 1; no video without frames. */
  function ReplayFps(frameCount: nat, fps: int, speedMultiplier: real): (slowFps: Option<int>)
    ensures slowFps.None? <==> frameCount == 0
    ensures slowFps.Some? ==> slowFps.value >= 1
    ensures slowFps.Some? && fps as real * speedMultiplier >= 1.0 ==>
      slowFps.value as real <= fps as real * speedMultiplier < slowFps.value as real + 1.0
  {
    if frameCount == 0 then None
    else
      var slow := Trunc(fps as real * speedMultiplier);
      Some(if slow < 1 then 1 else slow)
  }

  class CaptureLoop {
    var settings: Settings
    var isRunning: bool
    var ballLocked: bool
    var originalBall: BallDetection
    var kld2Triggered: bool
    var kld2ImpactDetected: bool
    var waitingForImpact: bool
    var frameBuffer: seq<nat>
    var shotNumber: int

    function State(): Session
      reads this
    {
      Session(ballLocked, originalBall, kld2Triggered, kld2ImpactDetected, waitingForImpact, frameBuffer, shotNumber)
    }

    /** The impact settings come from the settings store; the radar trigger always starts on. */
    constructor (s: Settings)
      ensures settings == s.(useKld2Trigger := true) && !isRunning
      ensures State() == Session(false, NO_BALL, false, false, false, [], 1)
    {
      settings := s.(useKld2Trigger := true);
      isRunning := false;
      ballLocked, originalBall := false, NO_BALL;
      kld2Triggered, kld2ImpactDetected, waitingForImpact := false, false, false;
      frameBuffer, shotNumber := [], 1;
    }

    /** onKLD2ClubDetected: the radar saw the club coming. */
    method OnKld2ClubDetected()
      modifies this
      ensures State() == old(State()).(kld2Triggered := true, waitingForImpact := true)
      ensures settings == old(settings) && isRunning == old(isRunning)
    {
      kld2Triggered := true;
      waitingForImpact := true;
    }

    /** onKLD2Impact: the radar saw the impact. */
    method OnKld2Impact()
      modifies this
      ensures State() == old(State()).(kld2ImpactDetected := true)
      ensures settings == old(settings) && isRunning == old(isRunning)
    {
      kld2ImpactDetected := true;
    }

    /**
     * startCapture: refused while running; otherwise the radar flags are
     * cleared, the radar mode is dropped when the radar does not start, and
     * the loop begins unlocked at shot 1.
     */
    method StartCapture(radarStarted: bool) returns (started: bool)
      modifies this
      ensures started <==> !old(isRunning)
      ensures !started ==> State() == old(State()) && settings == old(settings)
      ensures started ==> isRunning
      ensures started ==> settings == old(settings).(useKld2Trigger := old(settings).useKld2Trigger && radarStarted)
      ensures started ==> State() == Session(false, NO_BALL, false, false, false, old(frameBuffer), 1)
    {
      if isRunning {
        return false;
      }
      kld2Triggered, kld2ImpactDetected, waitingForImpact := false, false, false;
      if settings.useKld2Trigger && !radarStarted {
        settings := settings.(useKld2Trigger := false);
      }
      isRunning := true;
      ballLocked, originalBall, shotNumber := false, NO_BALL, 1;
      return true;
    }

    /** The body of the capture loop for one frame and the ball found in it. */
    method ProcessFrame(frame: nat, currentBall: BallDetection) returns (outcome: Outcome)
      modifies this
      ensures (State(), outcome) == FrameStep(old(State()), settings, frame, currentBall)
      ensures settings == old(settings) && isRunning == old(isRunning)
    {
      Receive(frame, currentBall);
      outcome := DecideFrame(currentBall);
    }

    /** Buffers the frame (dropping the oldest past 40) and locks the first ball seen. */
    method Receive(frame: nat, currentBall: BallDetection)
      modifies this
      ensures State() == Received(old(State()), frame, currentBall)
      ensures settings == old(settings) && isRunning == old(isRunning)
    {
      ghost var s0 := State();
      frameBuffer := frameBuffer + [frame];
      if |frameBuffer| > BUFFER_SIZE {
        frameBuffer := frameBuffer[1..];
      }
      assert frameBuffer == Buffered(s0.frameBuffer, frame);
      if !ballLocked && currentBall.radius > 0 {
        originalBall := currentBall;
        ballLocked := true;
      }
      assert State() == Lock(s0, currentBall).(frameBuffer := frameBuffer);
    }

    /** The impact checks of one frame. */
    method DecideFrame(currentBall: BallDetection) returns (outcome: Outcome)
      modifies this
      ensures (State(), outcome) == Decide(old(State()), settings, currentBall)
      ensures settings == old(settings) && isRunning == old(isRunning)
    {
      var same := Watching(State(), currentBall);
      var moved := Moved(State(), settings, currentBall);
      outcome := NoShot;
      if same && settings.useKld2Trigger && kld2ImpactDetected {
        if moved {
          outcome := ShotCaptured(shotNumber, frameBuffer);
          shotNumber := shotNumber + 1;
          ballLocked := false;
          originalBall := NO_BALL;
          frameBuffer := [];
        } else {
          outcome := PracticeSwing;
        }
        kld2Triggered, kld2ImpactDetected, waitingForImpact := false, false, false;
      } else if same && !settings.useKld2Trigger && moved {
        outcome := CameraImpact;
      }
    }
  }
}
