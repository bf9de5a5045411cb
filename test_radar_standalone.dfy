/**
 * The Python radar tester: the same two triggers as the console tester,
 * over readings parsed with Python's `int`. Every processed reading is
 * kept; the event text a reading produces is an `Event`. Timestamps and
 * the serial port are not modelled.
 */
module TestRadarStandalone {
  import opened Wrappers
  import opened Text
  import opened RadarLines
  import TestRadar

  const DEFAULT_CLUB_TRIGGER: real := 50.0
  const DEFAULT_BALL_TRIGGER: real := 12.0

  /** _parse_response: the first four ';' fields through `int`; a ValueError gives no reading. */
  function ParseResponse(line: string): (r: Option<Reading>)
    ensures var parts := Split(line, ';');
      r.Some? <==> |parts| >= 4 && PyInt(parts[0]).Some? && PyInt(parts[1]).Some?
                   && PyInt(parts[2]).Some? && PyInt(parts[3]).Some?
  {
    var parts := Split(line, ';');
    if |parts| < 4 then None
    else
      var a, b, c, d := PyInt(parts[0]), PyInt(parts[1]), PyInt(parts[2]), PyInt(parts[3]);
      if a.None? || b.None? || c.None? || d.None? then None
      else Some(Reading(a.value, b.value, c.value, d.value))
  }

  /** A report as the sensor formats it parses back to its four values, whatever their size. */
  lemma ParseFormatted(r: Reading)
    ensures ParseResponse(FormatReading(r)) == Some(r)
  {
    FormatSplit(r);
    ParseShown(FormatReading(r), r);
  }

  /** A line that splits into a reading's four values in decimal, and a tail, parses to that reading. */
  lemma ParseShown(line: string, r: Reading)
    requires Split(line, ';')
          == [ShowInt(r.approaching), ShowInt(r.receding), ShowInt(r.approachingMag), ShowInt(r.recedingMag), ""]
    ensures ParseResponse(line) == Some(r)
  {
    DecimalRoundTrip(r.approaching);
    DecimalRoundTrip(r.receding);
    DecimalRoundTrip(r.approachingMag);
    DecimalRoundTrip(r.recedingMag);
  }

  predicate Skipped(part: string) {
    part == [] || part[0] == '$' || part[0] == '@'
  }

  /** The first of the (stripped) lines of a read that is neither empty, an echo nor an acknowledgement. */
  function FirstReport(lines: seq<string>): (r: Option<string>)
    ensures r.Some? ==> !Skipped(r.value) && r.value in lines
    ensures r.None? <==> forall i :: 0 <= i < |lines| ==> Skipped(lines[i])
  {
    if lines == [] then None
    else if !Skipped(lines[0]) then Some(lines[0])
    else
      assert forall i :: 1 <= i < |lines| ==> lines[i] == lines[1..][i - 1];
      FirstReport(lines[1..])
  }

  /** The parts of a read, each stripped. */
  function StrippedLines(data: string): seq<string> {
    var parts := Split(Strip(data, PySpaces), '\n');
    seq(|parts|, i requires 0 <= i < |parts| => Strip(parts[i], PySpaces))
  }

  /** read_once after the port read: only the first report line of the data is parsed. */
  method ReadOnce(data: string) returns (r: Option<Reading>)
    ensures r == (match FirstReport(StrippedLines(data))
                  case None => None
                  case Some(line) => ParseResponse(line))
  {
    var parts := Split(Strip(data, PySpaces), '\n');
    ghost var lines := StrippedLines(data);
    var i := 0;
    while i < |parts|
      invariant 0 <= i <= |parts| == |lines|
      invariant FirstReport(lines[i..]) == FirstReport(lines)
    {
      var part := Strip(parts[i], PySpaces);
      assert part == lines[i];
      if !Skipped(part) {
        return ParseResponse(part);
      }
      assert lines[i..][1..] == lines[i + 1..];
      i := i + 1;
    }
    return None;
  }

  /** The text process_reading returns. */
  datatype Event =
    | BallImpact(ballMph: int)
    | ReadyForNextShot
    | SwingStart(clubMph: int)
    | ClubImpact(peakMph: real, clubMph: int)

  predicate IsImpact(e: Option<Event>) {
    e.Some? && (e.value.BallImpact? || e.value.ClubImpact?)
  }

  datatype Tester = Tester(
    inSwing: bool, maxClubSpeed: real, ballDetected: bool,
    impactsDetected: int, maxClubSeen: real, maxBallSeen: real)

  datatype Triggers = Triggers(mode: string, minClubTrigger: real, minBallTrigger: real)

  /** process_reading on everything but the list of readings. */
  function Step(t: Tester, cfg: Triggers, r: Reading): (out: (Tester, Option<Event>))
    ensures out.0.maxClubSeen >= t.maxClubSeen && out.0.maxClubSeen >= r.approaching as real
    ensures out.0.maxClubSeen == t.maxClubSeen || out.0.maxClubSeen == r.approaching as real
    ensures out.0.maxBallSeen >= t.maxBallSeen && out.0.maxBallSeen >= r.receding as real
    ensures out.0.maxBallSeen == t.maxBallSeen || out.0.maxBallSeen == r.receding as real
    ensures out.0.impactsDetected == t.impactsDetected + (if IsImpact(out.1) then 1 else 0)
    ensures cfg.mode == "ball" ==>
      (out.1 == Some(BallImpact(r.receding)) <==> !t.ballDetected && r.receding as real >= cfg.minBallTrigger)
      && (out.1 == Some(ReadyForNextShot) <==> t.ballDetected && r.receding as real < cfg.minBallTrigger)
      && out.0.ballDetected == (r.receding as real >= cfg.minBallTrigger)
    ensures cfg.mode == "club" ==>
      (out.1 == Some(SwingStart(r.approaching)) <==> !t.inSwing && r.approaching as real >= cfg.minClubTrigger)
      && (out.1 == Some(ClubImpact(t.maxClubSpeed, r.approaching)) <==> t.inSwing && r.approaching as real < cfg.minClubTrigger)
      && out.0.inSwing == (r.approaching as real >= cfg.minClubTrigger)
      && (out.0.inSwing ==>
            out.0.maxClubSpeed >= r.approaching as real && (t.inSwing ==> out.0.maxClubSpeed >= t.maxClubSpeed)
            && (out.0.maxClubSpeed == r.approaching as real || (t.inSwing && out.0.maxClubSpeed == t.maxClubSpeed)))
      && (!out.0.inSwing ==> out.0.maxClubSpeed == (if t.inSwing then 0.0 else t.maxClubSpeed))
    ensures cfg.mode != "ball" && cfg.mode != "club" ==> out.1.None? && out.0.impactsDetected == t.impactsDetected
  {
    var seen := t.(maxClubSeen := if r.approaching as real > t.maxClubSeen then r.approaching as real else t.maxClubSeen,
                   maxBallSeen := if r.receding as real > t.maxBallSeen then r.receding as real else t.maxBallSeen);
    if cfg.mode == "ball" then
      if r.receding as real >= cfg.minBallTrigger then
        if !seen.ballDetected then (seen.(ballDetected := true, impactsDetected := seen.impactsDetected + 1), Some(BallImpact(r.receding)))
        else (seen, None)
      else if seen.ballDetected then (seen.(ballDetected := false), Some(ReadyForNextShot))
      else (seen, None)
    else if cfg.mode == "club" then
      if r.approaching as real >= cfg.minClubTrigger then
        if !seen.inSwing then (seen.(inSwing := true, maxClubSpeed := r.approaching as real), Some(SwingStart(r.approaching)))
        else (seen.(maxClubSpeed := if r.approaching as real > seen.maxClubSpeed then r.approaching as real else seen.maxClubSpeed), None)
      else if seen.inSwing then
        (seen.(impactsDetected := seen.impactsDetected + 1, inSwing := false, maxClubSpeed := 0.0),
         Some(ClubImpact(seen.maxClubSpeed, r.approaching)))
      else (seen, None)
    else (seen, None)
  }

  /** A run of readings through process_reading, in order: the final tester and the events. */
  function StepRun(t: Tester, cfg: Triggers, rs: seq<Reading>): (Tester, seq<Option<Event>>)
    decreases |rs|
  {
    if rs == [] then (t, [])
    else
      var before := StepRun(t, cfg, rs[..|rs| - 1]);
      var last := Step(before.0, cfg, rs[|rs| - 1]);
      (last.0, before.1 + [last.1])
  }

  /** The receding (ball) speeds of a run of readings, in order. */
  function BallSpeeds(rs: seq<Reading>): (xs: seq<real>)
    ensures |xs| == |rs| && forall i :: 0 <= i < |rs| ==> xs[i] == rs[i].receding as real
  {
    seq(|rs|, i requires 0 <= i < |rs| => rs[i].receding as real)
  }

  /**
   * In any mode, after a non-empty run the session maxima are the higher of
   * their starting values and the highest speed read, as the statistics
   * print them.
   */
  lemma {:induction false} SeenIsRunMax(t: Tester, cfg: Triggers, rs: seq<Reading>)
    requires rs != []
    ensures var out := StepRun(t, cfg, rs).0;
      var club, ball := MaxOf(ClubSpeeds(rs)), MaxOf(BallSpeeds(rs));
      out.maxClubSeen == (if club > t.maxClubSeen then club else t.maxClubSeen)
      && out.maxBallSeen == (if ball > t.maxBallSeen then ball else t.maxBallSeen)
    decreases |rs|
  {
    var init, r := rs[..|rs| - 1], rs[|rs| - 1];
    SpeedsOfLast(rs);
    var before := StepRun(t, cfg, init).0;
    assert StepRun(t, cfg, rs).0 == Step(before, cfg, r).0;
    if init == [] {
      assert ClubSpeeds(rs) == [r.approaching as real] && BallSpeeds(rs) == [r.receding as real];
    } else {
      SeenIsRunMax(t, cfg, init);
      SeenStep(t, cfg, before, ClubSpeeds(init), BallSpeeds(init), r);
    }
  }

  /** The speeds of a run are those of all but its last reading, then the last reading's. */
  lemma SpeedsOfLast(rs: seq<Reading>)
    requires rs != []
    ensures var init, r := rs[..|rs| - 1], rs[|rs| - 1];
      ClubSpeeds(rs) == ClubSpeeds(init) + [r.approaching as real]
      && BallSpeeds(rs) == BallSpeeds(init) + [r.receding as real]
  {
    var init, r := rs[..|rs| - 1], rs[|rs| - 1];
    assert init + [r] == rs;
    ClubSpeedsSnoc(init, r);
    assert BallSpeeds(rs) == BallSpeeds(init) + [r.receding as real];
  }

  /** One more reading keeps the session maxima at the higher of their starting values and the speeds read. */
  lemma SeenStep(t: Tester, cfg: Triggers, before: Tester, club: seq<real>, ball: seq<real>, r: Reading)
    requires club != [] && ball != []
    requires before.maxClubSeen == (if MaxOf(club) > t.maxClubSeen then MaxOf(club) else t.maxClubSeen)
    requires before.maxBallSeen == (if MaxOf(ball) > t.maxBallSeen then MaxOf(ball) else t.maxBallSeen)
    ensures var out := Step(before, cfg, r).0;
      var club', ball' := MaxOf(club + [r.approaching as real]), MaxOf(ball + [r.receding as real]);
      out.maxClubSeen == (if club' > t.maxClubSeen then club' else t.maxClubSeen)
      && out.maxBallSeen == (if ball' > t.maxBallSeen then ball' else t.maxBallSeen)
  {
    MaxOfSnoc(club, r.approaching as real);
    MaxOfSnoc(ball, r.receding as real);
  }

  /**
   * In club mode, from no swing with a zero peak, after any run a swing is
   * running exactly when the last reading reached the club trigger; its
   * peak is then the highest approaching speed since the swing started, and
   * zero otherwise.
   */
  lemma {:induction false} PeakIsSwingMax(t: Tester, cfg: Triggers, rs: seq<Reading>)
    requires cfg.mode == "club" && !t.inSwing && t.maxClubSpeed == 0.0
    ensures var out := StepRun(t, cfg, rs).0;
      PeakTracks(ClubSpeeds(rs), cfg.minClubTrigger, out.inSwing, out.maxClubSpeed)
    decreases |rs|
  {
    if rs != [] {
      var init, r := rs[..|rs| - 1], rs[|rs| - 1];
      PeakIsSwingMax(t, cfg, init);
      var s := StepRun(t, cfg, init).0;
      var out := Step(s, cfg, r).0;
      assert StepRun(t, cfg, rs).0 == out;
      assert ClubSpeeds(rs) == ClubSpeeds(init) + [r.approaching as real] by {
        assert init + [r] == rs;
        ClubSpeedsSnoc(init, r);
      }
      PeakTracksStep(ClubSpeeds(init), cfg.minClubTrigger, s.inSwing, s.maxClubSpeed, r.approaching as real,
                     out.inSwing, out.maxClubSpeed);
    }
  }

  /**
   * The "Peak club" process_reading returns: after a run that leaves a
   * swing running, a reading below the club trigger returns ClubImpact with
   * the highest approaching speed since the swing started.
   */
  lemma ImpactReportsSwingPeak(t: Tester, cfg: Triggers, rs: seq<Reading>, r: Reading)
    requires cfg.mode == "club" && !t.inSwing && t.maxClubSpeed == 0.0
    requires StepRun(t, cfg, rs).0.inSwing && r.approaching as real < cfg.minClubTrigger
    ensures var xs := ClubSpeeds(rs);
      Step(StepRun(t, cfg, rs).0, cfg, r).1 == Some(ClubImpact(MaxOf(xs[SwingOnset(xs, cfg.minClubTrigger)..]), r.approaching))
  {
    PeakIsSwingMax(t, cfg, rs);
  }

  /** The console tester's state for the same trigger state and statistics. */
  function AsConsole(t: Tester, totalReadings: int): TestRadar.Monitor {
    TestRadar.Monitor(t.inSwing, t.maxClubSpeed, t.ballDetected, totalReadings, t.impactsDetected, t.maxClubSeen, t.maxBallSeen)
  }

  /**
   * The Python tester and the console tester agree: with the same mode and
   * thresholds, a reading moves both to the same trigger state and
   * statistics, and one announces an impact exactly when the other does.
   */
  lemma AgreesWithConsole(t: Tester, total: int, cfg: Triggers, r: Reading)
    ensures var py := Step(t, cfg, r);
      var values := [r.approaching, r.receding, r.approachingMag, r.recedingMag];
      var console := TestRadar.ValuesStep(AsConsole(t, total), TestRadar.Config(cfg.mode, cfg.minBallTrigger, cfg.minClubTrigger), values);
      console.0 == AsConsole(py.0, total + 1)
      && (IsImpact(py.1) <==> TestRadar.Impacts(console.1) == 1)
  {
  }

  class KLD2RadarTester {
    const triggers: Triggers
    var inSwing: bool
    var maxClubSpeed: real
    var ballDetected: bool
    var readings: seq<Reading>
    var impactsDetected: int
    var maxClubSeen: real
    var maxBallSeen: real

    function State(): Tester
      reads this
    {
      Tester(inSwing, maxClubSpeed, ballDetected, impactsDetected, maxClubSeen, maxBallSeen)
    }

    constructor (mode: string, minClubTrigger: real, minBallTrigger: real)
      ensures triggers == Triggers(mode, minClubTrigger, minBallTrigger)
      ensures State() == Tester(false, 0.0, false, 0, 0.0, 0.0) && readings == []
    {
      triggers := Triggers(mode, minClubTrigger, minBallTrigger);
      inSwing, maxClubSpeed, ballDetected := false, 0.0, false;
      readings, impactsDetected := [], 0;
      maxClubSeen, maxBallSeen := 0.0, 0.0;
    }

    /** process_reading: the reading is kept, and the state and event are those of `Step`. */
    method ProcessReading(r: Reading) returns (event: Option<Event>)
      modifies this
      ensures readings == old(readings) + [r]
      ensures (State(), event) == Step(old(State()), triggers, r)
    {
      readings := readings + [r];
      if r.approaching as real > maxClubSeen {
        maxClubSeen := r.approaching as real;
      }
      if r.receding as real > maxBallSeen {
        maxBallSeen := r.receding as real;
      }
      if triggers.mode == "ball" {
        if r.receding as real >= triggers.minBallTrigger {
          if !ballDetected {
            ballDetected := true;
            impactsDetected := impactsDetected + 1;
            return Some(BallImpact(r.receding));
          }
        } else if ballDetected {
          ballDetected := false;
          return Some(ReadyForNextShot);
        }
        return None;
      }
      if triggers.mode == "club" {
        if r.approaching as real >= triggers.minClubTrigger {
          if !inSwing {
            inSwing := true;
            maxClubSpeed := r.approaching as real;
            return Some(SwingStart(r.approaching));
          } else if r.approaching as real > maxClubSpeed {
            maxClubSpeed := r.approaching as real;
          }
          return None;
        } else if inSwing {
          impactsDetected := impactsDetected + 1;
          event := Some(ClubImpact(maxClubSpeed, r.approaching));
          inSwing := false;
          maxClubSpeed := 0.0;
          return event;
        }
      }
      return None;
    }
  }

  function CountImpacts(es: seq<Option<Event>>): nat {
    if es == [] then 0 else CountImpacts(es[..|es| - 1]) + (if IsImpact(es[|es| - 1]) then 1 else 0)
  }

  function CountStarts(es: seq<Option<Event>>): nat {
    if es == [] then 0 else CountStarts(es[..|es| - 1]) + (if es[|es| - 1].Some? && es[|es| - 1].value.SwingStart? then 1 else 0)
  }

  /**
   * Over any run the impact counter grows by the number of impact events,
   * and in club mode every impact closes a swing a SWING START opened.
   */
  lemma {:induction false} RunAccounting(t: Tester, cfg: Triggers, rs: seq<Reading>)
    ensures var out := StepRun(t, cfg, rs);
      out.0.impactsDetected == t.impactsDetected + CountImpacts(out.1)
      && (cfg.mode == "club" ==>
            CountStarts(out.1) + (if t.inSwing then 1 else 0) == CountImpacts(out.1) + (if out.0.inSwing then 1 else 0))
    decreases |rs|
  {
    if rs != [] {
      var before := StepRun(t, cfg, rs[..|rs| - 1]);
      var last := Step(before.0, cfg, rs[|rs| - 1]);
      RunAccounting(t, cfg, rs[..|rs| - 1]);
      var es := before.1 + [last.1];
      assert es[..|es| - 1] == before.1;
    }
  }
}
