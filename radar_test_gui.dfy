/**
 * The radar test window's detection logic: the polling connection that
 * turns received text into readings, and the shot / practice-swing state
 * machine. Qt timers become explicit effects and event methods: the arm
 * timeout is a running flag whose expiry calls `OnTimeout`, and a
 * scheduled return to idle is an effect after which the environment calls
 * `ResetToIdle`. The clock is the `now` parameter.
 */
module RadarTestGui {
  import opened Wrappers
  import opened Text
  import opened RadarLines
  import TestRadarStandalone

  // ---------------------------------------------------------------- connection

  predicate Skipped(line: string) {
    |line| == 0 || line[0] == '$' || line[0] == '@'
  }

  /** What a stripped line contributes: its reading, when it is not skipped and parses. */
  function LineReport(line: string): seq<Reading> {
    if Skipped(line) then []
    else match TestRadarStandalone.ParseResponse(line)
      case Some(r) => [r]
      case None => []
  }

  /** What one received line contributes, once stripped. */
  function Reported(raw: string): seq<Reading> {
    LineReport(Strip(raw, PySpaces))
  }

  /** The readings `reading_received` carries for a run of received lines, in order. */
  function Emitted(lines: seq<string>): seq<Reading>
    decreases |lines|
  {
    if lines == [] then [] else Emitted(lines[..|lines| - 1]) + Reported(lines[|lines| - 1])
  }

  lemma EmittedSnoc(lines: seq<string>, line: string)
    ensures Emitted(lines + [line]) == Emitted(lines) + Reported(line)
  {
    assert (lines + [line])[..|lines|] == lines;
  }

  /** A formatted report arriving as a complete line is emitted as exactly that reading. */
  lemma FormattedReportEmitted(r: Reading)
    ensures Emitted([FormatReading(r)]) == [r]
  {
    FormatShape(r);
    TestRadarStandalone.ParseFormatted(r);
    ReportLineEmitted(FormatReading(r), r);
  }

  /** A line that starts with a sign or a digit, ends with ';' and parses is emitted as its reading. */
  lemma ReportLineEmitted(line: string, r: Reading)
    requires |line| >= 2 && line[|line| - 1] == ';' && (line[0] == '-' || IsDigit(line[0]))
    requires TestRadarStandalone.ParseResponse(line) == Some(r)
    ensures Emitted([line]) == [r]
  {
    ReportLineReported(line, r);
    EmittedSingle(line);
  }

  lemma ReportLineReported(line: string, r: Reading)
    requires |line| >= 2 && line[|line| - 1] == ';' && (line[0] == '-' || IsDigit(line[0]))
    requires TestRadarStandalone.ParseResponse(line) == Some(r)
    ensures Reported(line) == [r]
  {
    ReportLineKept(line);
    ReportedLine(line, r);
  }

  lemma ReportedLine(line: string, r: Reading)
    requires Strip(line, PySpaces) == line && !Skipped(line)
    requires TestRadarStandalone.ParseResponse(line) == Some(r)
    ensures Reported(line) == [r]
  {
    StrippedReport(line);
    ParsedReport(line, r);
  }

  lemma StrippedReport(line: string)
    requires Strip(line, PySpaces) == line
    ensures Reported(line) == LineReport(line)
  {
  }

  lemma ParsedReport(line: string, r: Reading)
    requires !Skipped(line) && TestRadarStandalone.ParseResponse(line) == Some(r)
    ensures LineReport(line) == [r]
  {
  }

  lemma EmittedSingle(line: string)
    ensures Emitted([line]) == Reported(line)
  {
    EmittedSnoc([], line);
    assert [] + [line] == [line];
  }

  /** Such a line has nothing to strip and is not one of the skipped status lines. */
  lemma ReportLineKept(line: string)
    requires |line| >= 2 && line[|line| - 1] == ';' && (line[0] == '-' || IsDigit(line[0]))
    ensures Strip(line, PySpaces) == line && !Skipped(line)
  {
    NotSkipped(line);
    StripUntouched(line, PySpaces);
  }

  lemma NotSkipped(line: string)
    requires |line| >= 2 && (line[0] == '-' || IsDigit(line[0]))
    ensures !Skipped(line)
  {
  }

  /** Handling the first line of the buffer extends what was consumed and emitted by that line. */
  lemma ConsumedLine(total: string, consumed: seq<string>, before: string, raw: string, after: string,
                     readings: seq<Reading>, got: seq<Reading>)
    requires Lines(total) == consumed + Lines(before) && Lines(before) == [raw] + Lines(after)
    requires readings == Emitted(consumed) && got == Reported(raw)
    ensures Lines(total) == (consumed + [raw]) + Lines(after)
    ensures readings + got == Emitted(consumed + [raw])
  {
    Regroup(consumed, [raw], Lines(after));
    EmittedSnoc(consumed, raw);
  }

  lemma Regroup(a: seq<string>, b: seq<string>, c: seq<string>)
    ensures a + (b + c) == (a + b) + c
  {
  }

  class RadarConnection {
    /** Text received and not yet ended by '\n'. */
    var buffer: string

    constructor ()
      ensures buffer == []
    {
      buffer := [];
    }

    /** _parse_and_emit: a reading is emitted only when the first four fields are integers. */
    static method ParseAndEmit(line: string) returns (emitted: Option<Reading>)
      ensures emitted == TestRadarStandalone.ParseResponse(line)
      ensures emitted.Some? ==> |Split(line, ';')| >= 4
    {
      emitted := TestRadarStandalone.ParseResponse(line);
    }

    /** One complete line of the poll loop: stripped, skipped when empty or a status line, else parsed. */
    static method HandleLine(raw: string) returns (got: seq<Reading>)
      ensures got == Reported(raw)
    {
      var line := Strip(raw, PySpaces);
      got := [];
      if !Skipped(line) {
        var emitted := ParseAndEmit(line);
        if emitted.Some? {
          got := [emitted.value];
        }
      }
    }

    method NextLine() returns (line: string)
      requires '\n' in buffer
      modifies this
      ensures Lines(old(buffer)) == [line] + Lines(buffer) && Remainder(old(buffer)) == Remainder(buffer)
      ensures |buffer| < |old(buffer)|
    {
      var k := IndexOf(buffer, '\n');
      line := buffer[..k];
      TakeLine(buffer);
      buffer := buffer[k + 1..];
    }

    /** One read of the poll loop: complete lines are stripped, filtered and parsed; the rest stays buffered. */
    method Receive(data: string) returns (readings: seq<Reading>)
      modifies this
      ensures buffer == Remainder(old(buffer) + data)
      ensures readings == Emitted(Lines(old(buffer) + data))
    {
      buffer := buffer + data;
      ghost var total := buffer;
      ghost var consumed: seq<string> := [];
      readings := [];
      while '\n' in buffer
        invariant Lines(total) == consumed + Lines(buffer) && Remainder(total) == Remainder(buffer)
        invariant readings == Emitted(consumed)
        decreases |buffer|
      {
        ghost var before := buffer;
        var raw := NextLine();
        var got := HandleLine(raw);
        ConsumedLine(total, consumed, before, raw, buffer, readings, got);
        readings := readings + got;
        consumed := consumed + [raw];
      }
      NoLines(buffer);
      assert consumed + [] == consumed;
    }
  }

  // ---------------------------------------------------------------- detection

  datatype DetectionState = Idle | Armed | Triggered | PracticeSwing

  /** What a transition asks of the window and of Qt. */
  datatype Effect =
    | StateChanged(name: string)
    | ShotDetected(clubMph: real, ballMph: real)
    | PracticeSwingDetected(clubMph: real)
    | StartTimeout(ms: int)
    | StopTimeout
    | ScheduleReset(ms: int)

  const SHOT_RESET_MS: int := 1500
  const PRACTICE_RESET_MS: int := 500

  datatype Machine = Machine(
    state: DetectionState, armedTime: Option<real>, maxClubSpeed: real, maxBallSpeed: real,
    timeoutRunning: bool)

  const IDLE_MACHINE: Machine := Machine(Idle, None, 0.0, 0.0, false)

  /** Idle has no swing data; an armed machine has its arm time and a running timeout. */
  predicate Consistent(m: Machine) {
    (m.state == Idle ==> m.armedTime.None? && m.maxClubSpeed == 0.0 && m.maxBallSpeed == 0.0)
    && (m.state != Idle ==> m.armedTime.Some?)
    && (m.state == Armed ==> m.timeoutRunning)
  }

  /** process_reading. */
  function Process(m: Machine, clubThreshold: real, ballThreshold: real, timeoutMs: int,
                   approaching: int, receding: int, now: real): (out: (Machine, seq<Effect>))
    ensures Consistent(m) ==> Consistent(out.0)
    ensures m.state == Idle ==>
      (out.0.state == Armed <==> approaching as real >= clubThreshold)
      && (out.0.state == Armed ==> out.0.maxClubSpeed == approaching as real && out.0.maxBallSpeed == 0.0
                                   && out.0.armedTime == Some(now))
      && (out.0.state != Armed ==> out == (m, []))
    ensures m.state == Armed ==>
      out.0.maxClubSpeed >= m.maxClubSpeed && out.0.maxClubSpeed >= approaching as real
      && (out.0.maxClubSpeed == m.maxClubSpeed || out.0.maxClubSpeed == approaching as real)
      && (out.0.state == Triggered <==> receding as real >= ballThreshold)
      && (out.0.state == Triggered ==>
            out.0.maxBallSpeed == receding as real && ShotDetected(out.0.maxClubSpeed, receding as real) in out.1)
      && (out.0.state != Triggered ==> out.0.state == Armed && out.0.maxBallSpeed == m.maxBallSpeed && out.1 == [])
    ensures m.state == Triggered ==>
      out.0.state == Triggered && out.0.maxClubSpeed == m.maxClubSpeed && out.1 == []
      && out.0.maxBallSpeed >= m.maxBallSpeed && out.0.maxBallSpeed >= receding as real
      && (out.0.maxBallSpeed == m.maxBallSpeed || out.0.maxBallSpeed == receding as real)
    ensures m.state == PracticeSwing ==> out == (m, [])
  {
    match m.state
    case Idle =>
      if approaching as real >= clubThreshold then
        (m.(state := Armed, armedTime := Some(now), maxClubSpeed := approaching as real, maxBallSpeed := 0.0,
            timeoutRunning := true),
         [StartTimeout(timeoutMs), StateChanged("ARMED")])
      else (m, [])
    case Armed =>
      var club := if approaching as real > m.maxClubSpeed then approaching as real else m.maxClubSpeed;
      if receding as real >= ballThreshold then
        (m.(maxClubSpeed := club, timeoutRunning := false, maxBallSpeed := receding as real, state := Triggered),
         [StopTimeout, StateChanged("TRIGGERED"), ShotDetected(club, receding as real), ScheduleReset(SHOT_RESET_MS)])
      else (m.(maxClubSpeed := club), [])
    case Triggered =>
      (m.(maxBallSpeed := if receding as real > m.maxBallSpeed then receding as real else m.maxBallSpeed), [])
    case PracticeSwing => (m, [])
  }

  /** _on_timeout: only an armed machine becomes a practice swing. */
  function Timeout(m: Machine): (out: (Machine, seq<Effect>))
    ensures Consistent(m) ==> Consistent(out.0)
    ensures !out.0.timeoutRunning
    ensures m.state == Armed ==> out.0.state == PracticeSwing && out.0.maxClubSpeed == m.maxClubSpeed
                                 && PracticeSwingDetected(m.maxClubSpeed) in out.1
    ensures m.state != Armed ==> out == (m.(timeoutRunning := false), [])
  {
    var fired := m.(timeoutRunning := false);
    if m.state == Armed then
      (fired.(state := PracticeSwing),
       [StateChanged("PRACTICE"), PracticeSwingDetected(m.maxClubSpeed), ScheduleReset(PRACTICE_RESET_MS)])
    else (fired, [])
  }

  /** The readings of a run, with no timeout or reset in between. */
  function RunReadings(m: Machine, clubThreshold: real, ballThreshold: real, timeoutMs: int,
                       readings: seq<(int, int, real)>): (Machine, seq<Effect>)
    decreases |readings|
  {
    if readings == [] then (m, [])
    else
      var before := RunReadings(m, clubThreshold, ballThreshold, timeoutMs, readings[..|readings| - 1]);
      var r := readings[|readings| - 1];
      var last := Process(before.0, clubThreshold, ballThreshold, timeoutMs, r.0, r.1, r.2);
      (last.0, before.1 + last.1)
  }

  /** The approaching (club) speeds of a run of readings, in order. */
  function ApproachSpeeds(readings: seq<(int, int, real)>): (xs: seq<real>)
    ensures |xs| == |readings| && forall i :: 0 <= i < |readings| ==> xs[i] == readings[i].0 as real
  {
    seq(|readings|, i requires 0 <= i < |readings| => readings[i].0 as real)
  }

  /**
   * What the detection state says about the approaching speeds so far: the
   * machine is idle exactly when none reached the club threshold, it never
   * reaches PRACTICE, and while armed its club peak is the highest speed
   * since the first one that reached the threshold.
   */
  predicate ArmedTracks(xs: seq<real>, clubThreshold: real, m: Machine) {
    var a := FirstAtLeast(xs, clubThreshold);
    (m.state == Idle <==> a == |xs|)
    && m.state != PracticeSwing
    && (m.state == Armed ==> m.maxClubSpeed == MaxOf(xs[a..]))
  }

  /** One more reading through process_reading keeps ArmedTracks. */
  lemma ArmedTracksStep(xs: seq<real>, clubThreshold: real, ballThreshold: real, timeoutMs: int,
                        m: Machine, r: (int, int, real))
    requires ArmedTracks(xs, clubThreshold, m)
    ensures ArmedTracks(xs + [r.0 as real], clubThreshold,
                        Process(m, clubThreshold, ballThreshold, timeoutMs, r.0, r.1, r.2).0)
  {
    var ys := xs + [r.0 as real];
    assert ys[..|xs|] == xs;
    var a := FirstAtLeast(xs, clubThreshold);
    if a < |xs| {
      assert ys[a..] == xs[a..] + [r.0 as real];
      MaxOfSnoc(xs[a..], r.0 as real);
    } else {
      assert ys[a..] == [r.0 as real];
    }
  }

  /**
   * From IDLE, a run of readings arms the machine at the first reading
   * whose approaching speed reaches the club threshold, and never reaches
   * PRACTICE; while it stays armed its club peak is the highest approaching
   * speed since it armed.
   */
  lemma {:induction false} ArmedPeak(m: Machine, clubThreshold: real, ballThreshold: real, timeoutMs: int,
                                     readings: seq<(int, int, real)>)
    requires m.state == Idle
    ensures ArmedTracks(ApproachSpeeds(readings), clubThreshold,
                        RunReadings(m, clubThreshold, ballThreshold, timeoutMs, readings).0)
    decreases |readings|
  {
    if readings == [] {
      assert ApproachSpeeds(readings) == [];
    } else {
      var init, r := readings[..|readings| - 1], readings[|readings| - 1];
      ArmedPeak(m, clubThreshold, ballThreshold, timeoutMs, init);
      var before := RunReadings(m, clubThreshold, ballThreshold, timeoutMs, init).0;
      assert RunReadings(m, clubThreshold, ballThreshold, timeoutMs, readings).0
          == Process(before, clubThreshold, ballThreshold, timeoutMs, r.0, r.1, r.2).0;
      assert ApproachSpeeds(readings) == ApproachSpeeds(init) + [r.0 as real];
      ArmedTracksStep(ApproachSpeeds(init), clubThreshold, ballThreshold, timeoutMs, before, r);
    }
  }

  /**
   * The club speed shot_detected carries: once a run has left the machine
   * armed, a reading whose receding speed reaches the ball threshold emits
   * ShotDetected with the highest approaching speed since arming, this
   * reading included, and its own receding speed.
   */
  lemma ShotReportsSwingPeak(m: Machine, clubThreshold: real, ballThreshold: real, timeoutMs: int,
                             readings: seq<(int, int, real)>, r: (int, int, real))
    requires m.state == Idle
    requires RunReadings(m, clubThreshold, ballThreshold, timeoutMs, readings).0.state == Armed
    requires r.1 as real >= ballThreshold
    ensures var ys := ApproachSpeeds(readings + [r]);
      var out := Process(RunReadings(m, clubThreshold, ballThreshold, timeoutMs, readings).0,
                         clubThreshold, ballThreshold, timeoutMs, r.0, r.1, r.2);
      out.0.state == Triggered && FirstAtLeast(ys, clubThreshold) < |ys|
      && ShotDetected(MaxOf(ys[FirstAtLeast(ys, clubThreshold)..]), r.1 as real) in out.1
  {
    var before := RunReadings(m, clubThreshold, ballThreshold, timeoutMs, readings).0;
    ArmedPeak(m, clubThreshold, ballThreshold, timeoutMs, readings);
    var xs := ApproachSpeeds(readings);
    assert ApproachSpeeds(readings + [r]) == xs + [r.0 as real];
    ArmedPeakStep(xs, clubThreshold, before, r.0 as real);
  }

  /** One more speed while armed: the arming position stays and the peak takes the higher of the two. */
  lemma ArmedPeakStep(xs: seq<real>, clubThreshold: real, m: Machine, x: real)
    requires ArmedTracks(xs, clubThreshold, m) && m.state == Armed
    ensures var ys := xs + [x];
      var a := FirstAtLeast(ys, clubThreshold);
      a < |ys| && MaxOf(ys[a..]) == (if x > m.maxClubSpeed then x else m.maxClubSpeed)
  {
    var ys := xs + [x];
    var a := FirstAtLeast(xs, clubThreshold);
    assert ys[..|xs|] == xs;
    assert FirstAtLeast(ys, clubThreshold) == a;
    assert ys[a..] == xs[a..] + [x];
    MaxOfSnoc(xs[a..], x);
  }

  function Shots(effects: seq<Effect>): nat {
    if effects == [] then 0
    else Shots(effects[..|effects| - 1]) + (if effects[|effects| - 1].ShotDetected? then 1 else 0)
  }

  lemma {:induction false} ShotsAppend(a: seq<Effect>, b: seq<Effect>)
    ensures Shots(a + b) == Shots(a) + Shots(b)
    decreases |b|
  {
    if b == [] {
      assert a + b == a;
    } else {
      assert (a + b)[..|a + b| - 1] == a + b[..|b| - 1];
      ShotsAppend(a, b[..|b| - 1]);
    }
  }

  lemma {:induction false} NoShots(effects: seq<Effect>)
    requires forall i :: 0 <= i < |effects| ==> !effects[i].ShotDetected?
    ensures Shots(effects) == 0
    decreases |effects|
  {
    if effects != [] {
      NoShots(effects[..|effects| - 1]);
    }
  }

  lemma ProcessShots(m: Machine, clubThreshold: real, ballThreshold: real, timeoutMs: int,
                     approaching: int, receding: int, now: real)
    ensures var out := Process(m, clubThreshold, ballThreshold, timeoutMs, approaching, receding, now);
      Shots(out.1) == (if m.state == Armed && out.0.state == Triggered then 1 else 0)
  {
    var out := Process(m, clubThreshold, ballThreshold, timeoutMs, approaching, receding, now);
    var e := out.1;
    if m.state == Armed && out.0.state == Triggered {
      var shot := e[2];
      assert e == e[..2] + [shot] + e[3..];
      ShotsAppend(e[..2] + [shot], e[3..]);
      ShotsAppend(e[..2], [shot]);
      NoShots(e[..2]);
      NoShots(e[3..]);
      assert [shot][..0] == [];
    } else {
      NoShots(e);
    }
  }

  /**
   * Between resets a shot is reported at most once: a run of readings
   * reports one exactly when it takes the machine from idle or armed to
   * triggered, and none otherwise.
   */
  lemma {:induction false} ShotAtMostOnce(m: Machine, clubThreshold: real, ballThreshold: real, timeoutMs: int,
                                          readings: seq<(int, int, real)>)
    ensures var out := RunReadings(m, clubThreshold, ballThreshold, timeoutMs, readings);
      Shots(out.1) == (if m.state != Triggered && out.0.state == Triggered then 1 else 0)
      && (m.state == Triggered ==> out.0.state == Triggered)
    decreases |readings|
  {
    if readings != [] {
      var before := RunReadings(m, clubThreshold, ballThreshold, timeoutMs, readings[..|readings| - 1]);
      var r := readings[|readings| - 1];
      var last := Process(before.0, clubThreshold, ballThreshold, timeoutMs, r.0, r.1, r.2);
      ShotAtMostOnce(m, clubThreshold, ballThreshold, timeoutMs, readings[..|readings| - 1]);
      ProcessShots(before.0, clubThreshold, ballThreshold, timeoutMs, r.0, r.1, r.2);
      ShotsAppend(before.1, last.1);
    }
  }

  class DetectionStateMachine {
    var clubThreshold: real
    var ballThreshold: real
    var armTimeoutMs: int
    var state: DetectionState
    var armedTime: Option<real>
    var maxClubSpeed: real
    var maxBallSpeed: real
    /** Whether the single-shot arm timeout is counting down. */
    var timeoutRunning: bool

    function Current(): Machine
      reads this
    {
      Machine(state, armedTime, maxClubSpeed, maxBallSpeed, timeoutRunning)
    }

    constructor ()
      ensures clubThreshold == 40.0 && ballThreshold == 60.0 && armTimeoutMs == 200
      ensures Current() == IDLE_MACHINE && Consistent(Current())
    {
      clubThreshold, ballThreshold, armTimeoutMs := 40.0, 60.0, 200;
      state, armedTime, maxClubSpeed, maxBallSpeed := Idle, None, 0.0, 0.0;
      timeoutRunning := false;
    }

    method SetClubThreshold(value: real)
      modifies this`clubThreshold
      ensures clubThreshold == value
    {
      clubThreshold := value;
    }

    method SetBallThreshold(value: real)
      modifies this`ballThreshold
      ensures ballThreshold == value
    {
      ballThreshold := value;
    }

    method SetTimeout(valueMs: int)
      modifies this`armTimeoutMs
      ensures armTimeoutMs == valueMs
    {
      armTimeoutMs := valueMs;
    }

    /** process_reading: the new machine and effects are those of `Process`. */
    method ProcessReading(approaching: int, receding: int, now: real) returns (effects: seq<Effect>)
      modifies this`state, this`armedTime, this`maxClubSpeed, this`maxBallSpeed, this`timeoutRunning
      ensures (Current(), effects) == Process(old(Current()), clubThreshold, ballThreshold, armTimeoutMs, approaching, receding, now)
    {
      effects := [];
      if state == Idle {
        if approaching as real >= clubThreshold {
          state := Armed;
          armedTime := Some(now);
          maxClubSpeed := approaching as real;
          maxBallSpeed := 0.0;
          timeoutRunning := true;
          effects := [StartTimeout(armTimeoutMs), StateChanged("ARMED")];
        }
      } else if state == Armed {
        if approaching as real > maxClubSpeed {
          maxClubSpeed := approaching as real;
        }
        if receding as real >= ballThreshold {
          timeoutRunning := false;
          maxBallSpeed := receding as real;
          state := Triggered;
          effects := [StopTimeout, StateChanged("TRIGGERED"), ShotDetected(maxClubSpeed, receding as real),
                      ScheduleReset(SHOT_RESET_MS)];
        }
      } else if state == Triggered {
        if receding as real > maxBallSpeed {
          maxBallSpeed := receding as real;
        }
      }
    }

    /** _on_timeout, called when the single-shot timeout fires. */
    method OnTimeout() returns (effects: seq<Effect>)
      modifies this`state, this`timeoutRunning
      ensures (Current(), effects) == Timeout(old(Current()))
    {
      timeoutRunning := false;
      effects := [];
      if state == Armed {
        state := PracticeSwing;
        effects := [StateChanged("PRACTICE"), PracticeSwingDetected(maxClubSpeed), ScheduleReset(PRACTICE_RESET_MS)];
      }
    }

    /** _reset_to_idle: idle with no arm time and both maxima cleared; the timeout is left as it is. */
    method ResetToIdle() returns (effects: seq<Effect>)
      modifies this`state, this`armedTime, this`maxClubSpeed, this`maxBallSpeed
      ensures Current() == IDLE_MACHINE.(timeoutRunning := old(timeoutRunning))
      ensures effects == [StateChanged("IDLE")]
      ensures old(state) != Armed ==> Consistent(Current())
    {
      state, armedTime, maxClubSpeed, maxBallSpeed := Idle, None, 0.0, 0.0;
      effects := [StateChanged("IDLE")];
    }

    /** reset: stops the timeout, then returns to idle. */
    method Reset() returns (effects: seq<Effect>)
      modifies this`state, this`armedTime, this`maxClubSpeed, this`maxBallSpeed, this`timeoutRunning
      ensures Current() == IDLE_MACHINE && Consistent(Current())
      ensures effects == [StopTimeout, StateChanged("IDLE")]
    {
      timeoutRunning := false;
      var idle := ResetToIdle();
      effects := [StopTimeout] + idle;
    }
  }
}
