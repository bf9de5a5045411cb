/**
 * The Qt K-LD2 manager: it buffers serial text, hands every complete,
 * trimmed line that is not a command echo ('$') or acknowledgement ('@')
 * to the report parser, and runs the club-swing machine on each report:
 * a swing starts when the approaching speed reaches the trigger speed
 * (truncated to an integer), its peak is tracked while it stays there,
 * and the first reading below ends the swing with an impact signal.
 *
 * Emitted Qt signals are the `Event`s a method returns, in order; the
 * serial port is reduced to whether it is open.
 */
module Kld2Manager {
  import opened Wrappers
  import opened Numbers
  import opened Text
  import opened RadarLines

  datatype Event =
    | ClubSpeedUpdated(mph: real)
    | BallSpeedUpdated(mph: real)
    | ClubApproaching(mph: real)
    | DetectionTriggered
    | ImpactDetected

  /** The report fields: at least four ';' parts, each of the first four a 32-bit integer for `toInt`. */
  function ParseFields(line: string): (r: Option<Reading>)
    ensures var parts := Split(line, ';');
      r.Some? <==> |parts| >= 4 && QtToInt(parts[0]).Some? && QtToInt(parts[1]).Some?
                   && QtToInt(parts[2]).Some? && QtToInt(parts[3]).Some?
  {
    var parts := Split(line, ';');
    if |parts| < 4 then None
    else
      var a, b, c, d := QtToInt(parts[0]), QtToInt(parts[1]), QtToInt(parts[2]), QtToInt(parts[3]);
      if a.None? || b.None? || c.None? || d.None? then None
      else Some(Reading(a.value, b.value, c.value, d.value))
  }

  predicate Int32Reading(r: Reading) {
    INT32_MIN <= r.approaching <= INT32_MAX && INT32_MIN <= r.receding <= INT32_MAX
    && INT32_MIN <= r.approachingMag <= INT32_MAX && INT32_MIN <= r.recedingMag <= INT32_MAX
  }

  /** A report as the sensor formats it parses back to its four values. */
  lemma ParseFormatted(r: Reading)
    requires Int32Reading(r)
    ensures ParseFields(FormatReading(r)) == Some(r)
  {
    FormatSplit(r);
    DecimalRoundTrip(r.approaching);
    DecimalRoundTrip(r.receding);
    DecimalRoundTrip(r.approachingMag);
    DecimalRoundTrip(r.recedingMag);
  }

  /** Empty lines, command echoes and acknowledgements are never parsed. */
  predicate Ignored(line: string) {
    line == [] || line[0] == '$' || line[0] == '@'
  }

  datatype Swing = Swing(inSwing: bool, maxClubSpeed: real)

  /** Outside a swing the peak is zero; inside one it is at least the threshold. */
  predicate SwingOk(s: Swing, threshold: int) {
    if s.inSwing then s.maxClubSpeed >= threshold as real else s.maxClubSpeed == 0.0
  }

  function SpeedEvents(r: Reading): seq<Event> {
    (if r.approaching > 0 then [ClubSpeedUpdated(r.approaching as real)] else [])
    + (if r.receding > 0 then [BallSpeedUpdated(r.receding as real)] else [])
  }

  /**
   * processSpeed on the swing state. A swing starts (with the reading as
   * its peak, and ClubApproaching emitted) exactly when none is running and
   * the speed reaches the threshold; an impact is signalled exactly when a
   * running swing sees a speed below it, and that ends the swing.
   */
  function SpeedStep(s: Swing, threshold: int, r: Reading): (out: (Swing, seq<Event>))
    ensures SwingOk(s, threshold) ==> SwingOk(out.0, threshold)
    ensures ClubApproaching(r.approaching as real) in out.1 <==> !s.inSwing && r.approaching >= threshold
    ensures DetectionTriggered in out.1 <==> !s.inSwing && r.approaching >= threshold
    ensures (ImpactDetected in out.1) <==> s.inSwing && r.approaching < threshold
    ensures out.0.inSwing <==> r.approaching >= threshold
    ensures out.0.inSwing ==>
      out.0.maxClubSpeed == if s.inSwing then MaxR(s.maxClubSpeed, r.approaching as real) else r.approaching as real
    ensures !out.0.inSwing ==> out.0.maxClubSpeed == if s.inSwing then 0.0 else s.maxClubSpeed
  {
    var ev := SpeedEvents(r);
    if r.approaching >= threshold then
      if !s.inSwing then (Swing(true, r.approaching as real), ev + [ClubApproaching(r.approaching as real), DetectionTriggered])
      else (Swing(true, if r.approaching as real > s.maxClubSpeed then r.approaching as real else s.maxClubSpeed), ev)
    else if s.inSwing then (Swing(false, 0.0), ev + [ImpactDetected])
    else (s, ev)
  }

  /** A run of reports through the swing machine, in order. */
  function SpeedRun(s: Swing, threshold: int, rs: seq<Reading>): (Swing, seq<Event>)
    decreases |rs|
  {
    if rs == [] then (s, [])
    else
      var before := SpeedRun(s, threshold, rs[..|rs| - 1]);
      var last := SpeedStep(before.0, threshold, rs[|rs| - 1]);
      (last.0, before.1 + last.1)
  }

  /**
   * From no swing, after any run of reports, a swing is running exactly
   * when the last report reached the trigger speed; its peak is then the
   * highest approaching speed since the swing started, and zero otherwise.
   */
  lemma {:induction false} PeakIsSwingMax(threshold: int, rs: seq<Reading>)
    ensures var out := SpeedRun(Swing(false, 0.0), threshold, rs).0;
      PeakTracks(ClubSpeeds(rs), threshold as real, out.inSwing, out.maxClubSpeed)
    decreases |rs|
  {
    if rs != [] {
      var init, r := rs[..|rs| - 1], rs[|rs| - 1];
      PeakIsSwingMax(threshold, init);
      var s := SpeedRun(Swing(false, 0.0), threshold, init).0;
      var out := SpeedStep(s, threshold, r).0;
      assert SpeedRun(Swing(false, 0.0), threshold, rs).0 == out;
      assert ClubSpeeds(rs) == ClubSpeeds(init) + [r.approaching as real] by {
        assert init + [r] == rs;
        ClubSpeedsSnoc(init, r);
      }
      PeakTracksStep(ClubSpeeds(init), threshold as real, s.inSwing, s.maxClubSpeed, r.approaching as real,
                     out.inSwing, out.maxClubSpeed);
    }
  }

  /** One received line: trimmed, filtered, parsed, and run through the swing machine. */
  function LineStep(s: Swing, threshold: int, raw: string): (out: (Swing, seq<Event>))
    ensures var line := Strip(raw, QtSpaces);
      Ignored(line) || ParseFields(line).None? ==> out == (s, [])
    ensures SwingOk(s, threshold) ==> SwingOk(out.0, threshold)
  {
    var line := Strip(raw, QtSpaces);
    if Ignored(line) then (s, [])
    else
      match ParseFields(line)
      case None => (s, [])
      case Some(r) => SpeedStep(s, threshold, r)
  }

  /** A run of lines, in order; the events of each line follow those of the previous ones. */
  function RunLines(s: Swing, threshold: int, lines: seq<string>): (Swing, seq<Event>)
    decreases |lines|
  {
    if lines == [] then (s, [])
    else
      var before := RunLines(s, threshold, lines[..|lines| - 1]);
      var last := LineStep(before.0, threshold, lines[|lines| - 1]);
      (last.0, before.1 + last.1)
  }

  /** Extending a run by one line. */
  lemma RunLinesSnoc(s: Swing, threshold: int, lines: seq<string>, line: string,
                     mid: Swing, events: seq<Event>, after: Swing, lineEvents: seq<Event>)
    requires (mid, events) == RunLines(s, threshold, lines)
    requires (after, lineEvents) == LineStep(mid, threshold, line)
    ensures (after, events + lineEvents) == RunLines(s, threshold, lines + [line])
  {
    assert (lines + [line])[..|lines|] == lines;
  }

  function Approaches(ev: seq<Event>): nat {
    if ev == [] then 0 else Approaches(ev[..|ev| - 1]) + (if ev[|ev| - 1].ClubApproaching? then 1 else 0)
  }

  function Impacts(ev: seq<Event>): nat {
    if ev == [] then 0 else Impacts(ev[..|ev| - 1]) + (if ev[|ev| - 1] == ImpactDetected then 1 else 0)
  }

  lemma {:induction false} CountsAppend(a: seq<Event>, b: seq<Event>)
    ensures Approaches(a + b) == Approaches(a) + Approaches(b)
    ensures Impacts(a + b) == Impacts(a) + Impacts(b)
    decreases |b|
  {
    if b == [] {
      assert a + b == a;
    } else {
      assert (a + b)[..|a + b| - 1] == a + b[..|b| - 1];
      CountsAppend(a, b[..|b| - 1]);
    }
  }

  lemma SpeedEventCounts(r: Reading)
    ensures Approaches(SpeedEvents(r)) == 0 && Impacts(SpeedEvents(r)) == 0
  {
    var a: seq<Event> := if r.approaching > 0 then [ClubSpeedUpdated(r.approaching as real)] else [];
    var b: seq<Event> := if r.receding > 0 then [BallSpeedUpdated(r.receding as real)] else [];
    CountsAppend(a, b);
  }

  function InSwing(s: Swing): nat {
    if s.inSwing then 1 else 0
  }

  /** One report keeps starts and impacts balanced against whether a swing is running. */
  lemma SpeedBalance(s: Swing, threshold: int, r: Reading)
    ensures var out := SpeedStep(s, threshold, r);
      Approaches(out.1) + InSwing(s) == Impacts(out.1) + InSwing(out.0)
  {
    var ev := SpeedEvents(r);
    SpeedEventCounts(r);
    if r.approaching >= threshold && !s.inSwing {
      CountsAppend(ev, [ClubApproaching(r.approaching as real), DetectionTriggered]);
      assert [ClubApproaching(r.approaching as real), DetectionTriggered][..1] == [ClubApproaching(r.approaching as real)];
    } else if r.approaching < threshold && s.inSwing {
      CountsAppend(ev, [ImpactDetected]);
    }
  }

  lemma LineBalance(s: Swing, threshold: int, raw: string)
    ensures var out := LineStep(s, threshold, raw);
      Approaches(out.1) + InSwing(s) == Impacts(out.1) + InSwing(out.0)
  {
    var line := Strip(raw, QtSpaces);
    var fields := ParseFields(line);
    if !Ignored(line) && fields.Some? {
      SpeedBalance(s, threshold, fields.value);
    }
  }

  /**
   * Over any run of lines, every impact closes a swing that a
   * ClubApproaching opened: starts equal impacts, plus one if a swing is
   * still running at the end, minus one if one was running at the start.
   */
  lemma {:induction false} SwingBalance(s: Swing, threshold: int, lines: seq<string>)
    ensures var out := RunLines(s, threshold, lines);
      Approaches(out.1) + InSwing(s) == Impacts(out.1) + InSwing(out.0)
    decreases |lines|
  {
    if lines != [] {
      var before := RunLines(s, threshold, lines[..|lines| - 1]);
      var last := LineStep(before.0, threshold, lines[|lines| - 1]);
      SwingBalance(s, threshold, lines[..|lines| - 1]);
      LineBalance(before.0, threshold, lines[|lines| - 1]);
      CountsAppend(before.1, last.1);
    }
  }

  /** The swing invariant holds after any run of lines with a fixed threshold. */
  lemma {:induction false} SwingOkPreserved(s: Swing, threshold: int, lines: seq<string>)
    requires SwingOk(s, threshold)
    ensures SwingOk(RunLines(s, threshold, lines).0, threshold)
    decreases |lines|
  {
    if lines != [] {
      SwingOkPreserved(s, threshold, lines[..|lines| - 1]);
    }
  }

  class KLD2Manager {
    var isRunning: bool
    /** Whether a serial port object exists (it is opened by start and closed by stop). */
    var portOpen: bool
    var minTriggerSpeed: real
    var debugMode: bool
    var inSwing: bool
    var maxClubSpeed: real
    var buffer: string

    function SwingState(): Swing
      reads this
    {
      Swing(inSwing, maxClubSpeed)
    }

    /** The integer speed a swing must reach. */
    function Threshold(): int
      reads this
    {
      Trunc(minTriggerSpeed)
    }

    constructor ()
      ensures !isRunning && !portOpen && minTriggerSpeed == 40.0 && !debugMode
      ensures !inSwing && maxClubSpeed == 0.0 && buffer == []
    {
      isRunning, portOpen := false, false;
      minTriggerSpeed, debugMode := 40.0, false;
      inSwing, maxClubSpeed := false, 0.0;
      buffer := [];
    }

    /** The change signal fires only for a different value. */
    method SetMinTriggerSpeed(speed: real) returns (changed: bool)
      modifies this`minTriggerSpeed
      ensures minTriggerSpeed == speed && changed == (old(minTriggerSpeed) != speed)
    {
      changed := minTriggerSpeed != speed;
      if changed {
        minTriggerSpeed := speed;
      }
    }

    method SetDebugMode(enabled: bool) returns (changed: bool)
      modifies this`debugMode
      ensures debugMode == enabled && changed == (old(debugMode) != enabled)
    {
      changed := debugMode != enabled;
      if changed {
        debugMode := enabled;
      }
    }

    /** start: a running manager reports success unchanged; otherwise it runs iff some port opened. */
    method Start(anyPortOpened: bool) returns (ok: bool)
      modifies this`isRunning, this`portOpen
      ensures old(isRunning) ==> ok && isRunning == old(isRunning) && portOpen == old(portOpen)
      ensures !old(isRunning) ==> ok == anyPortOpened && isRunning == anyPortOpened && portOpen == anyPortOpened
    {
      if isRunning {
        return true;
      }
      portOpen := anyPortOpened;
      isRunning := anyPortOpened;
      ok := anyPortOpened;
    }

    /** stop: closes the port and clears the swing state; a stopped manager is left alone. */
    method Stop()
      modifies this`isRunning, this`portOpen, this`inSwing, this`maxClubSpeed
      ensures !old(isRunning) ==> isRunning == old(isRunning) && portOpen == old(portOpen)
                                   && SwingState() == old(SwingState())
      ensures old(isRunning) ==> !isRunning && !portOpen && SwingState() == Swing(false, 0.0)
    {
      if !isRunning {
        return;
      }
      isRunning := false;
      portOpen := false;
      inSwing := false;
      maxClubSpeed := 0.0;
    }

    method ProcessSpeed(r: Reading) returns (events: seq<Event>)
      modifies this`inSwing, this`maxClubSpeed
      ensures (SwingState(), events) == SpeedStep(old(SwingState()), Threshold(), r)
    {
      events := SpeedEvents(r);
      if r.approaching >= Trunc(minTriggerSpeed) {
        if !inSwing {
          inSwing := true;
          maxClubSpeed := r.approaching as real;
          events := events + [ClubApproaching(r.approaching as real), DetectionTriggered];
        } else if r.approaching as real > maxClubSpeed {
          maxClubSpeed := r.approaching as real;
        }
      } else if inSwing {
        events := events + [ImpactDetected];
        inSwing := false;
        maxClubSpeed := 0.0;
      }
    }

    /** parseResponse: a malformed line changes nothing. */
    method ParseResponse(line: string) returns (events: seq<Event>)
      modifies this`inSwing, this`maxClubSpeed
      ensures ParseFields(line).None? ==> events == [] && SwingState() == old(SwingState())
      ensures ParseFields(line).Some? ==>
        (SwingState(), events) == SpeedStep(old(SwingState()), Threshold(), ParseFields(line).value)
    {
      var fields := ParseFields(line);
      if fields.None? {
        return [];
      }
      events := ProcessSpeed(fields.value);
    }

    /** One complete line taken from the buffer: trimmed, filtered, then parsed. */
    method HandleLine(raw: string) returns (events: seq<Event>)
      modifies this`inSwing, this`maxClubSpeed
      ensures (SwingState(), events) == LineStep(old(SwingState()), Threshold(), raw)
    {
      var line := Strip(raw, QtSpaces);
      if Ignored(line) {
        return [];
      }
      events := ParseResponse(line);
    }

    /**
     * handleSerialData: the received text joins the buffer, every complete
     * line is consumed in order, and the text after the last '\n' stays
     * buffered. Without a port nothing happens.
     */
    method HandleSerialData(data: string) returns (events: seq<Event>)
      modifies this`buffer, this`inSwing, this`maxClubSpeed
      ensures !portOpen ==> events == [] && buffer == old(buffer) && SwingState() == old(SwingState())
      ensures portOpen ==>
        buffer == Remainder(old(buffer) + data)
        && (SwingState(), events) == RunLines(old(SwingState()), Threshold(), Lines(old(buffer) + data))
    {
      if portOpen {
        events := Receive(data);
      } else {
        events := [];
      }
    }

    /** With the port open: the received text joins the buffer and the complete lines are consumed. */
    method Receive(data: string) returns (events: seq<Event>)
      modifies this`buffer, this`inSwing, this`maxClubSpeed
      ensures buffer == Remainder(old(buffer) + data)
      ensures (SwingState(), events) == RunLines(old(SwingState()), Threshold(), Lines(old(buffer) + data))
    {
      buffer := buffer + data;
      events := ConsumeLines();
    }

    /** Takes the first complete line off the buffer. */
    method NextLine() returns (line: string)
      requires '\n' in buffer
      modifies this`buffer
      ensures Lines(old(buffer)) == [line] + Lines(buffer) && Remainder(old(buffer)) == Remainder(buffer)
      ensures |buffer| < |old(buffer)|
    {
      var k := IndexOf(buffer, '\n');
      line := buffer[..k];
      TakeLine(buffer);
      buffer := buffer[k + 1..];
    }

    /** The line loop of handleSerialData: every complete line leaves the buffer and is handled in order. */
    method ConsumeLines() returns (events: seq<Event>)
      modifies this`buffer, this`inSwing, this`maxClubSpeed
      ensures buffer == Remainder(old(buffer))
      ensures (SwingState(), events) == RunLines(old(SwingState()), Threshold(), Lines(old(buffer)))
    {
      ghost var total := buffer;
      ghost var start := SwingState();
      ghost var consumed: seq<string> := [];
      events := [];
      while '\n' in buffer
        invariant Lines(total) == consumed + Lines(buffer) && Remainder(total) == Remainder(buffer)
        invariant (SwingState(), events) == RunLines(start, Threshold(), consumed)
        decreases |buffer|
      {
        var line := NextLine();
        assert Lines(total) == (consumed + [line]) + Lines(buffer);
        ghost var mid := SwingState();
        var lineEvents := HandleLine(line);
        RunLinesSnoc(start, Threshold(), consumed, line, mid, events, SwingState(), lineEvents);
        events := events + lineEvents;
        consumed := consumed + [line];
      }
      NoLines(buffer);
      assert consumed + [] == consumed;
    }
  }
}
