/**
 * The console radar tester: it reads K-LD2 report lines, trims trailing
 * '\r' and ' ', skips echoes and acknowledgements, parses every non-empty
 * ';' token with `std::stoi`, and feeds readings with at least four values
 * to one of two triggers chosen on the command line: a ball trigger that
 * fires once per rising edge of the receding speed, or a club trigger that
 * fires when a swing's approaching speed drops below its threshold.
 *
 * The announcements the tester prints are the `Output`s its methods
 * return; debug printing and the serial port are not modelled.
 */
module TestRadar {
  import opened Wrappers
  import opened Text
  import opened RadarLines

  const BALL_MODE: string := "ball"
  const CLUB_MODE: string := "club"

  datatype Config = Config(mode: string, ballThreshold: real, clubThreshold: real)

  const DEFAULT_CONFIG: Config := Config(BALL_MODE, 12.0, 50.0)

  /** main's check of `--mode`: the exit code when the mode is refused. */
  function ModeExitCode(mode: string): (exitCode: Option<int>)
    ensures exitCode.None? <==> mode in {BALL_MODE, CLUB_MODE}
    ensures exitCode.Some? ==> exitCode.value == 1
  {
    if mode != BALL_MODE && mode != CLUB_MODE then Some(1) else None
  }

  // ---------------------------------------------------------------- tokens

  /** The fields `getline(ss, token, ';')` yields, with the empty ones skipped. */
  function NonEmpty(fields: seq<string>): (ts: seq<string>)
    ensures |ts| <= |fields|
  {
    if fields == [] then []
    else
      var last := fields[|fields| - 1];
      NonEmpty(fields[..|fields| - 1]) + (if last != [] then [last] else [])
  }

  /** The tokens are exactly the non-empty fields. */
  lemma {:induction false} NonEmptyExactly(fields: seq<string>, t: string)
    ensures t in NonEmpty(fields) <==> t in fields && t != []
  {
    if fields != [] {
      var last := fields[|fields| - 1];
      NonEmptyExactly(fields[..|fields| - 1], t);
      assert fields == fields[..|fields| - 1] + [last];
    }
  }

  lemma NonEmptySnoc(fields: seq<string>, f: string)
    ensures NonEmpty(fields + [f]) == NonEmpty(fields) + (if f != [] then [f] else [])
  {
    assert (fields + [f])[..|fields|] == fields;
  }

  function Tokens(line: string): seq<string> {
    NonEmpty(Split(line, ';'))
  }

  /** All conversions succeeded: their values, in order. */
  function Collect(os: seq<Option<int>>): Option<seq<int>> {
    if os == [] then Some([])
    else
      match Collect(os[..|os| - 1])
      case None => None
      case Some(vs) => if os[|os| - 1].None? then None else Some(vs + [os[|os| - 1].value])
  }

  /** Collecting succeeds exactly when every conversion did, and then keeps every value in order. */
  lemma {:induction false} CollectExactly(os: seq<Option<int>>)
    ensures Collect(os).Some? <==> forall i :: 0 <= i < |os| ==> os[i].Some?
    ensures Collect(os).Some? ==> |Collect(os).value| == |os| && forall i :: 0 <= i < |os| ==> os[i] == Some(Collect(os).value[i])
  {
    if os != [] {
      var init := os[..|os| - 1];
      CollectExactly(init);
      assert forall i :: 0 <= i < |init| ==> init[i] == os[i];
    }
  }

  /** Each token through `std::stoi`, in order. */
  function Conversions(ts: seq<string>): (os: seq<Option<int>>)
    ensures |os| == |ts| && forall i :: 0 <= i < |ts| ==> os[i] == CStoi(ts[i])
  {
    seq(|ts|, i requires 0 <= i < |ts| => CStoi(ts[i]))
  }

  /** Every token through `std::stoi`; one that throws makes the whole line fail. */
  function ParseTokens(ts: seq<string>): (r: Option<seq<int>>)
    ensures r.Some? ==> |r.value| == |ts| && forall i :: 0 <= i < |ts| ==> CStoi(ts[i]) == Some(r.value[i])
  {
    CollectExactly(Conversions(ts));
    Collect(Conversions(ts))
  }

  lemma ParseTokensSnoc(ts: seq<string>, t: string)
    ensures ParseTokens(ts + [t]) ==
      match ParseTokens(ts)
      case None => None
      case Some(vs) => if CStoi(t).None? then None else Some(vs + [CStoi(t).value])
  {
    ConversionsSnoc(ts, t);
    CollectSnoc(Conversions(ts), CStoi(t));
  }

  lemma ConversionsSnoc(ts: seq<string>, t: string)
    ensures Conversions(ts + [t]) == Conversions(ts) + [CStoi(t)]
  {
    var a, b := Conversions(ts + [t]), Conversions(ts) + [CStoi(t)];
    forall i | 0 <= i < |a| ensures a[i] == b[i] {
      assert (ts + [t])[i] == if i < |ts| then ts[i] else t;
    }
  }

  lemma CollectSnoc(os: seq<Option<int>>, o: Option<int>)
    ensures Collect(os + [o]) ==
      match Collect(os)
      case None => None
      case Some(vs) => if o.None? then None else Some(vs + [o.value])
  {
    assert (os + [o])[..|os|] == os;
  }

  /** A token `stoi` rejects anywhere in the line fails the whole line. */
  lemma ParseTokensFails(ts: seq<string>, t: string)
    requires t in ts && CStoi(t).None?
    ensures ParseTokens(ts) == None
  {
    var j :| 0 <= j < |ts| && ts[j] == t;
    assert Conversions(ts)[j].None?;
    CollectExactly(Conversions(ts));
  }

  lemma CollectFour(x: int, y: int, z: int, w: int)
    ensures Collect([Some(x), Some(y), Some(z), Some(w)]) == Some([x, y, z, w])
  {
    var os := [Some(x), Some(y), Some(z), Some(w)];
    assert os[..1][..0] == [] && [] + [x] == [x];
    assert Collect(os[..1]) == Some([x]);
    assert os[..2][..1] == os[..1] && [x] + [y] == [x, y];
    assert Collect(os[..2]) == Some([x, y]);
    assert os[..3][..2] == os[..2] && [x, y] + [z] == [x, y, z];
    assert Collect(os[..3]) == Some([x, y, z]);
    assert os[..3] == os[..|os| - 1] && [x, y, z] + [w] == [x, y, z, w];
  }

  lemma ParseFour(a: string, b: string, c: string, d: string, x: int, y: int, z: int, w: int)
    requires CStoi(a) == Some(x) && CStoi(b) == Some(y) && CStoi(c) == Some(z) && CStoi(d) == Some(w)
    ensures ParseTokens([a, b, c, d]) == Some([x, y, z, w])
  {
    var ts := [a, b, c, d];
    var os := Conversions(ts);
    assert os == [Some(x), Some(y), Some(z), Some(w)];
    CollectFour(x, y, z, w);
    assert ParseTokens(ts) == Collect(os);
  }

  /** The four decimal fields of a formatted report are its tokens: the empty field after the last ';' is skipped. */
  lemma TokensOfFormatted(r: Reading)
    ensures Tokens(FormatReading(r)) == [ShowInt(r.approaching), ShowInt(r.receding), ShowInt(r.approachingMag), ShowInt(r.recedingMag)]
  {
    FormatSplit(r);
    NonEmptyFour(ShowInt(r.approaching), ShowInt(r.receding), ShowInt(r.approachingMag), ShowInt(r.recedingMag));
  }

  lemma NonEmptyFour(a: string, b: string, c: string, d: string)
    requires a != [] && b != [] && c != [] && d != []
    ensures NonEmpty([a, b, c, d, ""]) == [a, b, c, d]
  {
    NonEmptySnoc([], a);
    NonEmptySnoc([a], b);
    NonEmptySnoc([a, b], c);
    NonEmptySnoc([a, b, c], d);
    NonEmptySnoc([a, b, c, d], "");
    assert [] + [a] == [a] && [a] + [b] == [a, b] && [a, b] + [c] == [a, b, c] && [a, b, c] + [d] == [a, b, c, d];
    assert [a, b, c, d, ""] == [a, b, c, d] + [""];
  }

  /** `std::stoi` reads back a 32-bit value written in decimal. */
  lemma StoiShown(n: int)
    requires INT32_MIN <= n <= INT32_MAX
    ensures CStoi(ShowInt(n)) == Some(n)
  {
    StoiRoundTrip(n, "");
    assert ShowInt(n) + "" == ShowInt(n);
  }

  /** A report as the sensor formats it parses back to its four values. */
  lemma ParseFormatted(r: Reading)
    requires INT32_MIN <= r.approaching <= INT32_MAX && INT32_MIN <= r.receding <= INT32_MAX
    requires INT32_MIN <= r.approachingMag <= INT32_MAX && INT32_MIN <= r.recedingMag <= INT32_MAX
    ensures ParseTokens(Tokens(FormatReading(r))) == Some([r.approaching, r.receding, r.approachingMag, r.recedingMag])
  {
    TokensOfFormatted(r);
    StoiShown(r.approaching);
    StoiShown(r.receding);
    StoiShown(r.approachingMag);
    StoiShown(r.recedingMag);
    ParseFour(ShowInt(r.approaching), ShowInt(r.receding), ShowInt(r.approachingMag), ShowInt(r.recedingMag),
              r.approaching, r.receding, r.approachingMag, r.recedingMag);
  }

  // ---------------------------------------------------------------- triggers

  /** What the tester prints when a trigger fires. */
  datatype Output =
    | BallImpact(ballMph: int)
    | SwingStart(clubMph: int)
    | ClubImpact(peakMph: real, clubMph: int)

  function Impacts(outs: seq<Output>): nat {
    if outs == [] then 0
    else Impacts(outs[..|outs| - 1]) + (if outs[|outs| - 1].SwingStart? then 0 else 1)
  }

  function Starts(outs: seq<Output>): nat {
    if outs == [] then 0
    else Starts(outs[..|outs| - 1]) + (if outs[|outs| - 1].SwingStart? then 1 else 0)
  }

  lemma {:induction false} CountsAppend(a: seq<Output>, b: seq<Output>)
    ensures Impacts(a + b) == Impacts(a) + Impacts(b) && Starts(a + b) == Starts(a) + Starts(b)
    decreases |b|
  {
    if b == [] {
      assert a + b == a;
    } else {
      assert (a + b)[..|a + b| - 1] == a + b[..|b| - 1];
      CountsAppend(a, b[..|b| - 1]);
    }
  }

  /** The tester's state machine and statistics. */
  datatype Monitor = Monitor(
    inSwing: bool, maxClubSpeed: real, ballDetected: bool,
    totalReadings: int, impactsDetected: int, maxClubSeen: real, maxBallSeen: real)

  const INITIAL: Monitor := Monitor(false, 0.0, false, 0, 0, 0.0, 0.0)

  function InSwing(m: Monitor): nat {
    if m.inSwing then 1 else 0
  }

  /** The statistics every valid reading updates, before the trigger runs. */
  function Counted(m: Monitor, approaching: int, receding: int): (c: Monitor)
    ensures c.totalReadings == m.totalReadings + 1
    ensures c.maxClubSeen >= m.maxClubSeen && c.maxClubSeen >= approaching as real
    ensures c.maxClubSeen == m.maxClubSeen || c.maxClubSeen == approaching as real
    ensures c.maxBallSeen >= m.maxBallSeen && c.maxBallSeen >= receding as real
    ensures c.maxBallSeen == m.maxBallSeen || c.maxBallSeen == receding as real
    ensures c.(totalReadings := m.totalReadings, maxClubSeen := m.maxClubSeen, maxBallSeen := m.maxBallSeen) == m
  {
    m.(totalReadings := m.totalReadings + 1,
       maxClubSeen := if approaching as real > m.maxClubSeen then approaching as real else m.maxClubSeen,
       maxBallSeen := if receding as real > m.maxBallSeen then receding as real else m.maxBallSeen)
  }

  /** processLine once the line has parsed to at least four values. */
  function ValuesStep(m: Monitor, cfg: Config, values: seq<int>): (out: (Monitor, seq<Output>))
    requires |values| >= 4
    ensures out.0.totalReadings == m.totalReadings + 1
    ensures out.0.maxClubSeen >= m.maxClubSeen && out.0.maxBallSeen >= m.maxBallSeen
    ensures out.0.impactsDetected == m.impactsDetected + Impacts(out.1)
    ensures Starts(out.1) + InSwing(m) == Impacts(out.1) - (if cfg.mode == BALL_MODE then Impacts(out.1) else 0) + InSwing(out.0)
    ensures cfg.mode == BALL_MODE ==>
      out.0.ballDetected == (values[1] as real >= cfg.ballThreshold)
      && (out.1 == [BallImpact(values[1])] <==> !m.ballDetected && values[1] as real >= cfg.ballThreshold)
      && (out.1 == [] <==> m.ballDetected || values[1] as real < cfg.ballThreshold)
      && out.0.inSwing == m.inSwing && out.0.maxClubSpeed == m.maxClubSpeed
    ensures cfg.mode == CLUB_MODE ==>
      out.0.inSwing == (values[0] as real >= cfg.clubThreshold)
      && (out.1 == [SwingStart(values[0])] <==> !m.inSwing && values[0] as real >= cfg.clubThreshold)
      && (out.1 == [ClubImpact(m.maxClubSpeed, values[0])] <==> m.inSwing && values[0] as real < cfg.clubThreshold)
      && (out.0.inSwing ==>
            out.0.maxClubSpeed >= values[0] as real && (m.inSwing ==> out.0.maxClubSpeed >= m.maxClubSpeed)
            && (out.0.maxClubSpeed == values[0] as real || (m.inSwing && out.0.maxClubSpeed == m.maxClubSpeed)))
      && (!out.0.inSwing ==> out.0.maxClubSpeed == (if m.inSwing then 0.0 else m.maxClubSpeed))
      && out.0.ballDetected == m.ballDetected
    ensures cfg.mode !in {BALL_MODE, CLUB_MODE} ==> out.1 == [] && out.0 == Counted(m, values[0], values[1])
  {
    var approaching, receding := values[0], values[1];
    var c := Counted(m, approaching, receding);
    if cfg.mode == BALL_MODE then
      if receding as real >= cfg.ballThreshold then
        if !c.ballDetected then (c.(ballDetected := true, impactsDetected := c.impactsDetected + 1), [BallImpact(receding)])
        else (c, [])
      else (c.(ballDetected := false), [])
    else if cfg.mode == CLUB_MODE then
      if approaching as real >= cfg.clubThreshold then
        if !c.inSwing then (c.(inSwing := true, maxClubSpeed := approaching as real), [SwingStart(approaching)])
        else (c.(maxClubSpeed := if approaching as real > c.maxClubSpeed then approaching as real else c.maxClubSpeed), [])
      else if c.inSwing then
        (c.(impactsDetected := c.impactsDetected + 1, inSwing := false, maxClubSpeed := 0.0), [ClubImpact(c.maxClubSpeed, approaching)])
      else (c, [])
    else (c, [])
  }

  /** processLine: a token `stoi` rejects, or fewer than four values, changes nothing. */
  function LineStep(m: Monitor, cfg: Config, line: string): (Monitor, seq<Output>) {
    match ParseTokens(Tokens(line))
    case None => (m, [])
    case Some(values) => if |values| < 4 then (m, []) else ValuesStep(m, cfg, values)
  }

  /** runMonitor's handling of one received line: trailing trim, then the skip rules. */
  function ReceivedLine(m: Monitor, cfg: Config, raw: string): (Monitor, seq<Output>) {
    var line := DropTrailing(raw, CrOrSpace);
    if line == [] || line[0] == '$' || line[0] == '@' then (m, []) else LineStep(m, cfg, line)
  }

  function RunLines(m: Monitor, cfg: Config, lines: seq<string>): (Monitor, seq<Output>)
    decreases |lines|
  {
    if lines == [] then (m, [])
    else
      var before := RunLines(m, cfg, lines[..|lines| - 1]);
      var last := ReceivedLine(before.0, cfg, lines[|lines| - 1]);
      (last.0, before.1 + last.1)
  }

  lemma RunLinesSnoc(m: Monitor, cfg: Config, lines: seq<string>, line: string,
                     mid: Monitor, outs: seq<Output>, after: Monitor, lineOuts: seq<Output>)
    requires (mid, outs) == RunLines(m, cfg, lines)
    requires (after, lineOuts) == ReceivedLine(mid, cfg, line)
    ensures (after, outs + lineOuts) == RunLines(m, cfg, lines + [line])
  {
    assert (lines + [line])[..|lines|] == lines;
  }

  /**
   * Over any run of lines the impact counter grows by exactly the number of
   * impacts announced, and in club mode every announced impact closes a
   * swing that an announced start opened.
   */
  lemma {:induction false} RunAccounting(m: Monitor, cfg: Config, lines: seq<string>)
    ensures var out := RunLines(m, cfg, lines);
      out.0.impactsDetected == m.impactsDetected + Impacts(out.1)
      && (cfg.mode == CLUB_MODE ==> Starts(out.1) + InSwing(m) == Impacts(out.1) + InSwing(out.0))
      && out.0.maxClubSeen >= m.maxClubSeen && out.0.maxBallSeen >= m.maxBallSeen
      && out.0.totalReadings >= m.totalReadings
    decreases |lines|
  {
    if lines != [] {
      var before := RunLines(m, cfg, lines[..|lines| - 1]);
      var last := ReceivedLine(before.0, cfg, lines[|lines| - 1]);
      RunAccounting(m, cfg, lines[..|lines| - 1]);
      CountsAppend(before.1, last.1);
    }
  }

  /** The values processLine hands on for a report. */
  function ValuesOf(r: Reading): seq<int> {
    [r.approaching, r.receding, r.approachingMag, r.recedingMag]
  }

  /** A run of parsed reports, in order. */
  function ReportRun(m: Monitor, cfg: Config, rs: seq<Reading>): (Monitor, seq<Output>)
    decreases |rs|
  {
    if rs == [] then (m, [])
    else
      var before := ReportRun(m, cfg, rs[..|rs| - 1]);
      var last := ValuesStep(before.0, cfg, ValuesOf(rs[|rs| - 1]));
      (last.0, before.1 + last.1)
  }

  /**
   * In club mode, from no swing with a zero peak, after any run of reports
   * a swing is running exactly when the last report reached the club
   * threshold; its peak is then the highest approaching speed since the
   * swing started, and zero otherwise.
   */
  lemma {:induction false} PeakIsSwingMax(m: Monitor, cfg: Config, rs: seq<Reading>)
    requires cfg.mode == CLUB_MODE && !m.inSwing && m.maxClubSpeed == 0.0
    ensures var out := ReportRun(m, cfg, rs).0;
      PeakTracks(ClubSpeeds(rs), cfg.clubThreshold, out.inSwing, out.maxClubSpeed)
    decreases |rs|
  {
    if rs != [] {
      var init, r := rs[..|rs| - 1], rs[|rs| - 1];
      PeakIsSwingMax(m, cfg, init);
      var s := ReportRun(m, cfg, init).0;
      var out := ValuesStep(s, cfg, ValuesOf(r)).0;
      assert ReportRun(m, cfg, rs).0 == out;
      assert ClubSpeeds(rs) == ClubSpeeds(init) + [r.approaching as real] by {
        assert init + [r] == rs;
        ClubSpeedsSnoc(init, r);
      }
      PeakTracksStep(ClubSpeeds(init), cfg.clubThreshold, s.inSwing, s.maxClubSpeed, r.approaching as real,
                     out.inSwing, out.maxClubSpeed);
    }
  }

  /**
   * The "Peak club" of an impact announcement: after a run that leaves a
   * swing running, a report below the club threshold announces ClubImpact
   * with the highest approaching speed since the swing started.
   */
  lemma ImpactReportsSwingPeak(m: Monitor, cfg: Config, rs: seq<Reading>, r: Reading)
    requires cfg.mode == CLUB_MODE && !m.inSwing && m.maxClubSpeed == 0.0
    requires ReportRun(m, cfg, rs).0.inSwing && r.approaching as real < cfg.clubThreshold
    ensures var xs := ClubSpeeds(rs);
      ValuesStep(ReportRun(m, cfg, rs).0, cfg, ValuesOf(r)).1
        == [ClubImpact(MaxOf(xs[SwingOnset(xs, cfg.clubThreshold)..]), r.approaching)]
  {
    PeakIsSwingMax(m, cfg, rs);
  }

  /** With a mode main would refuse, no reading ever triggers. */
  lemma UnknownModeNeverTriggers(m: Monitor, cfg: Config, line: string)
    requires ModeExitCode(cfg.mode).Some?
    ensures var out := ReceivedLine(m, cfg, line);
      out.1 == [] && out.0.impactsDetected == m.impactsDetected && out.0.inSwing == m.inSwing
      && out.0.ballDetected == m.ballDetected
  {
  }

  // ---------------------------------------------------------------- the tester

  /**
   * What appending a NUL-terminated read buffer to a std::string adds: the
   * received text up to, not including, its first NUL; all of it when it
   * holds none.
   */
  function CString(data: string): (t: string)
    ensures '\0' !in t && t <= data
    ensures '\0' !in data ==> t == data
    ensures |t| < |data| ==> data[|t|] == '\0'
  {
    if '\0' in data then data[..IndexOf(data, '\0')] else data
  }

  class KLD2Radar {
    const config: Config
    var inSwing: bool
    var maxClubSpeed: real
    var ballDetected: bool
    var totalReadings: int
    var impactsDetected: int
    var maxClubSeen: real
    var maxBallSeen: real
    /** Received text not yet ended by '\n'. */
    var buffer: string

    function State(): Monitor
      reads this
    {
      Monitor(inSwing, maxClubSpeed, ballDetected, totalReadings, impactsDetected, maxClubSeen, maxBallSeen)
    }

    constructor (cfg: Config)
      ensures config == cfg && State() == INITIAL && buffer == []
    {
      config := cfg;
      inSwing, maxClubSpeed, ballDetected := false, 0.0, false;
      totalReadings, impactsDetected, maxClubSeen, maxBallSeen := 0, 0, 0.0, 0.0;
      buffer := [];
    }

    /** The token loop of processLine. */
    static method ParseLine(line: string) returns (parts: Option<seq<int>>)
      ensures parts == ParseTokens(Tokens(line))
    {
      var fields := Split(line, ';');
      var values: seq<int> := [];
      var i := 0;
      while i < |fields|
        invariant 0 <= i <= |fields|
        invariant ParseTokens(NonEmpty(fields[..i])) == Some(values)
      {
        if fields[i] != [] {
          var v := CStoi(fields[i]);
          if v.None? {
            NonEmptyExactly(fields, fields[i]);
            ParseTokensFails(NonEmpty(fields), fields[i]);
            return None;
          }
          TokenParsed(fields, i, values);
          values := values + [v.value];
        } else {
          EmptyFieldSkipped(fields, i);
        }
        i := i + 1;
      }
      assert fields[..i] == fields;
      parts := Some(values);
    }

    /** A non-empty field that converts adds its value. */
    static lemma TokenParsed(fields: seq<string>, i: nat, values: seq<int>)
      requires i < |fields| && fields[i] != [] && CStoi(fields[i]).Some?
      requires ParseTokens(NonEmpty(fields[..i])) == Some(values)
      ensures ParseTokens(NonEmpty(fields[..i + 1])) == Some(values + [CStoi(fields[i]).value])
    {
      NextField(fields, i);
      ParseTokensSnoc(NonEmpty(fields[..i]), fields[i]);
    }

    /** An empty field is skipped. */
    static lemma EmptyFieldSkipped(fields: seq<string>, i: nat)
      requires i < |fields| && fields[i] == []
      ensures NonEmpty(fields[..i + 1]) == NonEmpty(fields[..i])
    {
      NextField(fields, i);
      assert NonEmpty(fields[..i]) + [] == NonEmpty(fields[..i]);
    }

    static lemma NextField(fields: seq<string>, i: nat)
      requires i < |fields|
      ensures NonEmpty(fields[..i + 1]) == NonEmpty(fields[..i]) + (if fields[i] != [] then [fields[i]] else [])
    {
      assert fields[..i + 1] == fields[..i] + [fields[i]];
      NonEmptySnoc(fields[..i], fields[i]);
    }

    method SetState(m: Monitor)
      modifies this`inSwing, this`maxClubSpeed, this`ballDetected, this`totalReadings,
               this`impactsDetected, this`maxClubSeen, this`maxBallSeen
      ensures State() == m
    {
      inSwing, maxClubSpeed, ballDetected := m.inSwing, m.maxClubSpeed, m.ballDetected;
      totalReadings, impactsDetected := m.totalReadings, m.impactsDetected;
      maxClubSeen, maxBallSeen := m.maxClubSeen, m.maxBallSeen;
    }

    /** processLine: the announcements and the new state are those of `LineStep`. */
    method ProcessLine(line: string) returns (outs: seq<Output>)
      modifies this`inSwing, this`maxClubSpeed, this`ballDetected, this`totalReadings,
               this`impactsDetected, this`maxClubSeen, this`maxBallSeen
      ensures (State(), outs) == LineStep(old(State()), config, line)
    {
      var parts := ParseLine(line);
      if parts.None? || |parts.value| < 4 {
        return [];
      }
      outs := ProcessValues(parts.value);
    }

    /** processLine after a successful parse: statistics, then the configured trigger. */
    method ProcessValues(values: seq<int>) returns (outs: seq<Output>)
      requires |values| >= 4
      modifies this`inSwing, this`maxClubSpeed, this`ballDetected, this`totalReadings,
               this`impactsDetected, this`maxClubSeen, this`maxBallSeen
      ensures (State(), outs) == ValuesStep(old(State()), config, values)
    {
      var approaching, receding := values[0], values[1];
      totalReadings := totalReadings + 1;
      if approaching as real > maxClubSeen {
        maxClubSeen := approaching as real;
      }
      if receding as real > maxBallSeen {
        maxBallSeen := receding as real;
      }
      outs := [];
      if config.mode == BALL_MODE {
        if receding as real >= config.ballThreshold {
          if !ballDetected {
            ballDetected := true;
            impactsDetected := impactsDetected + 1;
            outs := [BallImpact(receding)];
          }
        } else if ballDetected {
          ballDetected := false;
        }
        return;
      }
      if config.mode == CLUB_MODE {
        if approaching as real >= config.clubThreshold {
          if !inSwing {
            inSwing := true;
            maxClubSpeed := approaching as real;
            outs := [SwingStart(approaching)];
          } else if approaching as real > maxClubSpeed {
            maxClubSpeed := approaching as real;
          }
        } else if inSwing {
          impactsDetected := impactsDetected + 1;
          outs := [ClubImpact(maxClubSpeed, approaching)];
          inSwing := false;
          maxClubSpeed := 0.0;
        }
      }
    }

    /** The trailing trim of runMonitor. */
    static method TrimLine(line: string) returns (t: string)
      ensures t == DropTrailing(line, CrOrSpace)
    {
      t := line;
      while t != [] && (t[|t| - 1] == '\r' || t[|t| - 1] == ' ')
        invariant DropTrailing(t, CrOrSpace) == DropTrailing(line, CrOrSpace)
        decreases |t|
      {
        t := t[..|t| - 1];
      }
    }

    method HandleLine(raw: string) returns (outs: seq<Output>)
      modifies this`inSwing, this`maxClubSpeed, this`ballDetected, this`totalReadings,
               this`impactsDetected, this`maxClubSeen, this`maxBallSeen
      ensures (State(), outs) == ReceivedLine(old(State()), config, raw)
    {
      var line := TrimLine(raw);
      if line == [] || line[0] == '$' || line[0] == '@' {
        return [];
      }
      outs := ProcessLine(line);
    }

    /** Takes the first complete line off the buffer. */
    method NextLine() returns (line: string)
      requires '\n' in buffer
      modifies this`buffer
      ensures Lines(old(buffer)) == [line] + Lines(buffer) && Remainder(old(buffer)) == Remainder(buffer)
      ensures |buffer| < |old(buffer)|
    {
      var k := IndexOf(buffer, '\n');
      line := buffer[..k];
      TakeLine(buffer);
      buffer := buffer[k + 1..];
    }

    /**
     * The read loop of runMonitor for one chunk of received bytes: the
     * chunk joins the buffer as a C string, so only up to its first NUL;
     * every complete line is handled in order and the rest stays buffered.
     */
    method Receive(data: string) returns (outs: seq<Output>)
      modifies this`buffer, this`inSwing, this`maxClubSpeed, this`ballDetected, this`totalReadings,
               this`impactsDetected, this`maxClubSeen, this`maxBallSeen
      ensures buffer == Remainder(old(buffer) + CString(data))
      ensures (State(), outs) == RunLines(old(State()), config, Lines(old(buffer) + CString(data)))
    {
      buffer := buffer + CString(data);
      ghost var total := buffer;
      ghost var start := State();
      ghost var consumed: seq<string> := [];
      outs := [];
      while '\n' in buffer
        invariant Lines(total) == consumed + Lines(buffer) && Remainder(total) == Remainder(buffer)
        invariant (State(), outs) == RunLines(start, config, consumed)
        decreases |buffer|
      {
        var line := NextLine();
        assert Lines(total) == (consumed + [line]) + Lines(buffer);
        ghost var mid := State();
        var lineOuts := HandleLine(line);
        RunLinesSnoc(start, config, consumed, line, mid, outs, State(), lineOuts);
        outs := outs + lineOuts;
        consumed := consumed + [line];
      }
      NoLines(buffer);
      assert consumed + [] == consumed;
    }
  }
}
