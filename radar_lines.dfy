/**
 * The K-LD2 speed report shared by the radar tools: four integers
 * (approaching speed, receding speed, approaching magnitude, receding
 * magnitude), each followed by ';', one report per '\n'-terminated line.
 * Every reader keeps a buffer of received text and consumes complete lines
 * from its front; what follows the last '\n' stays buffered.
 */
module RadarLines {
  import opened Wrappers
  import opened Text

  datatype Reading = Reading(approaching: int, receding: int, approachingMag: int, recedingMag: int)

  /** The report line the sensor sends for a reading (without its line end). */
  function FormatReading(r: Reading): string {
    ShowInt(r.approaching) + ";" + ShowInt(r.receding) + ";" + ShowInt(r.approachingMag) + ";"
    + ShowInt(r.recedingMag) + ";"
  }

  lemma NoSeparatorInDecimal(n: int, sep: char)
    requires sep == ';' || sep == '\n'
    ensures sep !in ShowInt(n)
  {
    var d := ShowInt(n);
    forall i | 0 <= i < |d| ensures d[i] != sep {
      if n < 0 && i > 0 {
        assert d[i] == d[1..][i - 1];
        assert IsDigit(d[1..][i - 1]);
      } else if n >= 0 {
        assert IsDigit(d[i]);
      }
    }
  }

  /** The fields of a formatted report are the four numbers and an empty tail. */
  lemma FormatSplit(r: Reading)
    ensures Split(FormatReading(r), ';')
         == [ShowInt(r.approaching), ShowInt(r.receding), ShowInt(r.approachingMag), ShowInt(r.recedingMag), ""]
  {
    NoSeparatorInDecimal(r.approaching, ';');
    NoSeparatorInDecimal(r.receding, ';');
    NoSeparatorInDecimal(r.approachingMag, ';');
    NoSeparatorInDecimal(r.recedingMag, ';');
    SplitFourFields(ShowInt(r.approaching), ShowInt(r.receding), ShowInt(r.approachingMag), ShowInt(r.recedingMag));
  }

  /** Four ';'-free fields, each followed by ';', split back into the fields and an empty tail. */
  lemma SplitFourFields(a: string, b: string, c: string, d: string)
    requires ';' !in a && ';' !in b && ';' !in c && ';' !in d
    ensures Split(a + ";" + b + ";" + c + ";" + d + ";", ';') == [a, b, c, d, ""]
  {
    var parts := [a, b, c, d, ""];
    JoinFourFields(a, b, c, d);
    JoinSplit(parts, ';');
  }

  lemma JoinFourFields(a: string, b: string, c: string, d: string)
    ensures Join([a, b, c, d, ""], ';') == a + ";" + b + ";" + c + ";" + d + ";"
  {
    var parts := [a, b, c, d, ""];
    assert Join(parts[4..], ';') == "";
    assert Join(parts[3..], ';') == d + ";" + "";
    assert Join(parts[2..], ';') == c + ";" + (d + ";" + "");
    assert Join(parts[1..], ';') == b + ";" + (c + ";" + (d + ";" + ""));
  }

  /** A formatted report has no line end, starts with a sign or digit and ends with ';'. */
  lemma FormatShape(r: Reading)
    ensures var s := FormatReading(r);
      |s| >= 2 && s[|s| - 1] == ';' && (s[0] == '-' || IsDigit(s[0])) && '\n' !in s
  {
    var s := FormatReading(r);
    assert s[0] == ShowInt(r.approaching)[0];
    NoSeparatorInDecimal(r.approaching, '\n');
    NoSeparatorInDecimal(r.receding, '\n');
    NoSeparatorInDecimal(r.approachingMag, '\n');
    NoSeparatorInDecimal(r.recedingMag, '\n');
  }

  /** The complete lines in a buffer, in order, without their '\n'. */
  function Lines(s: string): (ls: seq<string>)
    ensures forall i :: 0 <= i < |ls| ==> '\n' !in ls[i]
  {
    var parts := Split(s, '\n');
    parts[..|parts| - 1]
  }

  /** What stays buffered: the text after the last '\n', which holds no '\n'. */
  function Remainder(s: string): (r: string)
    ensures '\n' !in r
  {
    var parts := Split(s, '\n');
    parts[|parts| - 1]
  }

  /** Lines and remainder give the buffer back, so consuming lines loses nothing. */
  lemma LinesAndRemainder(s: string)
    ensures Join(Lines(s) + [Remainder(s)], '\n') == s
  {
    var parts := Split(s, '\n');
    assert Lines(s) + [Remainder(s)] == parts;
    SplitJoin(s, '\n');
  }

  /** Taking the first line off a buffer that holds a '\n'. */
  lemma TakeLine(s: string)
    requires '\n' in s
    ensures var k := IndexOf(s, '\n');
      Lines(s) == [s[..k]] + Lines(s[k + 1..]) && Remainder(s) == Remainder(s[k + 1..])
  {
    var k := IndexOf(s, '\n');
    var rest := Split(s[k + 1..], '\n');
    SplitFirst(s);
    ConsParts(s[..k], rest);
  }

  lemma SplitFirst(s: string)
    requires '\n' in s
    ensures Split(s, '\n') == [s[..IndexOf(s, '\n')]] + Split(s[IndexOf(s, '\n') + 1..], '\n')
  {
  }

  /** The parts before the last, and the last, of a list with one more part in front. */
  lemma ConsParts(first: string, rest: seq<string>)
    requires |rest| >= 1
    ensures var parts := [first] + rest;
      parts[..|parts| - 1] == [first] + rest[..|rest| - 1] && parts[|parts| - 1] == rest[|rest| - 1]
  {
  }

  lemma NoLines(s: string)
    requires '\n' !in s
    ensures Lines(s) == [] && Remainder(s) == s
  {
  }

  /** A formatted report followed by '\n' is one complete line. */
  lemma FormattedLine(r: Reading, rest: string)
    ensures Lines(FormatReading(r) + "\n" + rest) == [FormatReading(r)] + Lines(rest)
  {
    FormatShape(r);
    LineThenRest(FormatReading(r), rest);
  }

  /** Text without '\n', then '\n', is the first complete line. */
  lemma LineThenRest(line: string, rest: string)
    requires '\n' !in line
    ensures Lines(line + "\n" + rest) == [line] + Lines(rest)
  {
    var s := line + "\n" + rest;
    assert s[..|line|] == line && s[|line|] == '\n';
    assert s[|line| + 1..] == rest;
    TakeLineAt(s, |line|);
  }

  /** Taking the first line off, given where its '\n' is. */
  lemma TakeLineAt(s: string, k: int)
    requires 0 <= k < |s| && s[k] == '\n' && '\n' !in s[..k]
    ensures Lines(s) == [s[..k]] + Lines(s[k + 1..])
  {
    FirstIndex(s, '\n', k);
    TakeLine(s);
  }

  /** The first position of c is the one before which c does not occur. */
  lemma {:induction false} FirstIndex(s: string, c: char, k: int)
    requires 0 <= k < |s| && s[k] == c && c !in s[..k]
    ensures IndexOf(s, c) == k
    decreases k
  {
    if k > 0 {
      assert s[0] == s[..k][0];
      assert s[1..][..k - 1] == s[..k][1..];
      FirstIndex(s[1..], c, k - 1);
    }
  }

  // ---------------------------------------------------------------- swing peaks

  /** The approaching (club) speeds of a run of reports, in order. */
  function ClubSpeeds(rs: seq<Reading>): (xs: seq<real>)
    ensures |xs| == |rs| && forall i :: 0 <= i < |rs| ==> xs[i] == rs[i].approaching as real
  {
    seq(|rs|, i requires 0 <= i < |rs| => rs[i].approaching as real)
  }

  /** The highest speed of a non-empty run, kept as the trackers keep a peak: replaced only by a higher one. */
  function MaxOf(xs: seq<real>): (m: real)
    requires xs != []
    ensures m in xs
    ensures forall i :: 0 <= i < |xs| ==> xs[i] <= m
    decreases |xs|
  {
    if |xs| == 1 then xs[0]
    else
      var m := MaxOf(xs[..|xs| - 1]);
      assert m in xs[..|xs| - 1];
      if xs[|xs| - 1] > m then xs[|xs| - 1] else m
  }

  lemma MaxOfSnoc(xs: seq<real>, x: real)
    requires xs != []
    ensures MaxOf(xs + [x]) == if x > MaxOf(xs) then x else MaxOf(xs)
  {
    assert (xs + [x])[..|xs|] == xs;
  }

  /** Where the current swing began: just after the last speed below the threshold (0 when there is none). */
  function SwingOnset(xs: seq<real>, t: real): (k: nat)
    ensures k <= |xs|
    ensures forall i :: k <= i < |xs| ==> xs[i] >= t
    ensures 0 < k ==> xs[k - 1] < t
    decreases |xs|
  {
    if xs == [] then 0
    else if xs[|xs| - 1] < t then |xs|
    else SwingOnset(xs[..|xs| - 1], t)
  }

  /** The first position whose speed reaches the threshold, or the length when none does. */
  function FirstAtLeast(xs: seq<real>, t: real): (k: nat)
    ensures k <= |xs|
    ensures forall i :: 0 <= i < k ==> xs[i] < t
    ensures k < |xs| ==> xs[k] >= t
    decreases |xs|
  {
    if xs == [] then 0
    else
      var k := FirstAtLeast(xs[..|xs| - 1], t);
      if k < |xs| - 1 || xs[|xs| - 1] >= t then k else |xs|
  }

  /**
   * One more speed at or above the threshold continues the swing: the
   * swing keeps its start, and its peak is the old peak or the new speed,
   * whichever is higher (the speed itself when no swing was running).
   */
  lemma SwingPeakStep(xs: seq<real>, t: real, x: real)
    requires x >= t
    ensures var k := SwingOnset(xs, t);
      SwingOnset(xs + [x], t) == k
      && (k < |xs| ==> MaxOf((xs + [x])[k..]) == if x > MaxOf(xs[k..]) then x else MaxOf(xs[k..]))
      && (k == |xs| ==> MaxOf((xs + [x])[k..]) == x)
  {
    var k := SwingOnset(xs, t);
    assert (xs + [x])[..|xs|] == xs;
    assert (xs + [x])[k..] == xs[k..] + [x];
    if k < |xs| {
      MaxOfSnoc(xs[k..], x);
    }
  }

  /**
   * What a tracker's swing state says about the speeds so far: a swing
   * runs exactly when the last speed reached the threshold, and its peak is
   * then the highest speed since the swing began; otherwise the peak is 0.
   */
  predicate PeakTracks(xs: seq<real>, t: real, inSwing: bool, peak: real) {
    var k := SwingOnset(xs, t);
    (inSwing <==> k < |xs|) && (inSwing ==> peak == MaxOf(xs[k..])) && (!inSwing ==> peak == 0.0)
  }

  /**
   * One more speed through a tracker that starts a swing at the threshold
   * with the speed as its peak, raises the peak of a running swing, and
   * ends a swing with peak 0 below the threshold.
   */
  lemma PeakTracksStep(xs: seq<real>, t: real, inSwing: bool, peak: real, x: real, inSwing': bool, peak': real)
    requires PeakTracks(xs, t, inSwing, peak)
    requires inSwing' <==> x >= t
    requires inSwing' && inSwing ==> peak' >= peak && peak' >= x && (peak' == peak || peak' == x)
    requires inSwing' && !inSwing ==> peak' == x
    requires !inSwing' ==> peak' == (if inSwing then 0.0 else peak)
    ensures PeakTracks(xs + [x], t, inSwing', peak')
  {
    var ys := xs + [x];
    if x >= t {
      SwingPeakStep(xs, t, x);
    } else {
      assert ys[..|ys| - 1] == xs && ys[|ys| - 1] == x;
      assert SwingOnset(ys, t) == |ys|;
    }
  }

  lemma ClubSpeedsSnoc(rs: seq<Reading>, r: Reading)
    ensures ClubSpeeds(rs + [r]) == ClubSpeeds(rs) + [r.approaching as real]
  {
  }
}
