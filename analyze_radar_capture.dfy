/**
 * The offline analysis of a radar capture: the rows that parse become
 * frames, the frames with a real detection (1 mph or more) are kept, their
 * magnitudes are counted in five distance bands, and the detections are
 * grouped into swings separated by two seconds of quiet. Reading the CSV
 * file and printing the report are left out; a row arrives already parsed,
 * or as None when the conversion of one of its fields fails.
 */
module RadarCapture {
  import opened Wrappers

  datatype CaptureFrame = CaptureFrame(
    timestampMs: real, detected: bool, direction: string,
    speedBin: int, magnitudeDb: int, speedMph: real, dopplerHz: real)

  const MIN_DETECTION_MPH: real := 1.0
  const SWING_GAP_MS: real := 2000.0

  // ---------------------------------------------------------------------
  // Reading

  /** The frames of the rows that parsed, in file order. */
  function Parsed(rows: seq<Option<CaptureFrame>>): (frames: seq<CaptureFrame>)
    ensures |frames| <= |rows|
  {
    if rows == [] then []
    else
      var init := Parsed(rows[..|rows| - 1]);
      match rows[|rows| - 1]
      case Some(f) => init + [f]
      case None => init
  }

  /** A frame is read exactly when some row parsed to it. */
  lemma {:induction false} ParsedExactly(rows: seq<Option<CaptureFrame>>, f: CaptureFrame)
    ensures f in Parsed(rows) <==> Some(f) in rows
  {
    if rows != [] {
      var init := rows[..|rows| - 1];
      ParsedExactly(init, f);
      assert rows == init + [rows[|rows| - 1]];
    }
  }

  /** The reading loop: rows that fail to parse are skipped. */
  method ReadFrames(rows: seq<Option<CaptureFrame>>) returns (frames: seq<CaptureFrame>)
    ensures frames == Parsed(rows)
  {
    frames := [];
    var i := 0;
    while i < |rows|
      invariant 0 <= i <= |rows| && frames == Parsed(rows[..i])
    {
      assert rows[..i + 1][..i] == rows[..i];
      if rows[i].Some? {
        frames := frames + [rows[i].value];
      }
      i := i + 1;
    }
    assert rows[..|rows|] == rows;
  }

  // ---------------------------------------------------------------------
  // Detections

  predicate IsDetection(f: CaptureFrame) {
    f.detected && f.speedMph >= MIN_DETECTION_MPH
  }

  /** The detections, in capture order. */
  function Detections(frames: seq<CaptureFrame>): (d: seq<CaptureFrame>)
    ensures |d| <= |frames|
    ensures forall i :: 0 <= i < |d| ==> IsDetection(d[i])
  {
    if frames == [] then []
    else
      var init := Detections(frames[..|frames| - 1]);
      var f := frames[|frames| - 1];
      if IsDetection(f) then init + [f] else init
  }

  /** The detections are exactly the detected frames at 1 mph or more. */
  lemma {:induction false} DetectionsExactly(frames: seq<CaptureFrame>, f: CaptureFrame)
    ensures f in Detections(frames) <==> f in frames && IsDetection(f)
  {
    if frames != [] {
      var init := frames[..|frames| - 1];
      DetectionsExactly(init, f);
      assert frames == init + [frames[|frames| - 1]];
    }
  }

  /**
   * The frame reported at the maximum speed: the first detection whose
   * speed no other detection exceeds.
   */
  method MaxSpeedIndex(detections: seq<CaptureFrame>) returns (best: nat)
    requires detections != []
    ensures best < |detections|
    ensures forall j :: 0 <= j < |detections| ==> detections[j].speedMph <= detections[best].speedMph
    ensures forall j :: 0 <= j < best ==> detections[j].speedMph < detections[best].speedMph
  {
    best := 0;
    var i := 1;
    while i < |detections|
      invariant 1 <= i <= |detections| && best < i
      invariant forall j :: 0 <= j < i ==> detections[j].speedMph <= detections[best].speedMph
      invariant forall j :: 0 <= j < best ==> detections[j].speedMph < detections[best].speedMph
    {
      if detections[i].speedMph > detections[best].speedMph {
        best := i;
      }
      i := i + 1;
    }
  }

  // ---------------------------------------------------------------------
  // Magnitude bands

  /** The number of magnitudes in [lo, hi). */
  function CountIn(mags: seq<int>, lo: int, hi: int): (n: nat)
    ensures n <= |mags|
  {
    if mags == [] then 0
    else CountIn(mags[..|mags| - 1], lo, hi) + (if lo <= mags[|mags| - 1] < hi then 1 else 0)
  }

  /** The five bands' counts: 85 dB and up, 80-84, 75-79, 65-74, and under 65. */
  function MagnitudeBands(mags: seq<int>): (bands: seq<nat>)
    ensures |bands| == 5
  {
    var top := |mags| - CountAtMost(mags, 84);
    [top, CountIn(mags, 80, 85), CountIn(mags, 75, 80), CountIn(mags, 65, 75), CountAtMost(mags, 64)]
  }

  /** The number of magnitudes at most hi. */
  function CountAtMost(mags: seq<int>, hi: int): (n: nat)
    ensures n <= |mags|
  {
    if mags == [] then 0
    else CountAtMost(mags[..|mags| - 1], hi) + (if mags[|mags| - 1] <= hi then 1 else 0)
  }

  /** The number of magnitudes at least lo. */
  function CountAtLeast(mags: seq<int>, lo: int): (n: nat)
    ensures n <= |mags|
  {
    if mags == [] then 0
    else CountAtLeast(mags[..|mags| - 1], lo) + (if mags[|mags| - 1] >= lo then 1 else 0)
  }

  /**
   * The bands partition the magnitudes: the first band counts exactly the
   * magnitudes of 85 dB and up, and the five counts sum to the number of
   * magnitudes.
   */
  lemma {:induction false} BandsPartition(mags: seq<int>)
    ensures MagnitudeBands(mags)[0] == CountAtLeast(mags, 85)
    ensures var b := MagnitudeBands(mags); b[0] + b[1] + b[2] + b[3] + b[4] == |mags|
  {
    if mags != [] {
      BandsPartition(mags[..|mags| - 1]);
    }
  }

  // ---------------------------------------------------------------------
  // Swings

  function Flatten(groups: seq<seq<CaptureFrame>>): seq<CaptureFrame> {
    if groups == [] then [] else Flatten(groups[..|groups| - 1]) + groups[|groups| - 1]
  }

  function Last(g: seq<CaptureFrame>): CaptureFrame
    requires g != []
  {
    g[|g| - 1]
  }

  /** Within a swing, each detection follows the previous one by less than two seconds. */
  predicate Close(g: seq<CaptureFrame>) {
    forall j :: 0 < j < |g| ==> g[j].timestampMs - g[j - 1].timestampMs < SWING_GAP_MS
  }

  /** Between two swings lie at least two seconds. */
  predicate Apart(g: seq<CaptureFrame>, h: seq<CaptureFrame>)
    requires g != [] && h != []
  {
    h[0].timestampMs - Last(g).timestampMs >= SWING_GAP_MS
  }

  /** Swing k starts at least two seconds after swing k - 1 ends. */
  predicate ApartAt(swings: seq<seq<CaptureFrame>>, k: int)
    requires 0 < k < |swings|
  {
    swings[k - 1] != [] && swings[k] != [] && Apart(swings[k - 1], swings[k])
  }

  /** The swings: non-empty, each close, consecutive ones apart. */
  predicate Grouped(swings: seq<seq<CaptureFrame>>) {
    (forall k :: 0 <= k < |swings| ==> swings[k] != [] && Close(swings[k]))
    && forall k :: 0 < k < |swings| ==> ApartAt(swings, k)
  }

  /**
   * The swing grouping loop. The swings are the detections split exactly
   * where a gap of two seconds or more opens: concatenated they give back
   * the detections in order.
   */
  method GroupSwings(detections: seq<CaptureFrame>) returns (swings: seq<seq<CaptureFrame>>)
    ensures swings == Swings(detections)
    ensures Flatten(swings) == detections
    ensures Grouped(swings)
  {
    swings := [];
    var current: seq<CaptureFrame> := [];
    var lastTimestamp := 0.0;
    var i := 0;
    while i < |detections|
      invariant 0 <= i <= |detections|
      invariant (swings, current) == Grouping(detections[..i])
      invariant current != [] ==> lastTimestamp == Last(current).timestampMs
    {
      var f := detections[i];
      GroupingStep(detections, i);
      if current == [] || f.timestampMs - lastTimestamp < SWING_GAP_MS {
        current := current + [f];
      } else {
        swings := swings + [current];
        current := [f];
      }
      lastTimestamp := f.timestampMs;
      i := i + 1;
    }
    assert detections[..i] == detections;
    if current != [] {
      swings := swings + [current];
    }
    SwingsSplitAtGaps(detections);
  }

  /** The loop's (closed swings, open swing) after the given detections. */
  function Grouping(ds: seq<CaptureFrame>): (g: (seq<seq<CaptureFrame>>, seq<CaptureFrame>))
    ensures ds != [] <==> g.1 != []
    ensures |g.0| + (if g.1 != [] then 1 else 0) <= |ds|
  {
    if ds == [] then ([], [])
    else
      var (swings, current) := Grouping(ds[..|ds| - 1]);
      var f := ds[|ds| - 1];
      if current == [] || f.timestampMs - Last(current).timestampMs < SWING_GAP_MS then (swings, current + [f])
      else (swings + [current], [f])
  }

  /** The swings of a capture: the closed ones, then the open one if there is one. */
  function Swings(ds: seq<CaptureFrame>): (sw: seq<seq<CaptureFrame>>)
    ensures sw == [] <==> ds == []
    ensures |sw| <= |ds|
  {
    var (swings, current) := Grouping(ds);
    if current != [] then swings + [current] else swings
  }

  lemma GroupingStep(ds: seq<CaptureFrame>, i: int)
    requires 0 <= i < |ds|
    ensures var (swings, current) := Grouping(ds[..i]);
      var f := ds[i];
      Grouping(ds[..i + 1])
        == if current == [] || f.timestampMs - Last(current).timestampMs < SWING_GAP_MS then (swings, current + [f])
           else (swings + [current], [f])
  {
    assert ds[..i + 1][..i] == ds[..i];
  }

  /**
   * The swings are the detections split exactly where a gap of two seconds
   * or more opens: concatenated they give back the detections in order.
   */
  lemma SwingsSplitAtGaps(ds: seq<CaptureFrame>)
    ensures Flatten(Swings(ds)) == ds && Grouped(Swings(ds))
  {
    GroupingInv(ds);
    var (swings, current) := Grouping(ds);
    FinishSwings(ds, swings, current);
  }

  lemma {:induction false} GroupingInv(ds: seq<CaptureFrame>)
    ensures SwingsSoFar(ds, |ds|, Grouping(ds).0, Grouping(ds).1)
    decreases |ds|
  {
    if ds != [] {
      var i := |ds| - 1;
      var init := ds[..i];
      GroupingInv(init);
      var (swings, current) := Grouping(init);
      PrefixInv(ds, i, swings, current);
      GroupingStep(ds, i);
      assert ds[..i + 1] == ds;
      if current == [] || ds[i].timestampMs - Last(current).timestampMs < SWING_GAP_MS {
        KeepStep(ds, i, swings, current);
      } else {
        SplitStep(ds, i, swings, current);
      }
    }
  }

  /** The state after a prefix, read against the whole capture. */
  lemma PrefixInv(ds: seq<CaptureFrame>, i: int, swings: seq<seq<CaptureFrame>>, current: seq<CaptureFrame>)
    requires 0 <= i <= |ds| && SwingsSoFar(ds[..i], i, swings, current)
    ensures SwingsSoFar(ds, i, swings, current)
  {
    assert ds[..i][..i] == ds[..i];
    if i > 0 {
      assert ds[..i][i - 1] == ds[i - 1];
    }
  }

  /** After the last detection the open swing, if any, is closed. */
  lemma FinishSwings(detections: seq<CaptureFrame>, swings: seq<seq<CaptureFrame>>, current: seq<CaptureFrame>)
    requires SwingsSoFar(detections, |detections|, swings, current)
    ensures var r := if current != [] then swings + [current] else swings;
      Flatten(r) == detections && Grouped(r)
  {
    assert detections[..|detections|] == detections;
    if current != [] {
      StartSwing(swings, current);
    }
  }

  /**
   * The loop's state after the first i detections: the closed swings and
   * the open one concatenate to those detections, the closed swings are
   * grouped, the open one is close, ends at the latest detection and lies
   * apart from the last closed swing.
   */
  predicate SwingsSoFar(detections: seq<CaptureFrame>, i: int, swings: seq<seq<CaptureFrame>>, current: seq<CaptureFrame>) {
    && 0 <= i <= |detections|
    && Flatten(swings) + current == detections[..i]
    && Grouped(swings) && Close(current)
    && (current == [] <==> i == 0)
    && (i > 0 ==> Last(current) == detections[i - 1])
    && (swings != [] && current != [] ==> Apart(swings[|swings| - 1], current))
  }

  lemma KeepStep(detections: seq<CaptureFrame>, i: int, swings: seq<seq<CaptureFrame>>, current: seq<CaptureFrame>)
    requires SwingsSoFar(detections, i, swings, current) && i < |detections|
    requires current == [] || detections[i].timestampMs - Last(current).timestampMs < SWING_GAP_MS
    ensures SwingsSoFar(detections, i + 1, swings, current + [detections[i]])
  {
    KeepSwing(swings, current, detections[i]);
    PrefixKept(Flatten(swings), current, detections, i);
    assert Last(current + [detections[i]]) == detections[i];
  }

  lemma SplitStep(detections: seq<CaptureFrame>, i: int, swings: seq<seq<CaptureFrame>>, current: seq<CaptureFrame>)
    requires SwingsSoFar(detections, i, swings, current) && i < |detections|
    requires current != [] && detections[i].timestampMs - Last(current).timestampMs >= SWING_GAP_MS
    ensures SwingsSoFar(detections, i + 1, swings + [current], [detections[i]])
  {
    StartSwing(swings, current);
    PrefixKept(Flatten(swings), current, detections, i);
    var s := swings + [current];
    assert s[|s| - 1] == current;
  }

  lemma PrefixKept(done: seq<CaptureFrame>, current: seq<CaptureFrame>, detections: seq<CaptureFrame>, i: int)
    requires 0 <= i < |detections| && done + current == detections[..i]
    ensures done + (current + [detections[i]]) == detections[..i + 1]
    ensures (done + current) + [detections[i]] == detections[..i + 1]
  {
    assert detections[..i + 1] == detections[..i] + [detections[i]];
  }

  /** A detection less than two seconds after the previous one extends the current swing. */
  lemma KeepSwing(swings: seq<seq<CaptureFrame>>, current: seq<CaptureFrame>, f: CaptureFrame)
    requires Close(current)
    requires current != [] ==> f.timestampMs - Last(current).timestampMs < SWING_GAP_MS
    ensures Close(current + [f]) && Last(current + [f]) == f
    ensures Flatten(swings) + (current + [f]) == (Flatten(swings) + current) + [f]
    ensures swings != [] && swings[|swings| - 1] != [] && current != [] && Apart(swings[|swings| - 1], current) ==>
      Apart(swings[|swings| - 1], current + [f])
  {
    var c := current + [f];
    forall j | 0 < j < |c|
      ensures c[j].timestampMs - c[j - 1].timestampMs < SWING_GAP_MS
    {
      if j < |current| {
        assert c[j] == current[j] && c[j - 1] == current[j - 1];
      }
    }
    if current != [] {
      assert c[0] == current[0];
    }
  }

  /** Closing the current swing keeps the grouping and the concatenation. */
  lemma StartSwing(swings: seq<seq<CaptureFrame>>, current: seq<CaptureFrame>)
    requires Grouped(swings) && current != [] && Close(current)
    requires swings != [] ==> Apart(swings[|swings| - 1], current)
    ensures Grouped(swings + [current])
    ensures Flatten(swings + [current]) == Flatten(swings) + current
  {
    var s := swings + [current];
    assert s[..|s| - 1] == swings;
    forall k | 0 < k < |s|
      ensures ApartAt(s, k)
    {
      if k < |s| - 1 {
        assert ApartAt(swings, k);
      } else {
        assert s[k - 1] == swings[|swings| - 1];
      }
    }
  }
}
