/**
 * The candidate handling of the fast ball detector: the accepted frame
 * shapes, the sensitivity schedule that picks one Hough result, the
 * removal of circles whose centres fall within 10 px of a kept one, the
 * validation gates with the weighted score, and the average step length of
 * a position history. Hough, Canny, contours and the image statistics are
 * OpenCV's: their results are inputs here (the attempts of the schedule,
 * and a `Measurement` per circle).
 */
module FastDetection {
  import opened Wrappers
  import opened Numbers

  /** How the frame is read: colour converted to grey, or grey as it is. */
  datatype Channels = Color | Gray

  const FORMAT_ERROR: string := "Unexpected image format. Expected (H,W), (H,W,1), or (H,W,3)"

  /** detect_ball's input check on the array's shape. */
  function FrameFormat(shape: seq<int>): (r: Result<Channels>)
    ensures r.Success? <==> |shape| == 2 || (|shape| == 3 && (shape[2] == 1 || shape[2] == 3))
    ensures r.Success? ==> (r.value == Color <==> |shape| == 3 && shape[2] == 3)
    ensures r.Failure? ==> r.error == FORMAT_ERROR
  {
    if |shape| == 3 && shape[2] == 3 then Success(Color)
    else if |shape| == 2 then Success(Gray)
    else if |shape| == 3 && shape[2] == 1 then Success(Gray)
    else Failure(FORMAT_ERROR)
  }

  /** A Hough circle: centre and radius in pixels, before rounding. */
  datatype Circle = Circle(x: real, y: real, r: real)

  /** The accumulator thresholds tried, in order. */
  const PARAM2_SCHEDULE: seq<int> := [8, 6, 10, 5, 12, 15]

  predicate Good(circles: seq<Circle>) {
    1 <= |circles| <= 3
  }

  /** The index of the first attempt with one to three circles, if any. */
  function FirstGood(attempts: seq<seq<Circle>>): (i: Option<nat>)
    ensures i.Some? ==> i.value < |attempts| && Good(attempts[i.value])
    ensures i.Some? ==> forall j :: 0 <= j < i.value ==> !Good(attempts[j])
    ensures i.None? ==> forall j :: 0 <= j < |attempts| ==> !Good(attempts[j])
  {
    if attempts == [] then None
    else if Good(attempts[0]) then Some(0)
    else match FirstGood(attempts[1..])
      case None => None
      case Some(k) => Some(k + 1)
  }

  /** The index of the first attempt with any circle, if any. */
  function FirstNonEmpty(attempts: seq<seq<Circle>>): (i: Option<nat>)
    ensures i.Some? ==> i.value < |attempts| && attempts[i.value] != []
    ensures i.Some? ==> forall j :: 0 <= j < i.value ==> attempts[j] == []
    ensures i.None? ==> forall j :: 0 <= j < |attempts| ==> attempts[j] == []
  {
    if attempts == [] then None
    else if attempts[0] != [] then Some(0)
    else match FirstNonEmpty(attempts[1..])
      case None => None
      case Some(k) => Some(k + 1)
  }

  /**
   * The schedule's choice: the first attempt with one to three circles;
   * failing that the first non-empty one; failing that nothing.
   */
  function Selected(attempts: seq<seq<Circle>>): seq<Circle> {
    match FirstGood(attempts)
    case Some(i) => attempts[i]
    case None =>
      match FirstNonEmpty(attempts)
      case Some(j) => attempts[j]
      case None => []
  }

  /**
   * The schedule loop over the Hough results of each sensitivity, stopping
   * at the first good one and otherwise keeping the first non-empty one.
   */
  method SelectCircles(attempts: seq<seq<Circle>>) returns (allCircles: seq<Circle>, foundGood: bool)
    ensures allCircles == Selected(attempts)
    ensures foundGood <==> FirstGood(attempts).Some?
  {
    allCircles, foundGood := [], false;
    var i := 0;
    while i < |attempts|
      invariant 0 <= i <= |attempts|
      invariant forall j :: 0 <= j < i ==> !Good(attempts[j])
      invariant allCircles == (match FirstNonEmpty(attempts[..i]) case Some(j) => attempts[j] case None => [])
    {
      var circles := attempts[i];
      if circles != [] {
        if 1 <= |circles| <= 3 {
          allCircles, foundGood := circles, true;
          FirstGoodAt(attempts, i);
          return;
        } else if allCircles == [] {
          allCircles := circles;
        }
      }
      FirstNonEmptyGrows(attempts, i);
      i := i + 1;
    }
    assert attempts[..i] == attempts;
  }

  lemma FirstGoodAt(attempts: seq<seq<Circle>>, i: nat)
    requires i < |attempts| && Good(attempts[i]) && forall j :: 0 <= j < i ==> !Good(attempts[j])
    ensures FirstGood(attempts) == Some(i) && Selected(attempts) == attempts[i]
  {
    var f := FirstGood(attempts);
    assert f.Some? && f.value <= i;
  }

  lemma FirstNonEmptyGrows(attempts: seq<seq<Circle>>, i: nat)
    requires i < |attempts|
    ensures var before := FirstNonEmpty(attempts[..i]);
      FirstNonEmpty(attempts[..i + 1]) ==
        (if before.Some? then before else if attempts[i] != [] then Some(i) else None)
  {
    var before := FirstNonEmpty(attempts[..i]);
    var after := FirstNonEmpty(attempts[..i + 1]);
    assert forall j :: 0 <= j < i ==> attempts[..i + 1][j] == attempts[..i][j];
    if before.Some? {
      assert after.Some? && after.value <= before.value;
    }
  }

  /** cvRound, with the processor's default round-half-to-even. */
  function RoundPx(v: real): int {
    RoundHalfEven(v)
  }

  function Center(c: Circle): (int, int) {
    (RoundPx(c.x), RoundPx(c.y))
  }

  /** Two centres less than 10 px apart along both axes. */
  predicate Close(a: (int, int), b: (int, int)) {
    -10 < a.0 - b.0 < 10 && -10 < a.1 - b.1 < 10
  }

  /** Some kept circle has a centre close to the centre of `c`. */
  predicate Covered(kept: seq<Circle>, c: Circle) {
    exists k :: 0 <= k < |kept| && Close(Center(kept[k]), Center(c))
  }

  /** The concentric-circle removal, as a circle-by-circle definition. */
  function Dedup(circles: seq<Circle>): (kept: seq<Circle>)
    ensures |kept| <= |circles|
    decreases |circles|
  {
    if circles == [] then []
    else
      var prev := Dedup(circles[..|circles| - 1]);
      var c := circles[|circles| - 1];
      if Covered(prev, c) then prev else prev + [c]
  }

  /**
   * No two kept circles have close centres, and every input circle has a
   * kept circle whose centre is close to its own.
   */
  lemma {:induction false} DedupSeparatesAndCovers(circles: seq<Circle>)
    ensures var kept := Dedup(circles);
      && (forall i, j :: 0 <= i < j < |kept| ==> !Close(Center(kept[i]), Center(kept[j])))
      && (forall i :: 0 <= i < |circles| ==> Covered(kept, circles[i]))
    decreases |circles|
  {
    if circles != [] {
      var init := circles[..|circles| - 1];
      var prev := Dedup(init);
      var c := circles[|circles| - 1];
      DedupSeparatesAndCovers(init);
      assert forall i :: 0 <= i < |circles| - 1 ==> circles[i] == init[i];
      if !Covered(prev, c) {
        var kept := prev + [c];
        assert Close(Center(kept[|prev|]), Center(c));
        forall i | 0 <= i < |circles| - 1 ensures Covered(kept, circles[i]) {
          assert Covered(prev, init[i]);
          var k :| 0 <= k < |prev| && Close(Center(prev[k]), Center(circles[i]));
          assert kept[k] == prev[k];
        }
      }
    }
  }

  /** `a` is `b` with some elements left out, the rest in order. */
  predicate Subsequence<T(==)>(a: seq<T>, b: seq<T>)
    decreases |b|
  {
    a == [] || (b != [] &&
      if a[|a| - 1] == b[|b| - 1] then Subsequence(a[..|a| - 1], b[..|b| - 1])
      else Subsequence(a, b[..|b| - 1]))
  }

  lemma {:induction false} SubsequenceDropLast<T>(a: seq<T>, b: seq<T>)
    requires a != [] && Subsequence(a, b)
    ensures Subsequence(a[..|a| - 1], b)
    decreases |b|, 0
  {
    var a' := a[..|a| - 1];
    if a' != [] {
      if a[|a| - 1] == b[|b| - 1] {
        SubsequenceExtend(a', b[..|b| - 1], b[|b| - 1]);
        assert b[..|b| - 1] + [b[|b| - 1]] == b;
      } else {
        SubsequenceDropLast(a, b[..|b| - 1]);
        SubsequenceExtend(a', b[..|b| - 1], b[|b| - 1]);
        assert b[..|b| - 1] + [b[|b| - 1]] == b;
      }
    }
  }

  lemma {:induction false} SubsequenceExtend<T>(a: seq<T>, b: seq<T>, x: T)
    requires Subsequence(a, b)
    ensures Subsequence(a, b + [x])
    decreases |b|, 1
  {
    assert (b + [x])[..|b|] == b;
    if a != [] && a[|a| - 1] == x {
      SubsequenceDropLast(a, b);
    }
  }

  /** De-duplication keeps the input order: the kept circles are a subsequence of the input. */
  lemma {:induction false} DedupOrder(circles: seq<Circle>)
    ensures Subsequence(Dedup(circles), circles)
    decreases |circles|
  {
    if circles != [] {
      var init := circles[..|circles| - 1];
      var c := circles[|circles| - 1];
      var prev := Dedup(init);
      DedupOrder(init);
      assert init + [c] == circles;
      if Covered(prev, c) {
        SubsequenceExtend(prev, init, c);
      } else {
        assert (prev + [c])[..|prev|] == prev;
      }
    }
  }

  /** The removal loop over the selected circles, with the list of used centres. */
  method Deduplicate(circles: seq<Circle>) returns (filtered: seq<Circle>)
    ensures filtered == Dedup(circles)
  {
    filtered := [];
    var usedCenters: seq<(int, int)> := [];
    var i := 0;
    while i < |circles|
      invariant 0 <= i <= |circles|
      invariant filtered == Dedup(circles[..i])
      invariant |usedCenters| == |filtered| && forall k :: 0 <= k < |filtered| ==> usedCenters[k] == Center(filtered[k])
    {
      var circle := circles[i];
      var isDuplicate := NearUsedCenter(usedCenters, RoundPx(circle.x), RoundPx(circle.y));
      CoveredByCenters(filtered, usedCenters, circle);
      DedupStep(circles, i);
      if !isDuplicate {
        filtered := filtered + [circle];
        usedCenters := usedCenters + [(RoundPx(circle.x), RoundPx(circle.y))];
      }
      i := i + 1;
    }
    assert circles[..i] == circles;
  }

  /** The inner loop: is the centre within 10 px, along both axes, of a centre already used? */
  method NearUsedCenter(usedCenters: seq<(int, int)>, x: int, y: int) returns (isDuplicate: bool)
    ensures isDuplicate <==> exists k :: 0 <= k < |usedCenters| && Close(usedCenters[k], (x, y))
  {
    isDuplicate := false;
    var j := 0;
    while j < |usedCenters|
      invariant 0 <= j <= |usedCenters|
      invariant isDuplicate <==> exists k :: 0 <= k < j && Close(usedCenters[k], (x, y))
    {
      if -10 < x - usedCenters[j].0 < 10 && -10 < y - usedCenters[j].1 < 10 {
        isDuplicate := true;
        break;
      }
      j := j + 1;
    }
  }

  lemma CoveredByCenters(kept: seq<Circle>, centers: seq<(int, int)>, c: Circle)
    requires |centers| == |kept| && forall k :: 0 <= k < |kept| ==> centers[k] == Center(kept[k])
    ensures Covered(kept, c) <==> exists k :: 0 <= k < |centers| && Close(centers[k], Center(c))
  {
  }

  lemma DedupStep(circles: seq<Circle>, i: nat)
    requires i < |circles|
    ensures Dedup(circles[..i + 1])
         == if Covered(Dedup(circles[..i]), circles[i]) then Dedup(circles[..i]) else Dedup(circles[..i]) + [circles[i]]
  {
    assert circles[..i + 1][..i] == circles[..i];
  }

  /** The largest contour of the thresholded ball region, as OpenCV measures it. */
  datatype Contour = Contour(
    area: real, perimeter: real, points: nat, ellipseWidth: real, ellipseHeight: real, hullArea: real)

  /** OpenCV's statistics of a candidate's square region. */
  datatype Measurement = Measurement(
    meanBrightness: real, stdDev: real, largestContour: Option<Contour>, edgeStrength: real)

  /** M_PI to the precision of a double. */
  const PI: real := 3.141592653589793

  /** The uniformity score: 1 - min(std/100, 0.5). */
  function Uniformity(stdDev: real): (u: real)
    ensures u >= 0.5
    ensures stdDev >= 0.0 ==> u <= 1.0
  {
    1.0 - MinR(stdDev / 100.0, 0.5)
  }

  function Circularity(c: Contour): real
    requires c.perimeter != 0.0
  {
    (4.0 * PI * c.area) / (c.perimeter * c.perimeter)
  }

  /**
   * A candidate with rounded centre (x, y) and radius r in a cols x rows
   * frame: None when a gate rejects it (outside the frame, empty region,
   * too dark, no contour, not circular, too few contour points, a
   * degenerate or elongated ellipse, not solid, not uniform, weak edges,
   * implausible size), else its weighted score.
   */
  function CandidateScore(x: int, y: int, r: int, m: Measurement, cols: int, rows: int): (score: Option<real>)
    ensures score.Some? ==>
      0 <= x - r && x + r < cols && 0 <= y - r && y + r < rows && 15 <= r <= 150
      && m.meanBrightness >= 85.0 && m.largestContour.Some? && m.largestContour.value.perimeter != 0.0
      && Circularity(m.largestContour.value) >= 0.75 && MinR(m.edgeStrength / 50.0, 1.0) >= 0.1
  {
    if x - r < 0 || x + r >= cols then None
    else if y - r < 0 || y + r >= rows then None
    else if r <= 0 then None
    else if m.meanBrightness < 85.0 then None
    else if m.largestContour.None? then None
    else
      var c := m.largestContour.value;
      if c.perimeter == 0.0 then None
      else
        var circularity := Circularity(c);
        if circularity < 0.75 then None
        else if c.points < 5 then None
        else if c.ellipseWidth <= 0.0 || c.ellipseHeight <= 0.0 then None
        else if MinR(c.ellipseWidth, c.ellipseHeight) / MaxR(c.ellipseWidth, c.ellipseHeight) < 0.85 then None
        else if c.hullArea <= 0.0 then None
        else if c.area / c.hullArea < 0.90 then None
        else
          var uniformity := Uniformity(m.stdDev);
          if uniformity < 0.5 then None
          else
            var edgeScore := MinR(m.edgeStrength / 50.0, 1.0);
            if edgeScore < 0.1 then None
            else if r < 15 || r > 150 then None
            else Some((circularity * 0.4 + (m.meanBrightness / 255.0) * 0.3 + uniformity * 0.2 + edgeScore * 0.1) * 100.0)
  }

  /**
   * Every candidate that passes the gates scores at least 51 (30 for
   * circularity, 10 for brightness, 10 for uniformity, 1 for edges), so
   * the final "better than 40" test never rejects one.
   */
  lemma AcceptedScoreAtLeast51(x: int, y: int, r: int, m: Measurement, cols: int, rows: int)
    requires CandidateScore(x, y, r, m, cols, rows).Some?
    ensures CandidateScore(x, y, r, m, cols, rows).value >= 51.0
  {
    var c := m.largestContour.value;
    var circularity := Circularity(c);
    var uniformity := Uniformity(m.stdDev);
    var edgeScore := MinR(m.edgeStrength / 50.0, 1.0);
    assert circularity * 0.4 >= 0.3;
    assert (m.meanBrightness / 255.0) * 0.3 >= 0.1;
    assert uniformity * 0.2 >= 0.1;
    assert edgeScore * 0.1 >= 0.01;
  }

  /** The candidate's score after rounding its centre and radius. */
  function ScoreOf(c: Circle, m: Measurement, cols: int, rows: int): Option<real> {
    CandidateScore(RoundPx(c.x), RoundPx(c.y), RoundPx(c.r), m, cols, rows)
  }

  /**
   * The running best over the scores in order: the index of the first
   * strictly highest positive score and that score, or -1 and 0.
   */
  function Pick(scores: seq<Option<real>>): (best: (int, real))
    ensures -1 <= best.0 < |scores| && best.1 >= 0.0
    ensures best.0 == -1 <==> forall i :: 0 <= i < |scores| ==> scores[i].None? || scores[i].value <= 0.0
    ensures best.0 == -1 ==> best.1 == 0.0
    ensures best.0 >= 0 ==> scores[best.0] == Some(best.1)
    ensures forall i :: 0 <= i < |scores| && scores[i].Some? ==> scores[i].value <= best.1
    ensures best.0 >= 0 ==> forall i :: 0 <= i < best.0 && scores[i].Some? ==> scores[i].value < best.1
    decreases |scores|
  {
    if scores == [] then (-1, 0.0)
    else
      var prev := Pick(scores[..|scores| - 1]);
      var last := scores[|scores| - 1];
      assert forall i :: 0 <= i < |scores| - 1 ==> scores[i] == scores[..|scores| - 1][i];
      if last.Some? && last.value > prev.1 then (|scores| - 1, last.value) else prev
  }

  function Scores(circles: seq<Circle>, measure: Circle -> Measurement, cols: int, rows: int): (s: seq<Option<real>>)
    ensures |s| == |circles|
    ensures forall i :: 0 <= i < |circles| ==> s[i] == ScoreOf(circles[i], measure(circles[i]), cols, rows)
  {
    seq(|circles|, i requires 0 <= i < |circles| => ScoreOf(circles[i], measure(circles[i]), cols, rows))
  }

  function Rounded(c: Circle): (int, int, int) {
    (RoundPx(c.x), RoundPx(c.y), RoundPx(c.r))
  }

  /** The detector's answer for the de-duplicated circles: the best candidate if it scores above 40. */
  function Best(circles: seq<Circle>, measure: Circle -> Measurement, cols: int, rows: int): (b: Option<(int, int, int)>)
    ensures b.Some? ==>
      exists i :: 0 <= i < |circles| && b.value == Rounded(circles[i])
        && ScoreOf(circles[i], measure(circles[i]), cols, rows).Some?
        && ScoreOf(circles[i], measure(circles[i]), cols, rows).value > 40.0
  {
    var p := Pick(Scores(circles, measure, cols, rows));
    if p.0 >= 0 && p.1 > 40.0 then Some(Rounded(circles[p.0])) else None
  }

  /**
   * A ball is reported exactly when some candidate passes every gate; it
   * is the first of the highest-scoring ones, and it lies inside the frame.
   */
  lemma BestReported(circles: seq<Circle>, measure: Circle -> Measurement, cols: int, rows: int)
    ensures var scores := Scores(circles, measure, cols, rows);
      var b := Best(circles, measure, cols, rows);
      (b.Some? <==> exists i :: 0 <= i < |circles| && scores[i].Some?)
      && (b.Some? ==> var p := Pick(scores);
            b.value == Rounded(circles[p.0])
            && 0 <= b.value.0 - b.value.2 && b.value.0 + b.value.2 < cols
            && 0 <= b.value.1 - b.value.2 && b.value.1 + b.value.2 < rows)
  {
    var scores := Scores(circles, measure, cols, rows);
    var p := Pick(scores);
    if i :| 0 <= i < |circles| && scores[i].Some? {
      var c := circles[i];
      AcceptedScoreAtLeast51(RoundPx(c.x), RoundPx(c.y), RoundPx(c.r), measure(c), cols, rows);
      assert p.1 >= 51.0;
    }
  }

  /** The scoring loop over the de-duplicated circles, tracking the best so far. */
  method ChooseBest(circles: seq<Circle>, measure: Circle -> Measurement, cols: int, rows: int)
    returns (ball: Option<(int, int, int)>)
    ensures ball == Best(circles, measure, cols, rows)
  {
    ghost var scores := Scores(circles, measure, cols, rows);
    var bestX, bestY, bestR := -1, -1, -1;
    var bestScore := 0.0;
    ghost var bestIndex := -1;
    var i := 0;
    while i < |circles|
      invariant 0 <= i <= |circles|
      invariant (bestIndex, bestScore) == Pick(scores[..i])
      invariant bestIndex == -1 ==> bestX == -1
      invariant bestIndex >= 0 ==> (bestX, bestY, bestR) == Rounded(circles[bestIndex]) && bestX >= 15
    {
      var circle := circles[i];
      var x, y, r := RoundPx(circle.x), RoundPx(circle.y), RoundPx(circle.r);
      var score := CandidateScore(x, y, r, measure(circle), cols, rows);
      assert scores[..i + 1][..i] == scores[..i];
      if score.Some? && score.value > bestScore {
        bestScore := score.value;
        bestX, bestY, bestR := x, y, r;
        bestIndex := i;
      }
      i := i + 1;
    }
    assert scores[..i] == scores;
    if bestX >= 0 && bestScore > 40.0 {
      return Some((bestX, bestY, bestR));
    }
    return None;
  }

  /**
   * detect_ball after the image filters: the shape check, the schedule over
   * the Hough results, the de-duplication and the scoring, on a frame of
   * shape (rows, cols, ...).
   */
  function DetectBallSpec(shape: seq<int>, attempts: seq<seq<Circle>>, measure: Circle -> Measurement)
    : Result<Option<(int, int, int)>>
  {
    match FrameFormat(shape)
    case Failure(e) => Failure(e)
    case Success(_) => Success(Best(Dedup(Selected(attempts)), measure, shape[1], shape[0]))
  }

  method DetectBall(shape: seq<int>, attempts: seq<seq<Circle>>, measure: Circle -> Measurement)
    returns (result: Result<Option<(int, int, int)>>)
    ensures result == DetectBallSpec(shape, attempts, measure)
  {
    var format := FrameFormat(shape);
    if format.Failure? {
      return Failure(format.error);
    }
    var rows, cols := shape[0], shape[1];
    var allCircles, _ := SelectCircles(attempts);
    var filtered: seq<Circle> := [];
    if allCircles != [] {
      filtered := Deduplicate(allCircles);
    }
    var ball := ChooseBest(filtered, measure, cols, rows);
    return Success(ball);
  }

  /** The positions of a history that are present, in order. */
  function Present(history: seq<Option<(int, int)>>): (ps: seq<(int, int)>)
    ensures |ps| <= |history|
    ensures forall p :: p in ps <==> Some(p) in history
    decreases |history|
  {
    if history == [] then []
    else
      var prev := Present(history[..|history| - 1]);
      assert forall o :: o in history <==> o in history[..|history| - 1] || o == history[|history| - 1];
      match history[|history| - 1]
      case None => prev
      case Some(p) => prev + [p]
  }

  /** The summed step lengths of a path; `dist` is the C++ sqrt of dx*dx + dy*dy. */
  function PathLength(ps: seq<(int, int)>, dist: (int, int) -> real): real
    decreases |ps|
  {
    if |ps| < 2 then 0.0
    else
      var a, b := ps[|ps| - 2], ps[|ps| - 1];
      PathLength(ps[..|ps| - 1], dist) + dist(b.0 - a.0, b.1 - a.1)
  }

  /** calculate_velocity: 0 for fewer than two positions, else the mean step length. */
  function Velocity(history: seq<Option<(int, int)>>, dist: (int, int) -> real): (v: real)
    ensures |Present(history)| < 2 ==> v == 0.0
    ensures (forall dx, dy :: dist(dx, dy) >= 0.0) ==> v >= 0.0
  {
    var ps := Present(history);
    if |history| < 2 || |ps| < 2 then 0.0
    else
      assert (forall dx, dy :: dist(dx, dy) >= 0.0) ==> PathLength(ps, dist) >= 0.0 by {
        if forall dx, dy :: dist(dx, dy) >= 0.0 {
          VelocityBounds(ps, dist);
        }
      }
      PathLength(ps, dist) / (|ps| - 1) as real
  }

  /**
   * With a non-negative step length the velocity is never negative, and a
   * ball that never moved (all present positions equal, a zero step
   * having length 0) has velocity 0.
   */
  lemma {:induction false} VelocityBounds(ps: seq<(int, int)>, dist: (int, int) -> real)
    requires forall dx, dy :: dist(dx, dy) >= 0.0
    ensures PathLength(ps, dist) >= 0.0
    ensures dist(0, 0) == 0.0 && (forall i :: 0 <= i < |ps| ==> ps[i] == ps[0]) ==> PathLength(ps, dist) == 0.0
    decreases |ps|
  {
    if |ps| >= 2 {
      VelocityBounds(ps[..|ps| - 1], dist);
    }
  }

  /** The two loops of calculate_velocity: collecting the present positions, then summing the steps. */
  method CalculateVelocity(history: seq<Option<(int, int)>>, dist: (int, int) -> real) returns (v: real)
    ensures v == Velocity(history, dist)
  {
    if |history| < 2 {
      return 0.0;
    }
    var positions: seq<(int, int)> := [];
    var i := 0;
    while i < |history|
      invariant 0 <= i <= |history|
      invariant positions == Present(history[..i])
    {
      assert history[..i + 1][..i] == history[..i];
      if history[i].Some? {
        positions := positions + [history[i].value];
      }
      i := i + 1;
    }
    assert history[..i] == history;
    if |positions| < 2 {
      return 0.0;
    }
    var total := 0.0;
    var k := 1;
    while k < |positions|
      invariant 1 <= k <= |positions|
      invariant total == PathLength(positions[..k], dist)
    {
      var dx := positions[k].0 - positions[k - 1].0;
      var dy := positions[k].1 - positions[k - 1].1;
      assert positions[..k + 1][..k] == positions[..k];
      total := total + dist(dx, dy);
      k := k + 1;
    }
    assert positions[..k] == positions;
    return total / (|positions| - 1) as real;
  }
}
