/**
 * The ball detector's bookkeeping around OpenCV's detections: a history
 * of accepted detections, newest first and at most 50 deep; the linear
 * prediction of the next position; the smoothing of a new detection with
 * the three latest ones; the confidence adjustment against the prediction;
 * and the choice among the three detection methods. The detections
 * themselves, and the Euclidean norm, are inputs.
 */
module BallDetector {
  import opened Numbers
  import opened Geometry
  import FastDetection

  datatype Detection = Detection(center: Point2, radius: real, confidence: real, timestamp: int)

  /** The empty detection: radius and confidence 0. */
  const NO_DETECTION := Detection(Point2(0.0, 0.0), 0.0, 0.0, 0)

  const MAX_HISTORY: nat := 50
  const MAX_EXPECTED_MOVEMENT: real := 50.0

  /** addToHistory: the detection goes to the front; beyond 50 the oldest is dropped. */
  function Pushed(h: seq<Detection>, d: Detection): (r: seq<Detection>)
    ensures |h| <= MAX_HISTORY ==> |r| <= MAX_HISTORY
    ensures |r| == (if |h| + 1 > MAX_HISTORY then |h| else |h| + 1)
    ensures r[0] == d && r[1..] == h[..|r| - 1]
  {
    var pushed := [d] + h;
    if |pushed| > MAX_HISTORY then pushed[..|pushed| - 1] else pushed
  }

  /** predictNextPosition: nothing known gives (0,0); one position stays put; else the last step repeats. */
  function Predict(h: seq<Detection>): (p: Point2)
    ensures h == [] ==> p == Point2(0.0, 0.0)
    ensures |h| == 1 ==> p == h[0].center
    ensures |h| >= 2 ==>
      p.x - h[0].center.x == h[0].center.x - h[1].center.x && p.y - h[0].center.y == h[0].center.y - h[1].center.y
  {
    if |h| < 2 then (if h == [] then Point2(0.0, 0.0) else h[0].center)
    else
      var v := Point2(h[0].center.x - h[1].center.x, h[0].center.y - h[1].center.y);
      Point2(h[0].center.x + v.x, h[0].center.y + v.y)
  }

  /**
   * After a new detection the prediction extrapolates the step from the
   * previous newest detection to it; a ball seen twice at the same place is
   * predicted to stay there.
   */
  lemma PredictAfterPush(h: seq<Detection>, d: Detection)
    requires h != []
    ensures var p := Predict(Pushed(h, d));
      p == Point2(2.0 * d.center.x - h[0].center.x, 2.0 * d.center.y - h[0].center.y)
      && (d.center == h[0].center ==> p == d.center)
  {
    var r := Pushed(h, d);
    assert r[1] == r[1..][0] == h[0];
  }

  /** isValidBallCandidate: the centre inside the frame and the radius within the configured range. */
  predicate ValidCandidate(center: Point2, radius: real, minRadius: int, maxRadius: int, cols: int, rows: int) {
    0.0 <= center.x < cols as real && 0.0 <= center.y < rows as real
    && minRadius as real <= radius <= maxRadius as real
  }

  /**
   * calculateConfidence: 0 for an invalid candidate; otherwise the
   * detection's confidence, blended with its consistency with the
   * prediction when within 50 px of it and halved when farther, capped at
   * 1. `norm` is the Euclidean length of a vector.
   */
  function Confidence(d: Detection, h: seq<Detection>, minRadius: int, maxRadius: int, cols: int, rows: int,
                      norm: (real, real) -> real): (c: real)
    ensures !ValidCandidate(d.center, d.radius, minRadius, maxRadius, cols, rows) ==> c == 0.0
    ensures c <= 1.0
    ensures h == [] && ValidCandidate(d.center, d.radius, minRadius, maxRadius, cols, rows) ==> c == MinR(d.confidence, 1.0)
    ensures var p := Predict(h);
      d.confidence >= 0.0 && norm(d.center.x - p.x, d.center.y - p.y) >= 0.0 ==> c >= 0.0
  {
    if !ValidCandidate(d.center, d.radius, minRadius, maxRadius, cols, rows) then 0.0
    else
      var confidence :=
        if h == [] then d.confidence
        else
          var predicted := Predict(h);
          var distance := norm(d.center.x - predicted.x, d.center.y - predicted.y);
          if distance < MAX_EXPECTED_MOVEMENT then
            var consistency := 1.0 - distance / MAX_EXPECTED_MOVEMENT;
            0.7 * d.confidence + 0.3 * consistency
          else d.confidence * 0.5;
      MinR(confidence, 1.0)
  }

  /** A detection that moves exactly as predicted keeps at least its confidence. */
  lemma OnPredictionKeepsConfidence(d: Detection, h: seq<Detection>, minRadius: int, maxRadius: int,
                                    cols: int, rows: int, norm: (real, real) -> real)
    requires h != [] && ValidCandidate(d.center, d.radius, minRadius, maxRadius, cols, rows)
    requires 0.0 <= d.confidence <= 1.0
    requires var p := Predict(h); norm(d.center.x - p.x, d.center.y - p.y) == 0.0
    ensures Confidence(d, h, minRadius, maxRadius, cols, rows, norm) >= d.confidence
  {
  }

  /**
   * calculateCircularity: 4*pi*area/perimeter^2 capped at 1, and 0 for a
   * degenerate contour whose perimeter is under 0.01.
   */
  function ContourCircularity(area: real, perimeter: real): (c: real)
    ensures c <= 1.0
    ensures perimeter < 0.01 ==> c == 0.0
    ensures area >= 0.0 ==> c >= 0.0
    ensures perimeter >= 0.01 && c < 1.0 ==> c * perimeter * perimeter == 4.0 * FastDetection.PI * area
  {
    if perimeter < 0.01 then 0.0
    else MinR((4.0 * FastDetection.PI * area) / (perimeter * perimeter), 1.0)
  }

  /** detectAuto: the highest confidence, ties going to Hough, then blob, then contours. */
  function DetectAuto(hough: Detection, blob: Detection, contour: Detection): (best: Detection)
    ensures best == hough || best == blob || best == contour
    ensures best.confidence >= hough.confidence && best.confidence >= blob.confidence
      && best.confidence >= contour.confidence
    ensures best == hough <== hough.confidence >= blob.confidence && hough.confidence >= contour.confidence
    ensures best != hough ==> best.confidence > hough.confidence
    ensures best != hough && best != blob ==> contour.confidence > blob.confidence
  {
    if hough.confidence >= blob.confidence && hough.confidence >= contour.confidence then hough
    else if blob.confidence >= contour.confidence then blob
    else contour
  }

  /** detectBall: an empty frame gives the empty detection; otherwise the configured method, "auto" for any other name. */
  function DetectBall(frameEmpty: bool, methodName: string, hough: Detection, blob: Detection, contour: Detection): (d: Detection)
    ensures frameEmpty ==> d == NO_DETECTION
    ensures !frameEmpty && methodName !in {"hough", "blob", "contour"} ==> d == DetectAuto(hough, blob, contour)
    ensures !frameEmpty && methodName == "blob" ==> d == blob
  {
    if frameEmpty then NO_DETECTION
    else if methodName == "hough" then hough
    else if methodName == "blob" then blob
    else if methodName == "contour" then contour
    else DetectAuto(hough, blob, contour)
  }

  /** The sum of the first k values, the i-th weighted 1/(i+2). */
  function WeightedSum(vs: seq<real>, k: nat): real
    requires k <= |vs|
  {
    if k == 0 then 0.0 else WeightedSum(vs, k - 1) + vs[k - 1] * Weight(k)
  }

  /** The weight of the k-th history entry (counting from 1): 1/(k+1). */
  function Weight(k: nat): (w: real)
    ensures w > 0.0
  {
    1.0 / (k + 1) as real
  }

  /** 1 plus the weights of the first k history entries. */
  function TotalWeight(k: nat): (t: real)
    ensures t >= 1.0
  {
    if k == 0 then 1.0 else TotalWeight(k - 1) + Weight(k)
  }

  /** One coordinate of the smoothed centre: the new value weighted 1, the i-th latest 1/(i+2). */
  function Smoothed(v: real, vs: seq<real>, k: nat): real
    requires k <= |vs|
  {
    (v + WeightedSum(vs, k)) / TotalWeight(k)
  }

  lemma ScaleLe(a: real, b: real, c: real)
    requires a <= b && c >= 0.0
    ensures a * c <= b * c
  {
  }

  /** A weighted sum of values between lo and hi lies between lo and hi times the history's total weight. */
  lemma WeightedSumBounds(vs: seq<real>, k: nat, lo: real, hi: real)
    requires k <= |vs| && forall i :: 0 <= i < k ==> lo <= vs[i] <= hi
    ensures lo * (TotalWeight(k) - 1.0) <= WeightedSum(vs, k) <= hi * (TotalWeight(k) - 1.0)
  {
    WeightedSumAbove(vs, k, lo);
    WeightedSumBelow(vs, k, hi);
  }

  lemma {:induction false} WeightedSumAbove(vs: seq<real>, k: nat, lo: real)
    requires k <= |vs| && forall i :: 0 <= i < k ==> lo <= vs[i]
    ensures lo * (TotalWeight(k) - 1.0) <= WeightedSum(vs, k)
  {
    if k > 0 {
      WeightedSumAbove(vs, k - 1, lo);
      LowerStep(WeightedSum(vs, k - 1), TotalWeight(k - 1) - 1.0, vs[k - 1], Weight(k), lo,
                WeightedSum(vs, k), TotalWeight(k) - 1.0);
    }
  }

  lemma {:induction false} WeightedSumBelow(vs: seq<real>, k: nat, hi: real)
    requires k <= |vs| && forall i :: 0 <= i < k ==> vs[i] <= hi
    ensures WeightedSum(vs, k) <= hi * (TotalWeight(k) - 1.0)
  {
    if k > 0 {
      WeightedSumBelow(vs, k - 1, hi);
      UpperStep(WeightedSum(vs, k - 1), TotalWeight(k - 1) - 1.0, vs[k - 1], Weight(k), hi,
                WeightedSum(vs, k), TotalWeight(k) - 1.0);
    }
  }

  /** Adding a value of at least lo with weight w >= 0 keeps a weighted sum at least lo times the total weight. */
  lemma LowerStep(s0: real, t0: real, v: real, w: real, lo: real, s: real, t: real)
    requires lo * t0 <= s0 && lo <= v && w >= 0.0 && s == s0 + v * w && t == t0 + w
    ensures lo * t <= s
  {
    ScaleLe(lo, v, w);
    assert lo * (t0 + w) == lo * t0 + lo * w;
  }

  lemma UpperStep(s0: real, t0: real, v: real, w: real, hi: real, s: real, t: real)
    requires s0 <= hi * t0 && v <= hi && w >= 0.0 && s == s0 + v * w && t == t0 + w
    ensures s <= hi * t
  {
    ScaleLe(v, hi, w);
    assert hi * (t0 + w) == hi * t0 + hi * w;
  }

  lemma QuotientBetween(s: real, t: real, lo: real, hi: real)
    requires t > 0.0 && lo * t <= s <= hi * t
    ensures lo <= s / t <= hi
  {
    var q := s / t;
    assert q * t == s;
    if q < lo {
      ScaleLe(q, lo, t);
      assert false;
    }
    if q > hi {
      ScaleLe(hi, q, t);
      assert false;
    }
  }

  lemma MeanBetween(v: real, sum: real, t: real, lo: real, hi: real)
    requires t >= 1.0 && lo <= v <= hi && lo * (t - 1.0) <= sum <= hi * (t - 1.0)
    ensures lo <= (v + sum) / t <= hi
  {
    var t1 := t - 1.0;
    assert lo * t == lo * t1 + lo by { assert t == t1 + 1.0; }
    assert hi * t == hi * t1 + hi by { assert t == t1 + 1.0; }
    QuotientBetween(v + sum, t, lo, hi);
  }

  /** The smoothed value is a weighted mean: it lies between the least and the greatest value used. */
  lemma SmoothedBetween(v: real, vs: seq<real>, k: nat, lo: real, hi: real)
    requires k <= |vs| && lo <= v <= hi && forall i :: 0 <= i < k ==> lo <= vs[i] <= hi
    ensures lo <= Smoothed(v, vs, k) <= hi
  {
    WeightedSumBounds(vs, k, lo, hi);
    MeanBetween(v, WeightedSum(vs, k), TotalWeight(k), lo, hi);
  }

  function Xs(h: seq<Detection>): (xs: seq<real>)
    ensures |xs| == |h| && forall i :: 0 <= i < |h| ==> xs[i] == h[i].center.x
  {
    seq(|h|, i requires 0 <= i < |h| => h[i].center.x)
  }

  function Ys(h: seq<Detection>): (ys: seq<real>)
    ensures |ys| == |h| && forall i :: 0 <= i < |h| ==> ys[i] == h[i].center.y
  {
    seq(|h|, i requires 0 <= i < |h| => h[i].center.y)
  }

  /** filterWithHistory: with a history, the centre is smoothed with the (up to) three latest ones. */
  function Filtered(d: Detection, h: seq<Detection>): (f: Detection)
    ensures f == d.(center := f.center)
    ensures h == [] ==> f == d
  {
    if h == [] then d
    else
      var k := Min(3, |h|);
      d.(center := Point2(Smoothed(d.center.x, Xs(h), k), Smoothed(d.center.y, Ys(h), k)))
  }

  /**
   * Smoothing only moves the centre, and only within the box spanned by the
   * new centre and the three latest ones; without a history it changes
   * nothing.
   */
  lemma FilteredInBox(d: Detection, h: seq<Detection>, lo: Point2, hi: Point2)
    requires lo.x <= d.center.x <= hi.x && lo.y <= d.center.y <= hi.y
    requires forall i :: 0 <= i < |h| && i < 3 ==> lo.x <= h[i].center.x <= hi.x && lo.y <= h[i].center.y <= hi.y
    ensures var f := Filtered(d, h);
      f.radius == d.radius && f.confidence == d.confidence && f.timestamp == d.timestamp
      && lo.x <= f.center.x <= hi.x && lo.y <= f.center.y <= hi.y
  {
    if h != [] {
      var k := Min(3, |h|);
      SmoothedBetween(d.center.x, Xs(h), k, lo.x, hi.x);
      SmoothedBetween(d.center.y, Ys(h), k, lo.y, hi.y);
    }
  }

  class BallDetector {
    var detectionHistory: seq<Detection>
    var minBallRadius: int
    var maxBallRadius: int
    var circularityThreshold: real
    var detectionMethod: string

    constructor ()
      ensures detectionHistory == [] && minBallRadius == 4 && maxBallRadius == 15
      ensures circularityThreshold == 0.7 && detectionMethod == "auto"
    {
      detectionHistory := [];
      minBallRadius, maxBallRadius := 4, 15;
      circularityThreshold := 0.7;
      detectionMethod := "auto";
    }

    /** setMinBallRadius: reports whether the value changed. */
    method SetMinBallRadius(radius: int) returns (changed: bool)
      modifies this
      ensures changed <==> old(minBallRadius) != radius
      ensures minBallRadius == radius && maxBallRadius == old(maxBallRadius)
      ensures detectionHistory == old(detectionHistory) && circularityThreshold == old(circularityThreshold)
      ensures detectionMethod == old(detectionMethod)
    {
      changed := minBallRadius != radius;
      minBallRadius := radius;
    }

    /** setMaxBallRadius: reports whether the value changed. */
    method SetMaxBallRadius(radius: int) returns (changed: bool)
      modifies this
      ensures changed <==> old(maxBallRadius) != radius
      ensures maxBallRadius == radius && minBallRadius == old(minBallRadius)
      ensures detectionHistory == old(detectionHistory) && circularityThreshold == old(circularityThreshold)
      ensures detectionMethod == old(detectionMethod)
    {
      changed := maxBallRadius != radius;
      maxBallRadius := radius;
    }

    /** addToHistory. */
    method AddToHistory(d: Detection)
      modifies this
      ensures detectionHistory == Pushed(old(detectionHistory), d)
      ensures minBallRadius == old(minBallRadius) && maxBallRadius == old(maxBallRadius)
      ensures circularityThreshold == old(circularityThreshold) && detectionMethod == old(detectionMethod)
    {
      detectionHistory := [d] + detectionHistory;
      if |detectionHistory| > MAX_HISTORY {
        detectionHistory := detectionHistory[..|detectionHistory| - 1];
      }
    }

    /** getRecentDetections: the min(count, size) newest detections, newest first. */
    method GetRecentDetections(count: int) returns (result: seq<Detection>)
      ensures result == detectionHistory[..Max(0, Min(count, |detectionHistory|))]
    {
      result := [];
      var n := Min(count, |detectionHistory|);
      var i := 0;
      while i < n
        invariant 0 <= i <= Max(0, n)
        invariant result == detectionHistory[..i]
      {
        result := result + [detectionHistory[i]];
        i := i + 1;
      }
    }

    /** filterWithHistory: the weighted-mean loop over the (up to) three latest detections. */
    method FilterWithHistory(d: Detection) returns (filtered: Detection)
      ensures filtered == Filtered(d, detectionHistory)
    {
      var h := detectionHistory;
      if h == [] {
        return d;
      }
      var totalWeight := 1.0;
      var cx, cy := d.center.x, d.center.y;
      var count := Min(3, |h|);
      var i := 0;
      while i < count
        invariant 0 <= i <= count
        invariant totalWeight == TotalWeight(i)
        invariant cx == d.center.x + WeightedSum(Xs(h), i) && cy == d.center.y + WeightedSum(Ys(h), i)
      {
        var weight := Weight(i + 1);
        assert WeightedSum(Xs(h), i + 1) == WeightedSum(Xs(h), i) + h[i].center.x * weight;
        assert WeightedSum(Ys(h), i + 1) == WeightedSum(Ys(h), i) + h[i].center.y * weight;
        cx := cx + h[i].center.x * weight;
        cy := cy + h[i].center.y * weight;
        totalWeight := totalWeight + weight;
        i := i + 1;
      }
      filtered := d.(center := Point2(cx / totalWeight, cy / totalWeight));
    }

    /**
     * detectBallWithBackground, given the detection on the foreground, which
     * already carries the frame's timestamp: with background subtraction on
     * and a background captured, a detection with a positive radius enters
     * the history.
     */
    method DetectBallWithBackground(detection: Detection, subtracting: bool)
      modifies this
      ensures detectionHistory == if subtracting && detection.radius > 0.0 then Pushed(old(detectionHistory), detection)
                                  else old(detectionHistory)
      ensures minBallRadius == old(minBallRadius) && maxBallRadius == old(maxBallRadius)
      ensures circularityThreshold == old(circularityThreshold) && detectionMethod == old(detectionMethod)
    {
      if subtracting && detection.radius > 0.0 {
        AddToHistory(detection);
      }
    }

    /**
     * trackBall, given the detection of the frame. `subtracting` says that
     * background subtraction is on and a background has been captured; the
     * detection on the foreground then enters the history as soon as its
     * radius is positive, before the tracking test. A tracked detection is
     * smoothed against that history and pushed as well.
     */
    method TrackBall(detection: Detection, subtracting: bool) returns (tracked: bool)
      modifies this
      ensures tracked <==> detection.radius > 0.0 && detection.confidence > 0.5
      ensures var seen := if subtracting && detection.radius > 0.0 then Pushed(old(detectionHistory), detection)
                          else old(detectionHistory);
        detectionHistory == (if tracked then Pushed(seen, Filtered(detection, seen)) else seen)
      ensures minBallRadius == old(minBallRadius) && maxBallRadius == old(maxBallRadius)
      ensures circularityThreshold == old(circularityThreshold) && detectionMethod == old(detectionMethod)
    {
      DetectBallWithBackground(detection, subtracting);
      if detection.radius > 0.0 && detection.confidence > 0.5 {
        var filtered := FilterWithHistory(detection);
        AddToHistory(filtered);
        return true;
      }
      return false;
    }

    /** reset. */
    method Reset()
      modifies this
      ensures detectionHistory == []
      ensures minBallRadius == old(minBallRadius) && maxBallRadius == old(maxBallRadius)
      ensures circularityThreshold == old(circularityThreshold) && detectionMethod == old(detectionMethod)
    {
      detectionHistory := [];
    }
  }
}
