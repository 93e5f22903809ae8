/**
  Serve analysis: ball-candidate filtering and deduplication, the frame-by-frame
  trajectory tracker, and the metrics computed from a finished trajectory.

  The image processing that produces contours (background subtraction, morphology,
  the HSV colour mask, findContours and moments) is not modelled: each frame comes
  in as the two contour lists OpenCV would return, each contour with its area, its
  zeroth moment and its integer centroid.
*/
module ServeAnalysis {
  import opened Wrappers
  import HU = HomographyUtils

  /** An integer pixel position. */
  datatype Point = Point(x: int, y: int)

  /** Squared Euclidean distance; comparing it is comparing the distance itself. */
  function Dist2(a: Point, b: Point): int {
    (a.x - b.x) * (a.x - b.x) + (a.y - b.y) * (a.y - b.y)
  }

  lemma Dist2Symmetric(a: Point, b: Point)
    ensures Dist2(a, b) == Dist2(b, a)
  {
    assert (a.x - b.x) * (a.x - b.x) == (b.x - a.x) * (b.x - a.x);
    assert (a.y - b.y) * (a.y - b.y) == (b.y - a.y) * (b.y - a.y);
  }

  /** Candidates closer than 20 px are duplicates: distance < 20 is squared distance < 400. */
  const DedupRadiusSquared: int := 400

  predicate TooClose(a: Point, b: Point) {
    Dist2(a, b) < DedupRadiusSquared
  }

  // ---------------------------------------------------------------------------
  // Ball candidates
  // ---------------------------------------------------------------------------

  /** A contour as OpenCV reports it: its area, its zeroth moment and its integer centroid. */
  datatype Contour = Contour(area: real, m00: real, centroid: Point)

  /** The two contour lists of one frame: motion (foreground mask) and colour (yellow mask). */
  datatype FrameContours = FrameContours(motion: seq<Contour>, colour: seq<Contour>)

  /** Ball-sized means an area strictly between 20 and 300; a centroid needs a positive mass. */
  predicate IsBallSized(c: Contour) {
    20.0 < c.area < 300.0 && c.m00 > 0.0
  }

  /** The centroids of the ball-sized contours, in contour order. */
  function BallCentroids(contours: seq<Contour>): seq<Point> {
    if contours == [] then []
    else
      var last := contours[|contours| - 1];
      BallCentroids(contours[..|contours| - 1]) + (if IsBallSized(last) then [last.centroid] else [])
  }

  /** A centroid is kept exactly when it belongs to a ball-sized contour. */
  lemma {:induction false} BallCentroidsExact(contours: seq<Contour>)
    ensures forall p :: p in BallCentroids(contours) <==> exists c :: c in contours && IsBallSized(c) && c.centroid == p
  {
    if contours != [] {
      var init := contours[..|contours| - 1];
      BallCentroidsExact(init);
      assert contours == init + [contours[|contours| - 1]];
    }
  }

  /** Filtering commutes with concatenation, so contour order is preserved. */
  lemma {:induction false} BallCentroidsAppend(a: seq<Contour>, b: seq<Contour>)
    ensures BallCentroids(a + b) == BallCentroids(a) + BallCentroids(b)
  {
    if b == [] {
      assert a + b == a;
    } else {
      var b' := b[..|b| - 1];
      assert (a + b)[..|a + b| - 1] == a + b';
      assert (a + b)[|a + b| - 1] == b[|b| - 1];
      BallCentroidsAppend(a, b');
    }
  }

  /** One of the two contour loops of `detect_ball_candidates`. */
  method CentroidsOf(contours: seq<Contour>) returns (centroids: seq<Point>)
    ensures centroids == BallCentroids(contours)
  {
    centroids := [];
    var i := 0;
    while i < |contours|
      invariant 0 <= i <= |contours|
      invariant centroids == BallCentroids(contours[..i])
    {
      assert contours[..i + 1][..i] == contours[..i];
      var c := contours[i];
      if 20.0 < c.area < 300.0 && c.m00 > 0.0 {
        centroids := centroids + [c.centroid];
      }
      i := i + 1;
    }
    assert contours[..i] == contours;
  }

  /** `p` is at least 20 px from every point of `kept`. */
  predicate FarFromAll(p: Point, kept: seq<Point>) {
    forall k :: 0 <= k < |kept| ==> !TooClose(p, kept[k])
  }

  /** The greedy deduplication: a candidate is kept if it is far from all candidates kept before it. */
  function Dedup(candidates: seq<Point>): seq<Point> {
    if candidates == [] then []
    else
      var kept := Dedup(candidates[..|candidates| - 1]);
      var c := candidates[|candidates| - 1];
      if FarFromAll(c, kept) then kept + [c] else kept
  }

  /** No two points are closer than 20 px. */
  predicate Separated(ps: seq<Point>) {
    forall i, j :: 0 <= i < |ps| && 0 <= j < |ps| && i != j ==> !TooClose(ps[i], ps[j])
  }

  /** `sub` is `s` at the strictly increasing positions `idx`. */
  predicate SubsequenceAt(sub: seq<Point>, s: seq<Point>, idx: seq<nat>) {
    && |idx| == |sub|
    && (forall i :: 0 <= i < |idx| ==> idx[i] < |s| && sub[i] == s[idx[i]])
    && (forall i, j :: 0 <= i < j < |idx| ==> idx[i] < idx[j])
  }

  /** After deduplication every pair of retained candidates is at least 20 px apart. */
  lemma {:induction false} DedupSeparated(candidates: seq<Point>)
    ensures Separated(Dedup(candidates))
  {
    if candidates != [] {
      var kept := Dedup(candidates[..|candidates| - 1]);
      var c := candidates[|candidates| - 1];
      DedupSeparated(candidates[..|candidates| - 1]);
      if FarFromAll(c, kept) {
        var r := kept + [c];
        forall i, j | 0 <= i < |r| && 0 <= j < |r| && i != j ensures !TooClose(r[i], r[j]) {
          if i == |kept| {
            assert !TooClose(c, kept[j]);
          } else if j == |kept| {
            assert !TooClose(c, kept[i]);
            Dist2Symmetric(c, kept[i]);
          } else {
            assert r[i] == kept[i] && r[j] == kept[j];
          }
        }
      }
    }
  }

  /** Deduplication keeps an order-preserving subsequence of its input. */
  lemma {:induction false} DedupSubsequence(candidates: seq<Point>) returns (idx: seq<nat>)
    ensures SubsequenceAt(Dedup(candidates), candidates, idx)
  {
    if candidates == [] {
      idx := [];
    } else {
      var n := |candidates| - 1;
      var init := candidates[..n];
      var prev := DedupSubsequence(init);
      if FarFromAll(candidates[n], Dedup(init)) {
        idx := prev + [n];
      } else {
        idx := prev;
      }
    }
  }

  /** A non-empty input always keeps its first candidate, in first position. */
  lemma {:induction false} DedupKeepsFirst(candidates: seq<Point>)
    requires |candidates| > 0
    ensures |Dedup(candidates)| > 0 && Dedup(candidates)[0] == candidates[0]
  {
    var n := |candidates| - 1;
    if n > 0 {
      DedupKeepsFirst(candidates[..n]);
      assert candidates[..n][0] == candidates[0];
    }
  }

  /** Nothing is dropped without cause: every candidate is within 20 px of a retained one (itself if kept). */
  lemma {:induction false} DedupCovers(candidates: seq<Point>)
    ensures forall c :: c in candidates ==> exists k :: k in Dedup(candidates) && TooClose(c, k)
  {
    if candidates != [] {
      var n := |candidates| - 1;
      var init := candidates[..n];
      DedupCovers(init);
      var kept := Dedup(init);
      var c := candidates[n];
      assert candidates == init + [c];
      assert forall k :: k in kept ==> k in Dedup(candidates);
      if !FarFromAll(c, kept) {
        var j :| 0 <= j < |kept| && TooClose(c, kept[j]);
        assert kept[j] in Dedup(candidates);
      } else {
        assert TooClose(c, c);
        assert c in Dedup(candidates);
      }
    }
  }

  /** The nested loop of `detect_ball_candidates` that removes near-duplicates. */
  method DedupCandidates(candidates: seq<Point>) returns (filtered: seq<Point>)
    ensures filtered == Dedup(candidates)
  {
    filtered := [];
    var i := 0;
    while i < |candidates|
      invariant 0 <= i <= |candidates|
      invariant filtered == Dedup(candidates[..i])
    {
      assert candidates[..i + 1][..i] == candidates[..i];
      var candidate := candidates[i];
      var isDuplicate := false;
      var j := 0;
      while j < |filtered|
        invariant 0 <= j <= |filtered|
        invariant !isDuplicate
        invariant forall k :: 0 <= k < j ==> !TooClose(candidate, filtered[k])
      {
        if Dist2(candidate, filtered[j]) < DedupRadiusSquared {
          isDuplicate := true;
          break;
        }
        j := j + 1;
      }
      assert isDuplicate <==> !FarFromAll(candidate, filtered);
      if !isDuplicate {
        filtered := filtered + [candidate];
      }
      i := i + 1;
    }
    assert candidates[..i] == candidates;
  }

  /** `detect_ball_candidates` from the frame's contours: motion centroids, then colour centroids, deduplicated. */
  method DetectBallCandidates(frame: FrameContours) returns (candidates: seq<Point>)
    ensures candidates == FrameCandidates(frame)
    ensures Separated(candidates)
  {
    var motion := CentroidsOf(frame.motion);
    var colour := CentroidsOf(frame.colour);
    candidates := DedupCandidates(motion + colour);
    DedupSeparated(motion + colour);
  }

  function FrameCandidates(frame: FrameContours): seq<Point> {
    Dedup(BallCentroids(frame.motion) + BallCentroids(frame.colour))
  }

  // ---------------------------------------------------------------------------
  // Trajectory tracking
  // ---------------------------------------------------------------------------

  /** One entry of the trajectory under construction; `Missing` is the source's `None`. */
  datatype Slot = Missing | At(p: Point)

  /** The candidate `min(candidates, key=distance to last)` returns: the first one at the least distance. */
  function NearestIndex(candidates: seq<Point>, last: Point): (k: nat)
    requires |candidates| > 0
    ensures k < |candidates|
    ensures forall j :: 0 <= j < |candidates| ==> Dist2(candidates[k], last) <= Dist2(candidates[j], last)
    ensures forall j :: 0 <= j < k ==> Dist2(candidates[j], last) > Dist2(candidates[k], last)
  {
    if |candidates| == 1 then 0
    else
      var k := NearestIndex(candidates[..|candidates| - 1], last);
      if Dist2(candidates[|candidates| - 1], last) < Dist2(candidates[k], last) then |candidates| - 1 else k
  }

  /** Constant-velocity continuation: last + (last - secondLast) per coordinate. */
  function Extrapolate(last: Point, secondLast: Point): (p: Point)
    ensures p.x - last.x == last.x - secondLast.x && p.y - last.y == last.y - secondLast.y
  {
    Point(last.x + (last.x - secondLast.x), last.y + (last.y - secondLast.y))
  }

  /**
    One frame of `track_ball_trajectory`. None stands for the TypeError the source
    raises when it reads a coordinate of a `None` entry.
  */
  function TrackStep(trajectory: seq<Slot>, candidates: seq<Point>): Option<seq<Slot>> {
    if candidates != [] then
      if trajectory != [] then
        match trajectory[|trajectory| - 1]
        case Missing => None
        case At(last) => Some(trajectory + [At(candidates[NearestIndex(candidates, last)])])
      else Some([At(candidates[0])])
    else if |trajectory| >= 2 then
      match (trajectory[|trajectory| - 1], trajectory[|trajectory| - 2])
      case (At(last), At(secondLast)) => Some(trajectory + [At(Extrapolate(last, secondLast))])
      case _ => None
    else if |trajectory| == 1 then Some(trajectory + [trajectory[0]])
    else Some([Missing])
  }

  /** The trajectory with its `None` entries, after the given frames. */
  function TrackSlots(frames: seq<seq<Point>>): Option<seq<Slot>> {
    if frames == [] then Some([])
    else
      match TrackSlots(frames[..|frames| - 1])
      case None => None
      case Some(t) => TrackStep(t, frames[|frames| - 1])
  }

  /** `[pos for pos in trajectory if pos is not None]`. */
  function Positions(slots: seq<Slot>): seq<Point> {
    if slots == [] then []
    else
      Positions(slots[..|slots| - 1])
      + (match slots[|slots| - 1] case Missing => [] case At(p) => [p])
  }

  /** The finished trajectory for the per-frame candidate lists, or None when the source raises. */
  function Track(frames: seq<seq<Point>>): Option<seq<Point>> {
    match TrackSlots(frames)
    case None => None
    case Some(t) => Some(Positions(t))
  }

  function CandidatesPerFrame(frames: seq<FrameContours>): (r: seq<seq<Point>>)
    ensures |r| == |frames|
    ensures forall i :: 0 <= i < |frames| ==> r[i] == FrameCandidates(frames[i])
  {
    seq(|frames|, i requires 0 <= i < |frames| => FrameCandidates(frames[i]))
  }

  /** One more frame is one more `TrackStep`. */
  lemma TrackSlotsSnoc(frames: seq<seq<Point>>, i: nat)
    requires i < |frames|
    ensures TrackSlots(frames[..i + 1]) == match TrackSlots(frames[..i]) case None => None case Some(t) => TrackStep(t, frames[i])
  {
    assert frames[..i + 1][..i] == frames[..i];
  }

  /** The body of the tracker's frame loop: append the nearest candidate, or extrapolate, or repeat. */
  method TrackFrame(trajectory: seq<Slot>, candidates: seq<Point>) returns (next: Option<seq<Slot>>)
    ensures next == TrackStep(trajectory, candidates)
    ensures next.Some? ==> |next.value| == |trajectory| + 1 && next.value[..|trajectory|] == trajectory
  {
    var n := |trajectory|;
    if candidates != [] {
      if trajectory != [] {
        if trajectory[n - 1].Missing? {
          return None;
        }
        var last := trajectory[n - 1].p;
        var best := candidates[NearestIndex(candidates, last)];
        next := Some(trajectory + [At(best)]);
      } else {
        next := Some(trajectory + [At(candidates[0])]);
        assert next.value == [At(candidates[0])];
      }
    } else {
      if n >= 2 {
        if trajectory[n - 1].Missing? || trajectory[n - 2].Missing? {
          return None;
        }
        var last := trajectory[n - 1].p;
        var secondLast := trajectory[n - 2].p;
        var predicted := Point(last.x + (last.x - secondLast.x), last.y + (last.y - secondLast.y));
        assert predicted == Extrapolate(last, secondLast);
        next := Some(trajectory + [At(predicted)]);
      } else if n == 1 {
        next := Some(trajectory + [trajectory[n - 1]]);
      } else {
        next := Some(trajectory + [Missing]);
        assert next.value == [Missing];
      }
    }
  }

  /** `track_ball_trajectory`: the frames are consumed in order; None when the source would raise. */
  method TrackBallTrajectory(frames: seq<FrameContours>) returns (r: Option<seq<Point>>)
    ensures r == Track(CandidatesPerFrame(frames))
  {
    ghost var perFrame := CandidatesPerFrame(frames);
    var trajectory: seq<Slot> := [];
    var i := 0;
    while i < |frames|
      invariant 0 <= i <= |frames|
      invariant TrackSlots(perFrame[..i]) == Some(trajectory)
    {
      var candidates := DetectBallCandidates(frames[i]);
      TrackSlotsSnoc(perFrame, i);
      var next := TrackFrame(trajectory, candidates);
      if next.None? {
        CrashPersists(perFrame, i + 1);
        return None;
      }
      trajectory := next.value;
      i := i + 1;
    }
    assert perFrame[..i] == perFrame;
    r := Some(Positions(trajectory));
  }

  /** The frame sequences on which the source's tracker does not raise. */
  predicate TrackerTotalOn(frames: seq<seq<Point>>) {
    || frames == []
    || frames[0] != []
    || (|frames| <= 2 && forall i :: 0 <= i < |frames| ==> frames[i] == [])
  }

  predicate AllAt(slots: seq<Slot>) {
    forall i :: 0 <= i < |slots| ==> slots[i].At?
  }

  lemma {:induction false} PositionsOfAllAt(slots: seq<Slot>)
    requires AllAt(slots)
    ensures |Positions(slots)| == |slots|
    ensures forall i :: 0 <= i < |slots| ==> Positions(slots)[i] == slots[i].p
  {
    if slots != [] {
      PositionsOfAllAt(slots[..|slots| - 1]);
    }
  }

  /** Once the first frame has a candidate, every frame adds exactly one position and none is missing. */
  lemma {:induction false} TrackFromFirstDetection(frames: seq<seq<Point>>)
    requires |frames| > 0 && frames[0] != []
    ensures TrackSlots(frames).Some?
    ensures |TrackSlots(frames).value| == |frames| && AllAt(TrackSlots(frames).value)
  {
    var n := |frames| - 1;
    if n == 0 {
      assert frames[..0] == [];
    } else {
      var init := frames[..n];
      assert init[0] == frames[0];
      TrackFromFirstDetection(init);
      var t := TrackSlots(init).value;
      assert t[|t| - 1].At?;
      assert |t| >= 2 ==> t[|t| - 2].At?;
    }
  }

  /** The finished trajectory then has exactly one point per frame. */
  lemma TrackLengthFromFirstDetection(frames: seq<seq<Point>>)
    requires |frames| > 0 && frames[0] != []
    ensures Track(frames).Some? && |Track(frames).value| == |frames|
  {
    TrackFromFirstDetection(frames);
    PositionsOfAllAt(TrackSlots(frames).value);
  }

  lemma {:induction false} CrashPersists(frames: seq<seq<Point>>, k: nat)
    requires k <= |frames| && TrackSlots(frames[..k]).None?
    ensures TrackSlots(frames).None?
  {
    if k < |frames| {
      var n := |frames| - 1;
      assert frames[..n][..k] == frames[..k];
      CrashPersists(frames[..n], k);
    } else {
      assert frames[..k] == frames;
    }
  }

  /** The tracker is total exactly on `TrackerTotalOn`: elsewhere it dereferences a `None` entry. */
  lemma TrackTotality(frames: seq<seq<Point>>)
    ensures TrackSlots(frames).Some? <==> TrackerTotalOn(frames)
  {
    if frames == [] {
    } else if frames[0] != [] {
      TrackFromFirstDetection(frames);
    } else {
      assert frames[..0] == [];
      TrackSlotsSnoc(frames, 0);
      assert TrackSlots(frames[..1]) == Some([Missing]);
      if |frames| == 1 {
        assert frames[..1] == frames;
      } else {
        TrackSlotsSnoc(frames, 1);
        if frames[1] != [] {
          assert TrackSlots(frames[..2]).None?;
          CrashPersists(frames, 2);
        } else {
          assert [Missing] + [Missing] == [Missing, Missing];
          assert TrackSlots(frames[..2]) == Some([Missing, Missing]);
          if |frames| == 2 {
            assert frames[..2] == frames;
          } else {
            TrackSlotsSnoc(frames, 2);
            assert TrackSlots(frames[..3]).None?;
            CrashPersists(frames, 3);
          }
        }
      }
    }
  }

  /** When the trajectory has a last point and the frame has candidates, the nearest (earliest on ties) is appended. */
  lemma StepPicksNearest(trajectory: seq<Slot>, candidates: seq<Point>)
    requires candidates != [] && trajectory != [] && trajectory[|trajectory| - 1].At?
    ensures var last := trajectory[|trajectory| - 1].p;
            var r := TrackStep(trajectory, candidates);
            && r.Some? && |r.value| == |trajectory| + 1 && r.value[..|trajectory|] == trajectory
            && exists k :: 0 <= k < |candidates| && r.value[|trajectory|] == At(candidates[k])
                        && (forall j :: 0 <= j < |candidates| ==> Dist2(candidates[k], last) <= Dist2(candidates[j], last))
                        && (forall j :: 0 <= j < k ==> Dist2(candidates[j], last) > Dist2(candidates[k], last))
  {
    var last := trajectory[|trajectory| - 1].p;
    var k := NearestIndex(candidates, last);
    assert TrackStep(trajectory, candidates).value[|trajectory|] == At(candidates[k]);
  }

  /**
    The scenario of a ball seen at (100,100) and (110,90) and then lost for a frame:
    the tracker continues at constant velocity to (120,80).
  */
  lemma ExtrapolationScenario()
    ensures Track([[Point(100, 100)], [Point(110, 90)], []]) == Some([Point(100, 100), Point(110, 90), Point(120, 80)])
  {
    var frames := [[Point(100, 100)], [Point(110, 90)], []];
    assert frames[..0] == [];
    TrackSlotsSnoc(frames, 0);
    var t1 := [At(Point(100, 100))];
    assert TrackSlots(frames[..1]) == Some(t1);
    TrackSlotsSnoc(frames, 1);
    assert NearestIndex([Point(110, 90)], Point(100, 100)) == 0;
    var t2 := t1 + [At(Point(110, 90))];
    assert TrackSlots(frames[..2]) == Some(t2);
    TrackSlotsSnoc(frames, 2);
    assert frames[..3] == frames;
    var t := t2 + [At(Point(120, 80))];
    assert TrackStep(t2, []) == Some(t);
    assert TrackSlots(frames) == Some(t);
    PositionsOfAllAt(t);
    assert Positions(t) == [Point(100, 100), Point(110, 90), Point(120, 80)];
  }

  // ---------------------------------------------------------------------------
  // Serve metrics
  // ---------------------------------------------------------------------------

  datatype Direction = Right | Left | Unknown

  datatype ServeMetrics = ServeMetrics(
    ballSpeedKmh: real,
    tossHeightPixels: int,
    contactFrame: int,
    serveDirection: Direction,
    trajectoryLength: nat,
    totalTimeSeconds: real,
    tossPeakFrame: nat,
    trajectorySmoothness: real)

  datatype MetricsError = InsufficientData

  /** The toss is looked for among the first 20 trajectory points. */
  const TossWindow: int := 20

  /** `k` is the first index of the least y (highest on screen) among the first 20 points. */
  predicate IsTossPeak(trajectory: seq<Point>, k: nat) {
    && k < Min(|trajectory|, TossWindow)
    && (forall i :: 0 <= i < Min(|trajectory|, TossWindow) ==> trajectory[k].y <= trajectory[i].y)
    && (forall i :: 0 <= i < k ==> trajectory[i].y > trajectory[k].y)
  }

  /** The toss-peak loop of `analyze_serve_metrics`. */
  method FindTossPeak(trajectory: seq<Point>) returns (peak: nat, minY: int)
    requires |trajectory| > 0
    ensures IsTossPeak(trajectory, peak) && minY == trajectory[peak].y
  {
    peak := 0;
    minY := trajectory[0].y;
    var i := 0;
    while i < Min(|trajectory|, TossWindow)
      invariant 0 <= i <= Min(|trajectory|, TossWindow)
      invariant peak < Min(|trajectory|, TossWindow) && minY == trajectory[peak].y
      invariant forall j :: 0 <= j < i ==> minY <= trajectory[j].y
      invariant forall j :: 0 <= j < peak ==> trajectory[j].y > minY
    {
      if trajectory[i].y < minY {
        minY := trajectory[i].y;
        peak := i;
      }
      i := i + 1;
    }
  }

  /** The toss peak is determined by the trajectory, and the toss height it gives is never negative. */
  lemma TossPeakUnique(trajectory: seq<Point>, a: nat, b: nat)
    requires IsTossPeak(trajectory, a) && IsTossPeak(trajectory, b)
    ensures a == b
    ensures trajectory[0].y - trajectory[a].y >= 0
  {
  }

  /** Serve direction: only trajectories longer than 10 points get one; right iff the ball ends further right. */
  function DirectionOf(trajectory: seq<Point>): (d: Direction)
    ensures d == Unknown <==> |trajectory| <= 10
    ensures d == Right <==> |trajectory| > 10 && trajectory[|trajectory| - 1].x > trajectory[0].x
  {
    if |trajectory| > 10 then
      if trajectory[|trajectory| - 1].x > trajectory[0].x then Right else Left
    else Unknown
  }

  /** `timestamps = [i / fps for i in range(n)]`. */
  function Timestamps(n: nat, fps: real): (ts: seq<real>)
    requires fps != 0.0
    ensures |ts| == n && forall i :: 0 <= i < n ==> ts[i] == i as real / fps
    ensures n > 0 ==> ts[0] == 0.0
    ensures fps > 0.0 ==> forall i :: 0 < i < n ==> ts[i - 1] < ts[i] && ts[i] - ts[i - 1] == 1.0 / fps
  {
    seq(n, i requires 0 <= i < n => i as real / fps)
  }

  /** At a positive frame rate every step has positive duration, so k steps take k / fps seconds in total. */
  lemma {:induction false} TimestampsTotalTime(n: nat, fps: real, k: nat)
    requires fps > 0.0 && k < n
    ensures HU.TotalTime(Timestamps(n, fps), k) == k as real / fps
  {
    if k > 0 {
      TimestampsTotalTime(n, fps, k - 1);
      var ts := Timestamps(n, fps);
      assert ts[k] - ts[k - 1] > 0.0;
      assert (k - 1) as real / fps + 1.0 / fps == k as real / fps;
    }
  }

  function ToReal(trajectory: seq<Point>): (r: seq<HU.RealPoint>)
    ensures |r| == |trajectory|
  {
    seq(|trajectory|, i requires 0 <= i < |trajectory| => HU.RealPoint(trajectory[i].x as real, trajectory[i].y as real))
  }

  /** Metres per pixel of the uncalibrated speed estimate. */
  const MetresPerPixel: real := 0.05

  /**
    The uncalibrated speed: the pixel distance between points 5 and min(15, n - 1),
    at 0.05 m per pixel, over the time between those frames, in km/h; 0 for 10 points or fewer.
  */
  function PixelSpeedKmh(trajectory: seq<Point>, fps: real, sqrt: real -> real): real
    requires fps != 0.0
  {
    if |trajectory| > 10 then
      var endIdx := Min(15, |trajectory| - 1);
      var pixelDistance := sqrt(Dist2(trajectory[endIdx], trajectory[5]) as real);
      var timeDiff := endIdx as real / fps - 5 as real / fps;
      (if timeDiff > 0.0 then pixelDistance * MetresPerPixel / timeDiff else 0.0) * 3.6
    else 0.0
  }

  /** The speed the metrics report: through the homography when calibrated, otherwise the pixel estimate. */
  function BallSpeedKmh(trajectory: seq<Point>, fps: real, homography: Option<HU.Homography>,
                        project: HU.Projection, sqrt: real -> real): real
    requires fps != 0.0 && |trajectory| >= 2
  {
    match homography
    case Some(h) => HU.CourtSpeedKmh(HU.ProjectAll(h, ToReal(trajectory), project), Timestamps(|trajectory|, fps), sqrt)
    case None => PixelSpeedKmh(trajectory, fps, sqrt)
  }

  /** Whatever the calibration, the reported speed is never negative. */
  lemma BallSpeedNonNegative(trajectory: seq<Point>, fps: real, homography: Option<HU.Homography>,
                             project: HU.Projection, sqrt: real -> real)
    requires fps != 0.0 && |trajectory| >= 2 && HU.NonNegativeRoot(sqrt)
    ensures BallSpeedKmh(trajectory, fps, homography, project, sqrt) >= 0.0
  {
    match homography
    case Some(h) =>
      HU.CourtSpeedNonNegative(HU.ProjectAll(h, ToReal(trajectory), project), Timestamps(|trajectory|, fps), sqrt);
    case None =>
      if |trajectory| > 10 {
        var endIdx := Min(15, |trajectory| - 1);
        var d2 := Dist2(trajectory[endIdx], trajectory[5]);
        assert d2 >= 0;
        assert sqrt(d2 as real) >= 0.0;
      }
  }

  /** A "direction change": both step vectors non-zero and the angle between them above 45 degrees. */
  predicate IsDirectionChange(a: Point, b: Point, c: Point) {
    var v1x, v1y := b.x - a.x, b.y - a.y;
    var v2x, v2y := c.x - b.x, c.y - b.y;
    TurnsSharply(v1x, v1y, v2x, v2y)
  }

  /**
    For non-zero vectors, angle > 45 degrees iff cos < 1/sqrt(2): either the dot
    product is not positive, or twice its square is below the product of the squared norms.
  */
  predicate TurnsSharply(v1x: int, v1y: int, v2x: int, v2y: int) {
    var dot := v1x * v2x + v1y * v2y;
    var n1 := v1x * v1x + v1y * v1y;
    var n2 := v2x * v2x + v2y * v2y;
    n1 > 0 && n2 > 0 && (dot <= 0 || 2 * (dot * dot) < n1 * n2)
  }

  lemma HalfRatioReal(x: real, y: real)
    requires y > 0.0
    ensures 2.0 * x < y <==> x / y < 0.5
  {
    var q := x / y;
    assert x == q * y;
    if q < 0.5 {
      assert q * y < 0.5 * y;
    } else {
      assert q * y >= 0.5 * y;
    }
  }

  lemma HalfRatio(d: int, m: int)
    requires m > 0
    ensures 2 * d < m <==> d as real / m as real < 0.5
  {
    HalfRatioReal(d as real, m as real);
    assert (2 * d) as real == 2.0 * d as real;
  }

  /** The integer test is the cosine test: cos <= 0, or cos^2 = dot^2 / (n1 n2) below 1/2. */
  lemma TurnsSharplyIsCosineTest(v1x: int, v1y: int, v2x: int, v2y: int)
    requires v1x * v1x + v1y * v1y > 0 && v2x * v2x + v2y * v2y > 0
    ensures var dot := v1x * v2x + v1y * v2y;
            var norms := (v1x * v1x + v1y * v1y) * (v2x * v2x + v2y * v2y);
            TurnsSharply(v1x, v1y, v2x, v2y) <==> dot <= 0 || (dot * dot) as real / norms as real < 0.5
  {
    var dot := v1x * v2x + v1y * v2y;
    var n1, n2 := v1x * v1x + v1y * v1y, v2x * v2x + v2y * v2y;
    ProductPositive(n1, n2);
    HalfRatio(dot * dot, n1 * n2);
  }

  lemma ProductPositive(a: int, b: int)
    requires a > 0 && b > 0
    ensures a * b > 0
  {
  }

  /** The number of direction changes among the triples ending before index n. */
  function DirectionChanges(trajectory: seq<Point>, n: nat): nat
    requires n <= |trajectory|
  {
    if n < 3 then 0
    else DirectionChanges(trajectory, n - 1)
         + (if IsDirectionChange(trajectory[n - 3], trajectory[n - 2], trajectory[n - 1]) then 1 else 0)
  }

  /** `calculate_trajectory_smoothness` before rounding: 0 below 3 points, else 1 - changes / (n - 2). */
  function Smoothness(trajectory: seq<Point>): real {
    if |trajectory| < 3 then 0.0
    else
      var maxChanges := |trajectory| - 2;
      if maxChanges > 0 then 1.0 - DirectionChanges(trajectory, |trajectory|) as real / maxChanges as real
      else 1.0
  }

  lemma {:induction false} DirectionChangesBound(trajectory: seq<Point>, n: nat)
    requires 2 <= n <= |trajectory|
    ensures DirectionChanges(trajectory, n) <= n - 2
  {
    if n > 2 {
      DirectionChangesBound(trajectory, n - 1);
    }
  }

  /** The smoothness score lies in [0, 1]; from 3 points on it is 1 - c / (n - 2) with 0 <= c <= n - 2. */
  lemma SmoothnessInUnitInterval(trajectory: seq<Point>)
    ensures 0.0 <= Smoothness(trajectory) <= 1.0
    ensures |trajectory| >= 3 ==>
              var c := DirectionChanges(trajectory, |trajectory|);
              c <= |trajectory| - 2 && Smoothness(trajectory) == 1.0 - c as real / (|trajectory| - 2) as real
  {
    if |trajectory| >= 3 {
      var c := DirectionChanges(trajectory, |trajectory|);
      var m := |trajectory| - 2;
      DirectionChangesBound(trajectory, |trajectory|);
      assert c as real <= m as real;
      assert c as real / m as real <= 1.0;
    }
  }

  /** A triple with a zero step vector is never counted. */
  lemma RepeatedPointIsNoChange(a: Point, b: Point, c: Point)
    requires a == b || b == c
    ensures !IsDirectionChange(a, b, c)
  {
  }

  /** Points with equal consecutive steps (collinear, constant step) */
  predicate ConstantStep(trajectory: seq<Point>) {
    forall i :: 0 < i < |trajectory| - 1 ==>
      trajectory[i + 1].x - trajectory[i].x == trajectory[i].x - trajectory[i - 1].x &&
      trajectory[i + 1].y - trajectory[i].y == trajectory[i].y - trajectory[i - 1].y
  }

  lemma {:induction false} ConstantStepNoChanges(trajectory: seq<Point>, n: nat)
    requires n <= |trajectory| && ConstantStep(trajectory)
    ensures DirectionChanges(trajectory, n) == 0
  {
    if n >= 3 {
      ConstantStepNoChanges(trajectory, n - 1);
      var a, b, c := trajectory[n - 3], trajectory[n - 2], trajectory[n - 1];
      var vx, vy := b.x - a.x, b.y - a.y;
      assert c.x - b.x == vx && c.y - b.y == vy;
      var s := vx * vx + vy * vy;
      assert 2 * s * s >= s * s;
    }
  }

  /** A straight trajectory with a constant step scores 1.0. */
  lemma StraightLineIsSmooth(trajectory: seq<Point>)
    requires |trajectory| >= 3 && ConstantStep(trajectory)
    ensures Smoothness(trajectory) == 1.0
  {
    ConstantStepNoChanges(trajectory, |trajectory|);
  }

  /** Consecutive steps are non-zero and perpendicular: a zig-zag of right angles. */
  predicate RightAngleZigZag(trajectory: seq<Point>) {
    forall i :: 2 <= i < |trajectory| ==>
      var v1x, v1y := trajectory[i - 1].x - trajectory[i - 2].x, trajectory[i - 1].y - trajectory[i - 2].y;
      var v2x, v2y := trajectory[i].x - trajectory[i - 1].x, trajectory[i].y - trajectory[i - 1].y;
      (v1x != 0 || v1y != 0) && (v2x != 0 || v2y != 0) && v1x * v2x + v1y * v2y == 0
  }

  lemma {:induction false} ZigZagAllChanges(trajectory: seq<Point>, n: nat)
    requires 2 <= n <= |trajectory| && RightAngleZigZag(trajectory)
    ensures DirectionChanges(trajectory, n) == n - 2
  {
    if n >= 3 {
      ZigZagAllChanges(trajectory, n - 1);
      var a, b, c := trajectory[n - 3], trajectory[n - 2], trajectory[n - 1];
      var v1x, v1y := b.x - a.x, b.y - a.y;
      var v2x, v2y := c.x - b.x, c.y - b.y;
      assert v1x * v1x + v1y * v1y > 0 by {
        if v1x != 0 { assert v1x * v1x > 0; } else { assert v1y * v1y > 0; }
      }
      assert v2x * v2x + v2y * v2y > 0 by {
        if v2x != 0 { assert v2x * v2x > 0; } else { assert v2y * v2y > 0; }
      }
      assert IsDirectionChange(a, b, c);
    }
  }

  /** A right-angle zig-zag scores 0, well below 0.5. */
  lemma ZigZagIsRough(trajectory: seq<Point>)
    requires |trajectory| >= 3 && RightAngleZigZag(trajectory)
    ensures Smoothness(trajectory) == 0.0
  {
    ZigZagAllChanges(trajectory, |trajectory|);
    EveryTripleTurns(trajectory);
  }

  lemma EveryTripleTurns(trajectory: seq<Point>)
    requires |trajectory| >= 3 && DirectionChanges(trajectory, |trajectory|) == |trajectory| - 2
    ensures Smoothness(trajectory) == 0.0
  {
    var c := DirectionChanges(trajectory, |trajectory|);
    var m := |trajectory| - 2;
    DivSelf(m as real);
    assert c as real / m as real == 1.0;
  }

  /** The smoothness loop: counts the sharp direction changes over the consecutive triples. */
  method CalculateTrajectorySmoothness(trajectory: seq<Point>) returns (smoothness: real)
    ensures smoothness == Smoothness(trajectory)
    ensures 0.0 <= smoothness <= 1.0
  {
    SmoothnessInUnitInterval(trajectory);
    if |trajectory| < 3 {
      return 0.0;
    }
    var directionChanges := 0;
    var i := 2;
    while i < |trajectory|
      invariant 2 <= i <= |trajectory|
      invariant directionChanges == DirectionChanges(trajectory, i)
    {
      var v1x, v1y := trajectory[i - 1].x - trajectory[i - 2].x, trajectory[i - 1].y - trajectory[i - 2].y;
      var v2x, v2y := trajectory[i].x - trajectory[i - 1].x, trajectory[i].y - trajectory[i - 1].y;
      var dot := v1x * v2x + v1y * v2y;
      var mag1, mag2 := v1x * v1x + v1y * v1y, v2x * v2x + v2y * v2y;
      if mag1 > 0 && mag2 > 0 {
        if dot <= 0 || 2 * (dot * dot) < mag1 * mag2 {
          directionChanges := directionChanges + 1;
        }
      }
      i := i + 1;
    }
    var maxChanges := |trajectory| - 2;
    smoothness := if maxChanges > 0 then 1.0 - directionChanges as real / maxChanges as real else 1.0;
  }

  /** Metrics need at least three trajectory points. */
  const MinTrajectoryLength: int := 3

  class ServeAnalyzer {
    const calibrator: HU.CourtCalibrator

    constructor ()
      ensures fresh(calibrator) && calibrator.homography.None? && calibrator.courtCorners.None?
      ensures calibrator.courtPoints == HU.CourtPoints
    {
      calibrator := new HU.CourtCalibrator();
    }

    /** `calibrate_court_from_frame`: always the demonstration corners, so this always succeeds. */
    method CalibrateCourtFromFrame(height: int, width: int) returns (ok: bool)
      modifies calibrator
      ensures ok && calibrator.courtCorners == Some(HU.ManualCalibrationPoints(width, height))
      ensures calibrator.homography == Some(HU.PerspectiveTransform(HU.ManualCalibrationPoints(width, height), calibrator.courtPoints))
      ensures calibrator.courtPoints == old(calibrator.courtPoints)
    {
      var corners := HU.ManualCalibrationPoints(width, height);
      ok := calibrator.CalibrateCourt(None, height, width, Some(corners));
    }

    /**
      `analyze_serve_metrics`: insufficient data below three points; otherwise the
      toss peak, toss height, contact frame, speed, direction and smoothness.
    */
    method AnalyzeServeMetrics(trajectory: seq<Point>, fps: real, project: HU.Projection, sqrt: real -> real)
      returns (r: Result<ServeMetrics, MetricsError>)
      requires |trajectory| >= MinTrajectoryLength ==> fps != 0.0
      ensures r.Failure? <==> |trajectory| < MinTrajectoryLength
      ensures r.Failure? ==> r.error == InsufficientData
      ensures r.Success? ==>
                var m := r.value;
                && IsTossPeak(trajectory, m.tossPeakFrame)
                && m.tossHeightPixels == trajectory[0].y - trajectory[m.tossPeakFrame].y
                && m.tossHeightPixels >= 0
                && m.contactFrame == m.tossPeakFrame + 3
                && m.ballSpeedKmh == BallSpeedKmh(trajectory, fps, calibrator.homography, project, sqrt)
                && m.serveDirection == DirectionOf(trajectory)
                && m.trajectoryLength == |trajectory|
                && m.totalTimeSeconds == (|trajectory| - 1) as real / fps
                && m.trajectorySmoothness == Smoothness(trajectory)
                && 0.0 <= m.trajectorySmoothness <= 1.0
    {
      var n := |trajectory|;
      if n < MinTrajectoryLength {
        return Failure(InsufficientData);
      }
      var timestamps := Timestamps(n, fps);
      var peak, minY := FindTossPeak(trajectory);
      var tossHeight := trajectory[0].y - minY;
      var contactFrame := peak + 3;
      var speed: real;
      if calibrator.homography.Some? {
        var estimate := HU.EstimateBallSpeed(ToReal(trajectory), timestamps, calibrator, project, sqrt);
        speed := estimate.value;
      } else {
        if n > 10 {
          var startPos := trajectory[5];
          var endPos := trajectory[Min(15, n - 1)];
          var pixelDistance := sqrt(Dist2(endPos, startPos) as real);
          var timeDiff := timestamps[Min(15, n - 1)] - timestamps[5];
          var estimatedDistance := pixelDistance * MetresPerPixel;
          var speedMs := if timeDiff > 0.0 then estimatedDistance / timeDiff else 0.0;
          speed := speedMs * 3.6;
        } else {
          speed := 0.0;
        }
      }
      var direction := if n > 10 then (if trajectory[n - 1].x > trajectory[0].x then Right else Left) else Unknown;
      var smoothness := CalculateTrajectorySmoothness(trajectory);
      r := Success(ServeMetrics(speed, tossHeight, contactFrame, direction, n, timestamps[n - 1], peak, smoothness));
    }
  }
}
