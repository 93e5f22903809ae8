/**
  Court calibration: the line-length filter, the placeholder corner finder, the
  two-state calibrator (uncalibrated / calibrated), the guarded coordinate
  transforms and the ball-speed accumulation.

  The perspective transform itself (getPerspectiveTransform, the matrix inverse,
  perspectiveTransform) is numeric library code; here a homography is the
  correspondence it was computed from, and applying it or inverting it are
  functions given by the caller.
*/
module HomographyUtils {
  import opened Wrappers

  /** A point with real coordinates: image pixels or metres on the court. */
  datatype RealPoint = RealPoint(x: real, y: real)

  /** Four corners in the canonical order bottom-left, bottom-right, top-right, top-left. */
  datatype Quad = Quad(bl: RealPoint, br: RealPoint, tr: RealPoint, tl: RealPoint)

  /** A segment from the probabilistic Hough transform: integer pixel end points. */
  datatype Segment = Segment(x1: int, y1: int, x2: int, y2: int)

  /** A planar homography, known by the image-to-court correspondence it was computed from. */
  datatype Homography = PerspectiveTransform(image: Quad, court: Quad)

  datatype CalibrationError = NotCalibrated | SingularMatrix

  /** Applies a homography to one point (cv2.perspectiveTransform on one row). */
  type Projection = (Homography, RealPoint) -> RealPoint

  /** Inverts a homography; None when the matrix is singular (np.linalg.inv raises). */
  type Inversion = Homography -> Option<Homography>

  /** The court outline in metres (23.77 m x 10.97 m), bottom-left first. */
  const CourtPoints: Quad :=
    Quad(RealPoint(0.0, 0.0), RealPoint(23.77, 0.0), RealPoint(23.77, 10.97), RealPoint(0.0, 10.97))
  const ServiceLineY: real := 6.40
  const NetY: real := 5.485

  /** A line is kept when its length exceeds 200 px, i.e. its squared length exceeds 40000. */
  const MinLineLengthSquared: int := 40000

  function SquaredLength(s: Segment): int {
    (s.x2 - s.x1) * (s.x2 - s.x1) + (s.y2 - s.y1) * (s.y2 - s.y1)
  }

  predicate IsLongLine(s: Segment) {
    SquaredLength(s) > MinLineLengthSquared
  }

  /** The segments longer than 200 px, in their original order. */
  function LongLines(lines: seq<Segment>): seq<Segment> {
    if lines == [] then []
    else LongLines(lines[..|lines| - 1]) + (if IsLongLine(lines[|lines| - 1]) then [lines[|lines| - 1]] else [])
  }

  /** The filter keeps exactly the long segments, and only segments of the input. */
  lemma {:induction false} LongLinesExact(lines: seq<Segment>)
    ensures forall s :: s in LongLines(lines) <==> s in lines && IsLongLine(s)
    ensures |LongLines(lines)| <= |lines|
  {
    if lines != [] {
      var init := lines[..|lines| - 1];
      LongLinesExact(init);
      assert lines == init + [lines[|lines| - 1]];
    }
  }

  /** Filtering commutes with concatenation, so the relative order of the kept lines is the input's. */
  lemma {:induction false} LongLinesAppend(a: seq<Segment>, b: seq<Segment>)
    ensures LongLines(a + b) == LongLines(a) + LongLines(b)
  {
    if b != [] {
      var b' := b[..|b| - 1];
      assert (a + b)[..|a + b| - 1] == a + b';
      assert (a + b)[|a + b| - 1] == b[|b| - 1];
      LongLinesAppend(a, b');
    } else {
      assert a + b == a;
    }
  }

  /**
    `detect_court_lines` after the Hough transform: `hough` is what HoughLinesP returned
    (None when it found nothing).
  */
  method DetectCourtLines(hough: Option<seq<Segment>>) returns (kept: seq<Segment>)
    ensures hough.None? ==> kept == []
    ensures hough.Some? ==> kept == LongLines(hough.value)
    ensures forall s :: s in kept ==> IsLongLine(s)
  {
    kept := [];
    if hough.None? {
      return;
    }
    var lines := hough.value;
    var i := 0;
    while i < |lines|
      invariant 0 <= i <= |lines|
      invariant kept == LongLines(lines[..i])
    {
      assert lines[..i + 1][..i] == lines[..i];
      if SquaredLength(lines[i]) > MinLineLengthSquared {
        kept := kept + [lines[i]];
      }
      i := i + 1;
    }
    assert lines[..i] == lines;
    LongLinesExact(lines);
  }

  /** The point at fractions (fx, fy) of a width x height frame. */
  function FramePoint(width: int, height: int, fx: real, fy: real): RealPoint {
    RealPoint(width as real * fx, height as real * fy)
  }

  /** Corners in canonical order: bottom corners lower on screen (larger y) and left corners further left. */
  predicate CanonicalOrder(q: Quad) {
    q.bl.x < q.br.x && q.tl.x < q.tr.x && q.bl.y > q.tl.y && q.br.y > q.tr.y
  }

  predicate InsideFrame(p: RealPoint, width: int, height: int) {
    0.0 <= p.x <= width as real && 0.0 <= p.y <= height as real
  }

  predicate QuadInsideFrame(q: Quad, width: int, height: int) {
    InsideFrame(q.bl, width, height) && InsideFrame(q.br, width, height) &&
    InsideFrame(q.tr, width, height) && InsideFrame(q.tl, width, height)
  }

  /**
    `find_court_corners`: fewer than 4 lines is a failure; otherwise the corners are
    fixed fractions of the frame, whatever the lines are.
  */
  function FindCourtCorners(lines: seq<Segment>, height: int, width: int): (r: Option<Quad>)
    ensures r.None? <==> |lines| < 4
    ensures r.Some? ==> (r.value.bl == FramePoint(width, height, 0.1, 0.8)
                      && r.value.br == FramePoint(width, height, 0.9, 0.8)
                      && r.value.tr == FramePoint(width, height, 0.9, 0.2)
                      && r.value.tl == FramePoint(width, height, 0.1, 0.2))
  {
    if |lines| < 4 then None
    else Some(Quad(FramePoint(width, height, 0.1, 0.8), FramePoint(width, height, 0.9, 0.8),
                   FramePoint(width, height, 0.9, 0.2), FramePoint(width, height, 0.1, 0.2)))
  }

  /** The corners found automatically depend only on the number of lines, not on where they are. */
  lemma FindCourtCornersIgnoresGeometry(a: seq<Segment>, b: seq<Segment>, height: int, width: int)
    requires |a| >= 4 && |b| >= 4
    ensures FindCourtCorners(a, height, width) == FindCourtCorners(b, height, width)
  {
  }

  /** For a non-degenerate frame the placeholder corners are canonical and inside the frame. */
  lemma FindCourtCornersWellFormed(lines: seq<Segment>, height: int, width: int)
    requires |lines| >= 4 && height > 0 && width > 0
    ensures CanonicalOrder(FindCourtCorners(lines, height, width).value)
    ensures QuadInsideFrame(FindCourtCorners(lines, height, width).value, width, height)
  {
  }

  /** `create_manual_calibration_points`: the demonstration corners at 15%/85% of the width, 85%/25% of the height. */
  function ManualCalibrationPoints(width: int, height: int): (q: Quad)
    ensures q.bl == FramePoint(width, height, 0.15, 0.85) && q.br == FramePoint(width, height, 0.85, 0.85)
    ensures q.tr == FramePoint(width, height, 0.85, 0.25) && q.tl == FramePoint(width, height, 0.15, 0.25)
  {
    Quad(FramePoint(width, height, 0.15, 0.85), FramePoint(width, height, 0.85, 0.85),
         FramePoint(width, height, 0.85, 0.25), FramePoint(width, height, 0.15, 0.25))
  }

  lemma ManualCalibrationPointsWellFormed(width: int, height: int)
    requires width > 0 && height > 0
    ensures CanonicalOrder(ManualCalibrationPoints(width, height))
    ensures QuadInsideFrame(ManualCalibrationPoints(width, height), width, height)
  {
  }

  /** Every point mapped through one homography, in order. */
  function ProjectAll(h: Homography, points: seq<RealPoint>, project: Projection): (r: seq<RealPoint>)
    ensures |r| == |points|
    ensures forall i :: 0 <= i < |points| ==> r[i] == project(h, points[i])
  {
    seq(|points|, i requires 0 <= i < |points| => project(h, points[i]))
  }

  /** Projection distributes over concatenation: a batch can be projected in parts. */
  lemma ProjectAllAppend(h: Homography, a: seq<RealPoint>, b: seq<RealPoint>, project: Projection)
    ensures ProjectAll(h, a + b, project) == ProjectAll(h, a, project) + ProjectAll(h, b, project)
  {
    var l, r := ProjectAll(h, a + b, project), ProjectAll(h, a, project) + ProjectAll(h, b, project);
    assert forall i :: 0 <= i < |l| ==> l[i] == r[i] by {
      forall i | 0 <= i < |l| ensures l[i] == r[i] {
        if i < |a| { assert (a + b)[i] == a[i]; } else { assert (a + b)[i] == b[i - |a|]; }
      }
    }
  }

  class CourtCalibrator {
    /** `homography_matrix`: None until a calibration succeeds. */
    var homography: Option<Homography>
    /** `court_corners_2d`: the corners used by the last calibration attempt. */
    var courtCorners: Option<Quad>
    /** `court_points_3d`: the court outline the corners correspond to. */
    var courtPoints: Quad

    constructor ()
      ensures homography == None && courtCorners == None && courtPoints == CourtPoints
    {
      homography := None;
      courtCorners := None;
      courtPoints := CourtPoints;
    }

    predicate IsCalibrated()
      reads this
    {
      homography.Some?
    }

    /**
      `calibrate_court`: manual corners, when given, are used as they are; otherwise the
      corners come from the line filter and the corner finder applied to `hough`.
      The attempt always overwrites the corners; the homography changes only on success.
    */
    method CalibrateCourt(hough: Option<seq<Segment>>, height: int, width: int, manual: Option<Quad>)
      returns (ok: bool)
      modifies this
      ensures manual.Some? ==> courtCorners == manual
      ensures manual.None? ==> courtCorners == FindCourtCorners(if hough.None? then [] else LongLines(hough.value), height, width)
      ensures ok <==> courtCorners.Some?
      ensures ok ==> homography == Some(PerspectiveTransform(courtCorners.value, courtPoints))
      ensures !ok ==> homography == old(homography)
      ensures courtPoints == old(courtPoints)
    {
      if manual.Some? {
        courtCorners := manual;
      } else {
        var lines := DetectCourtLines(hough);
        courtCorners := FindCourtCorners(lines, height, width);
      }
      if courtCorners.None? {
        return false;
      }
      homography := Some(PerspectiveTransform(courtCorners.value, courtPoints));
      ok := true;
    }

    /**
      `pixel_to_court_coords`: raises when uncalibrated, otherwise maps every point
      through the homography, one output row per input row.
    */
    function PixelToCourtCoords(points: seq<RealPoint>, project: Projection): (r: Result<seq<RealPoint>, CalibrationError>)
      reads this
      ensures homography.None? <==> r.Failure?
      ensures r.Failure? ==> r.error == NotCalibrated
      ensures r.Success? ==> |r.value| == |points|
      ensures r.Success? ==> forall i :: 0 <= i < |points| ==> r.value[i] == project(homography.value, points[i])
    {
      if homography.None? then Failure(NotCalibrated)
      else Success(ProjectAll(homography.value, points, project))
    }

    /**
      `court_to_pixel_coords`: raises when uncalibrated (checked first) and when the
      homography cannot be inverted; otherwise maps every point through the inverse.
    */
    function CourtToPixelCoords(points: seq<RealPoint>, project: Projection, invert: Inversion): (r: Result<seq<RealPoint>, CalibrationError>)
      reads this
      ensures homography.None? ==> r == Failure(NotCalibrated)
      ensures homography.Some? && invert(homography.value).None? ==> r == Failure(SingularMatrix)
      ensures r.Success? <==> homography.Some? && invert(homography.value).Some?
      ensures r.Success? ==> homography.Some? && invert(homography.value).Some? && |r.value| == |points|
      ensures r.Success? ==> forall i :: 0 <= i < |points| ==> r.value[i] == project(invert(homography.value).value, points[i])
    {
      if homography.None? then Failure(NotCalibrated)
      else
        var inverse := invert(homography.value);
        if inverse.None? then Failure(SingularMatrix)
        else Success(ProjectAll(inverse.value, points, project))
    }

    /** A batch transforms as its parts do: the single-point and batched calls agree. */
    lemma PixelToCourtBatches(a: seq<RealPoint>, b: seq<RealPoint>, project: Projection)
      requires IsCalibrated()
      ensures PixelToCourtCoords(a + b, project).value
           == PixelToCourtCoords(a, project).value + PixelToCourtCoords(b, project).value
    {
      var l := PixelToCourtCoords(a + b, project).value;
      var r := PixelToCourtCoords(a, project).value + PixelToCourtCoords(b, project).value;
      assert |l| == |r|;
      forall i | 0 <= i < |l| ensures l[i] == r[i] {
        if i < |a| {
          assert (a + b)[i] == a[i];
        } else {
          assert (a + b)[i] == b[i - |a|];
        }
      }
    }
  }

  /** Euclidean distance between two court points, through the caller's square root. */
  function CourtDistance(a: RealPoint, b: RealPoint, sqrt: real -> real): real {
    sqrt((b.x - a.x) * (b.x - a.x) + (b.y - a.y) * (b.y - a.y))
  }

  /** The sum of the step distances over the first n steps whose time difference is positive. */
  function TotalDistance(court: seq<RealPoint>, timestamps: seq<real>, n: nat, sqrt: real -> real): real
    requires n < |court| && |court| <= |timestamps|
  {
    if n == 0 then 0.0
    else
      TotalDistance(court, timestamps, n - 1, sqrt)
      + (if timestamps[n] - timestamps[n - 1] > 0.0 then CourtDistance(court[n - 1], court[n], sqrt) else 0.0)
  }

  /** The sum of the positive time differences over the first n steps. */
  function TotalTime(timestamps: seq<real>, n: nat): real
    requires n < |timestamps|
  {
    if n == 0 then 0.0
    else TotalTime(timestamps, n - 1) + (if timestamps[n] - timestamps[n - 1] > 0.0 then timestamps[n] - timestamps[n - 1] else 0.0)
  }

  /** Speed in km/h from the accumulated distance and time: 3.6 * distance / time, or 0 when no time elapsed. */
  function SpeedKmh(totalDistance: real, totalTime: real): real {
    (if totalTime > 0.0 then totalDistance / totalTime else 0.0) * 3.6
  }

  /** The speed `estimate_ball_speed` reports for court points with at least two entries. */
  function CourtSpeedKmh(court: seq<RealPoint>, timestamps: seq<real>, sqrt: real -> real): real
    requires 2 <= |court| <= |timestamps|
  {
    SpeedKmh(TotalDistance(court, timestamps, |court| - 1, sqrt), TotalTime(timestamps, |court| - 1))
  }

  ghost predicate NonNegativeRoot(sqrt: real -> real) {
    forall x :: 0.0 <= x ==> 0.0 <= sqrt(x)
  }

  lemma {:induction false} TotalsNonNegative(court: seq<RealPoint>, timestamps: seq<real>, n: nat, sqrt: real -> real)
    requires n < |court| <= |timestamps| && NonNegativeRoot(sqrt)
    ensures TotalDistance(court, timestamps, n, sqrt) >= 0.0 && TotalTime(timestamps, n) >= 0.0
  {
    if n > 0 {
      TotalsNonNegative(court, timestamps, n - 1, sqrt);
      var a, b := court[n - 1], court[n];
      assert (b.x - a.x) * (b.x - a.x) + (b.y - a.y) * (b.y - a.y) >= 0.0;
    }
  }

  /** With a square root that is never negative, the estimated speed is never negative. */
  lemma CourtSpeedNonNegative(court: seq<RealPoint>, timestamps: seq<real>, sqrt: real -> real)
    requires 2 <= |court| <= |timestamps| && NonNegativeRoot(sqrt)
    ensures CourtSpeedKmh(court, timestamps, sqrt) >= 0.0
  {
    TotalsNonNegative(court, timestamps, |court| - 1, sqrt);
  }

  /** A step whose time difference is not positive adds nothing to either total. */
  lemma NonPositiveStepIgnored(court: seq<RealPoint>, timestamps: seq<real>, n: nat, sqrt: real -> real)
    requires 0 < n < |court| <= |timestamps| && timestamps[n] <= timestamps[n - 1]
    ensures TotalDistance(court, timestamps, n, sqrt) == TotalDistance(court, timestamps, n - 1, sqrt)
    ensures TotalTime(timestamps, n) == TotalTime(timestamps, n - 1)
  {
  }

  /** A step with positive time difference adds its court distance and its duration. */
  lemma PositiveStepCounted(court: seq<RealPoint>, timestamps: seq<real>, n: nat, sqrt: real -> real)
    requires 0 < n < |court| <= |timestamps| && timestamps[n] > timestamps[n - 1]
    ensures TotalDistance(court, timestamps, n, sqrt)
            == TotalDistance(court, timestamps, n - 1, sqrt) + CourtDistance(court[n - 1], court[n], sqrt)
    ensures TotalTime(timestamps, n) == TotalTime(timestamps, n - 1) + (timestamps[n] - timestamps[n - 1])
  {
  }

  /** When no step has a positive time difference, both totals are 0. */
  lemma {:induction false} NonPositiveStepsIgnored(court: seq<RealPoint>, timestamps: seq<real>, n: nat, sqrt: real -> real)
    requires n < |court| <= |timestamps|
    requires forall i :: 0 < i <= n ==> timestamps[i] <= timestamps[i - 1]
    ensures TotalDistance(court, timestamps, n, sqrt) == 0.0 && TotalTime(timestamps, n) == 0.0
  {
    if n > 0 {
      NonPositiveStepsIgnored(court, timestamps, n - 1, sqrt);
    }
  }

  /**
    `estimate_ball_speed`: 0 for fewer than two positions (before any transform is tried);
    otherwise the positions go through the calibrator, which raises when uncalibrated,
    and only steps with a positive time difference contribute to distance and time.
  */
  method EstimateBallSpeed(positions: seq<RealPoint>, timestamps: seq<real>, calibrator: CourtCalibrator,
                           project: Projection, sqrt: real -> real)
    returns (r: Result<real, CalibrationError>)
    requires |positions| >= 2 ==> |positions| <= |timestamps|
    ensures |positions| < 2 ==> r == Success(0.0)
    ensures |positions| >= 2 && calibrator.homography.None? ==> r == Failure(NotCalibrated)
    ensures |positions| >= 2 && calibrator.homography.Some? ==>
              r == Success(CourtSpeedKmh(ProjectAll(calibrator.homography.value, positions, project), timestamps, sqrt))
  {
    if |positions| < 2 {
      return Success(0.0);
    }
    var converted := calibrator.PixelToCourtCoords(positions, project);
    if converted.Failure? {
      return Failure(converted.error);
    }
    var court := converted.value;
    var totalDistance := 0.0;
    var totalTime := 0.0;
    var i := 1;
    while i < |court|
      invariant 1 <= i <= |court|
      invariant totalDistance == TotalDistance(court, timestamps, i - 1, sqrt)
      invariant totalTime == TotalTime(timestamps, i - 1)
    {
      var distance := CourtDistance(court[i - 1], court[i], sqrt);
      var timeDiff := timestamps[i] - timestamps[i - 1];
      if timeDiff > 0.0 {
        totalDistance := totalDistance + distance;
        totalTime := totalTime + timeDiff;
      }
      i := i + 1;
    }
    var speedMs := if totalTime > 0.0 then totalDistance / totalTime else 0.0;
    r := Success(speedMs * 3.6);
  }

  /** Two court points 10 m apart, one frame apart at 30 frames per second: 10 m in 1/30 s is 1080 km/h. */
  lemma TenfoldScaleSpeed(sqrt: real -> real)
    requires sqrt(100.0) == 10.0
    ensures CourtSpeedKmh([RealPoint(0.0, 0.0), RealPoint(10.0, 0.0)], [0.0 / 30.0, 1.0 / 30.0], sqrt) == 1080.0
  {
    var court := [RealPoint(0.0, 0.0), RealPoint(10.0, 0.0)];
    var ts := [0.0 / 30.0, 1.0 / 30.0];
    assert CourtDistance(court[0], court[1], sqrt) == 10.0;
    assert TotalDistance(court, ts, 1, sqrt) == 10.0;
    assert TotalTime(ts, 1) == 1.0 / 30.0;
  }
}
