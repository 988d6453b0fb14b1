/**
 * Result projection: the face-detection model's results become the array the
 * page sends to the host. Coordinates are only passed through, so they are
 * kept as reals without any range assumption.
 */
module Detections {
  import opened Options
  import opened Launch

  /** A keypoint as the model reports it; `others` stands for any further properties it carries. */
  datatype RawLandmark = RawLandmark(x: real, y: real, others: map<string, real>)

  /** The model's bounding box; `others` stands for any further properties it carries. */
  datatype RawBox = RawBox(
    xMin: real, yMin: real, width: real, height: real, xCenter: real, yCenter: real,
    others: map<string, real>)

  /** One detection; `score` may be missing altogether. */
  datatype RawDetection = RawDetection(boundingBox: RawBox, landmarks: seq<RawLandmark>, score: Option<seq<real>>)

  /** The argument of the results callback; `detections` may be missing altogether. */
  datatype RawResults = RawResults(detections: Option<seq<RawDetection>>)

  /** The outbound shapes. */
  datatype Box = Box(xMin: real, yMin: real, width: real, height: real, xCenter: real, yCenter: real)
  datatype Point = Point(x: real, y: real)
  datatype Face = Face(boundingBox: Box, landmarks: seq<Point>, confidence: real)

  /** The guard `results.detections && results.detections.length > 0`: the detections iterated over. */
  function DetectionsOf(r: RawResults): (ds: seq<RawDetection>)
    ensures r.detections.None? ==> ds == []
    ensures r.detections.Some? ==> ds == r.detections.value
  {
    if r.detections.Some? && |r.detections.value| > 0 then r.detections.value else []
  }

  /** `landmarks.map(lm => ({x: lm.x, y: lm.y}))`. */
  function ToPoints(lms: seq<RawLandmark>): (pts: seq<Point>)
    ensures |pts| == |lms|
    ensures forall i :: 0 <= i < |lms| ==> pts[i].x == lms[i].x && pts[i].y == lms[i].y
  {
    if lms == [] then [] else [Point(lms[0].x, lms[0].y)] + ToPoints(lms[1..])
  }

  /** `detection.score && detection.score.length > 0 ? detection.score[0] : 0`. */
  function Confidence(score: Option<seq<real>>): (c: real)
    ensures score.Some? && |score.value| > 0 ==> c == score.value[0]
    ensures score.None? || score.value == [] ==> c == 0.0
  {
    match score
    case None => 0.0
    case Some(s) => if |s| > 0 then s[0] else 0.0
  }

  /** The entry pushed for one detection. */
  function ProjectFace(d: RawDetection): (f: Face)
    ensures f.boundingBox.xMin == d.boundingBox.xMin && f.boundingBox.yMin == d.boundingBox.yMin
    ensures f.boundingBox.width == d.boundingBox.width && f.boundingBox.height == d.boundingBox.height
    ensures f.boundingBox.xCenter == d.boundingBox.xCenter && f.boundingBox.yCenter == d.boundingBox.yCenter
    ensures |f.landmarks| == |d.landmarks|
    ensures forall i :: 0 <= i < |d.landmarks| ==>
              f.landmarks[i] == Point(d.landmarks[i].x, d.landmarks[i].y)
    ensures f.confidence == Confidence(d.score)
  {
    var b := d.boundingBox;
    Face(Box(b.xMin, b.yMin, b.width, b.height, b.xCenter, b.yCenter), ToPoints(d.landmarks), Confidence(d.score))
  }

  /** The whole outbound array, as a specification of the loop in `Collect`. */
  function ProjectAll(ds: seq<RawDetection>): (fs: seq<Face>)
    ensures |fs| == |ds|
    ensures forall i :: 0 <= i < |ds| ==> fs[i] == ProjectFace(ds[i])
  {
    if ds == [] then [] else [ProjectFace(ds[0])] + ProjectAll(ds[1..])
  }

  /**
   * The loop of `onResults`: one entry per detection, in order, pushed onto
   * `processed`; with drawing enabled the same detection is also handed to the
   * overlay, which is recorded in `drawn`.
   */
  method Collect(c: Config, r: RawResults) returns (processed: seq<Face>, drawn: seq<RawDetection>)
    ensures processed == ProjectAll(DetectionsOf(r))
    ensures drawn == if c.enableDrawing then DetectionsOf(r) else []
  {
    processed, drawn := [], [];
    if r.detections.Some? && |r.detections.value| > 0 {
      var ds := r.detections.value;
      var i := 0;
      while i < |ds|
        invariant 0 <= i <= |ds|
        invariant processed == ProjectAll(ds[..i])
        invariant drawn == if c.enableDrawing then ds[..i] else []
      {
        var detection := ds[i];
        if c.enableDrawing {
          drawn := drawn + [detection];
        }
        ProjectAllSnoc(ds[..i], detection);
        assert ds[..i + 1] == ds[..i] + [detection];
        processed := processed + [ProjectFace(detection)];
        i := i + 1;
      }
      assert ds[..i] == ds;
    }
  }

  lemma {:induction false} ProjectAllSnoc(ds: seq<RawDetection>, d: RawDetection)
    ensures ProjectAll(ds + [d]) == ProjectAll(ds) + [ProjectFace(d)]
  {
    ProjectAllAppend(ds, [d]);
  }

  /** Projection keeps order: projecting two runs of detections one after the other is projecting their concatenation. */
  lemma {:induction false} ProjectAllAppend(a: seq<RawDetection>, b: seq<RawDetection>)
    ensures ProjectAll(a + b) == ProjectAll(a) + ProjectAll(b)
  {
    if a == [] {
      assert a + b == b;
    } else {
      assert (a + b)[1..] == a[1..] + b;
      ProjectAllAppend(a[1..], b);
    }
  }

  /** A face as the model could have reported it: the inverse direction of the projection. */
  function Lift(f: Face): RawDetection
  {
    var b := f.boundingBox;
    RawDetection(
      RawBox(b.xMin, b.yMin, b.width, b.height, b.xCenter, b.yCenter, map[]),
      LiftPoints(f.landmarks),
      Some([f.confidence]))
  }

  function LiftPoints(pts: seq<Point>): (lms: seq<RawLandmark>)
    ensures |lms| == |pts|
  {
    if pts == [] then [] else [RawLandmark(pts[0].x, pts[0].y, map[])] + LiftPoints(pts[1..])
  }

  lemma {:induction false} ToPointsLiftPoints(pts: seq<Point>)
    ensures ToPoints(LiftPoints(pts)) == pts
  {
    if pts != [] {
      ToPointsLiftPoints(pts[1..]);
    }
  }

  /** Nothing the outbound message holds is lost: every message is the projection of some results. */
  lemma {:induction false} ProjectLift(fs: seq<Face>)
    ensures ProjectAll(seq(|fs|, i requires 0 <= i < |fs| => Lift(fs[i]))) == fs
  {
    var ds := seq(|fs|, i requires 0 <= i < |fs| => Lift(fs[i]));
    forall i | 0 <= i < |fs|
      ensures ProjectFace(ds[i]) == fs[i]
    {
      ToPointsLiftPoints(fs[i].landmarks);
    }
  }

  /** Projection forgets exactly the extra properties: detections that differ only there project alike. */
  lemma ProjectIgnoresOthers(d: RawDetection, others: map<string, real>)
    ensures ProjectFace(d.(boundingBox := d.boundingBox.(others := others))) == ProjectFace(d)
  {
  }
}
