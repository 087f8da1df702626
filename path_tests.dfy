/** The behaviour the PathTest cases and test_reverse_path pin down, stated
    as methods that make the same calls on Path and PathPen objects and
    promise the outcomes those cases check. */
module PathTests {
  import opened Geometry
  import opened PathData
  import opened Recording
  import opened SegmentView
  import opened Reversal
  import opened Paths
  import opened ReverseVectors

  /** Two new paths are equal; a moveTo on one makes them differ, the same
      moveTo on the other makes them equal again, and a different fill type
      alone makes them differ. */
  method EqOperator() returns (bothNew: bool, oneMoved: bool, bothMoved: bool, fillDiffers: bool)
    ensures bothNew && !oneMoved && bothMoved && !fillDiffers
  {
    var path1 := new Path();
    var path2 := new Path();
    bothNew := path1.Equals(path2);
    path1.MoveTo(Point(0.0, 0.0));
    oneMoved := path1.Equals(path2);
    path2.MoveTo(Point(0.0, 0.0));
    bothMoved := path1.Equals(path2);
    path1.fillType := EvenOdd;
    fillDiffers := path1.Equals(path2);
  }

  /** A path constructed as a copy of another equals it. */
  method CopyEquals(path1: Path) returns (equal: bool)
    requires path1.Valid()
    ensures equal
  {
    var path2 := new Path.Copy(path1);
    equal := path1.Equals(path2);
  }

  /** Drawing a path onto the default pen of a new path raises nothing and
      gives the new path the same verbs. */
  method DrawOntoNewPath(path: Path) returns (o: Outcome, sameVerbs: bool)
    requires path.Valid()
    ensures o == Pass && sameVerbs
  {
    var path2 := new Path();
    var pen := path2.GetPen(true);
    o := path.Draw(pen);
    DrawRecordsSameVerbs([], path.verbs);
    assert [] + path.verbs == path.verbs;
    sameVerbs := path2.verbs == path.verbs;
  }

  const OpenContoursVerbs: seq<Verb> :=
    [Move(Point(0.0, 0.0)), Move(Point(1.0, 0.0)), Line(Point(1.0, 1.0)),
     Cubic(Point(2.0, 2.0), Point(3.0, 3.0), Point(4.0, 4.0))]

  const OpenContoursSegments: seq<PenCall> :=
    [MoveTo(Point(0.0, 0.0)), EndPath, MoveTo(Point(1.0, 0.0)), LineTo(Point(1.0, 1.0)),
     CurveTo(Point(2.0, 2.0), Point(3.0, 3.0), Point(4.0, 4.0)), EndPath]

  /** The buffer holding a lone move point and an open line-and-cubic
      contour reports both contours, each terminated by endPath. */
  lemma OpenContoursView()
    ensures WellFormed(OpenContoursVerbs)
    ensures SegmentsOf(OpenContoursVerbs) == OpenContoursSegments
  {
    var c1 := Contour(Point(0.0, 0.0), [], false);
    var c2 := Contour(Point(1.0, 0.0), [Line(Point(1.0, 1.0)), Cubic(Point(2.0, 2.0), Point(3.0, 3.0), Point(4.0, 4.0))], false);
    assert Flatten([c1, c2]) == OpenContoursVerbs by {
      assert Flatten([c2]) == ContourVerbs(c2) + Flatten([]);
    }
    ContoursOfFlatten([c1, c2]);
    assert CallsOf([c1, c2]) == ContourCalls(c1) + (ContourCalls(c2) + CallsOf([])) by {
      assert [c1, c2][1..] == [c2];
    }
    assert JoinSegments(c2.segs) == [LineTo(Point(1.0, 1.0)), CurveTo(Point(2.0, 2.0), Point(3.0, 3.0), Point(4.0, 4.0))];
  }

  /** A second moveTo ends the contour before it as open; with open paths
      allowed, endPath raises nothing, and the view reports both contours
      with an endPath each. */
  method AllowOpenContour() returns (o: Outcome, segments: seq<PenCall>)
    ensures o == Pass
    ensures segments == OpenContoursSegments
  {
    var path := new Path();
    var pen := path.GetPen(true);
    pen.MoveTo(Point(0.0, 0.0));
    pen.MoveTo(Point(1.0, 0.0));
    pen.LineTo(Point(1.0, 1.0));
    pen.CurveTo(Point(2.0, 2.0), Point(3.0, 3.0), Point(4.0, 4.0));
    o := pen.EndPath();
    assert path.verbs == OpenContoursVerbs;
    OpenContoursView();
    segments := path.Segments();
  }

  /** endPath on a pen that does not allow open contours raises
      OpenPathError. */
  method RaiseOpenContourError() returns (o: Outcome)
    ensures o == Fail(OpenPathError)
  {
    var path := new Path();
    var pen := path.GetPen(false);
    pen.MoveTo(Point(0.0, 0.0));
    o := pen.EndPath();
  }

  const SplineVerbs: seq<Verb> :=
    [Move(Point(0.0, 0.0)), Quad(Point(1.0, 1.0), Point(1.5, 1.5)), Quad(Point(2.0, 2.0), Point(3.0, 3.0)), Close]

  /** The buffer of a closed two-quadratic contour whose shared on-curve
      point is the midpoint of the two controls reports one qCurveTo. */
  lemma SplineView()
    ensures WellFormed(SplineVerbs)
    ensures SegmentsOf(SplineVerbs) ==
      [MoveTo(Point(0.0, 0.0)), QCurveTo([Point(1.0, 1.0), Point(2.0, 2.0), Point(3.0, 3.0)]), ClosePath]
  {
    var pts := [Point(1.0, 1.0), Point(2.0, 2.0), Point(3.0, 3.0)];
    var c := Contour(Point(0.0, 0.0), Decompose(pts), true);
    assert Decompose(pts) == [Quad(Point(1.0, 1.0), Point(1.5, 1.5)), Quad(Point(2.0, 2.0), Point(3.0, 3.0))];
    assert Flatten([c]) == SplineVerbs by {
      assert Flatten([c]) == ContourVerbs(c) + Flatten([]);
    }
    ContoursOfFlatten([c]);
    assert CallsOf([c]) == ContourCalls(c) + CallsOf([]);
    JoinDecomposed(pts, []);
    assert Decompose(pts) + [] == Decompose(pts);
  }

  /** A qCurveTo with two off-curve points is stored as two atomic quads
      meeting at the midpoint of the controls, and the view joins them back
      into the one qCurveTo. */
  method DecomposeJoinQuadraticSegments() returns (items: seq<Verb>, segments: seq<PenCall>)
    ensures |items| == 4
    ensures items[1] == Quad(Point(1.0, 1.0), Point(1.5, 1.5))
    ensures items[2] == Quad(Point(2.0, 2.0), Point(3.0, 3.0))
    ensures segments ==
      [MoveTo(Point(0.0, 0.0)), QCurveTo([Point(1.0, 1.0), Point(2.0, 2.0), Point(3.0, 3.0)]), ClosePath]
  {
    var path := new Path();
    var pen := path.GetPen(true);
    pen.MoveTo(Point(0.0, 0.0));
    var o := pen.QCurveTo([Point(1.0, 1.0), Point(2.0, 2.0), Point(3.0, 3.0)]);
    pen.ClosePath();
    assert Decompose([Point(1.0, 1.0), Point(2.0, 2.0), Point(3.0, 3.0)]) ==
      [Quad(Point(1.0, 1.0), Point(1.5, 1.5)), Quad(Point(2.0, 2.0), Point(3.0, 3.0))];
    assert path.verbs == SplineVerbs;
    items := path.verbs;
    SplineView();
    segments := path.Segments();
  }

  /** A closed line contour reports no closing lineTo back to its start. */
  lemma LineContourView()
    ensures WellFormed([Move(Point(100.0, 100.0)), Line(Point(100.0, 200.0)), Close])
    ensures SegmentsOf([Move(Point(100.0, 100.0)), Line(Point(100.0, 200.0)), Close]) ==
      [MoveTo(Point(100.0, 100.0)), LineTo(Point(100.0, 200.0)), ClosePath]
  {
    var c := Contour(Point(100.0, 100.0), [Line(Point(100.0, 200.0))], true);
    assert Flatten([c]) == [Move(Point(100.0, 100.0)), Line(Point(100.0, 200.0)), Close] by {
      assert Flatten([c]) == ContourVerbs(c) + Flatten([]);
    }
    ContoursOfFlatten([c]);
    assert CallsOf([c]) == ContourCalls(c) + CallsOf([]);
    assert JoinSegments(c.segs) == [LineTo(Point(100.0, 200.0))];
  }

  /** closePath after a lineTo stores no implicit closing line, so the view
      reports just the moveTo, the lineTo and closePath. */
  method LastImplicitLineTo() returns (segments: seq<PenCall>)
    ensures segments == [MoveTo(Point(100.0, 100.0)), LineTo(Point(100.0, 200.0)), ClosePath]
  {
    var path := new Path();
    var pen := path.GetPen(true);
    pen.MoveTo(Point(100.0, 100.0));
    pen.LineTo(Point(100.0, 200.0));
    pen.ClosePath();
    assert path.verbs == [Move(Point(100.0, 100.0)), Line(Point(100.0, 200.0)), Close];
    LineContourView();
    segments := path.Segments();
  }

  /** test_reverse_path: the operations are made on the default pen of a new
      path, the path is reversed in place and its segments are read back.
      Whenever an entry holds as ReversesTo states it, the test passes. */
  method ReversePathCase(operations: seq<PenCall>, expected: seq<PenCall>) returns (passed: bool)
    ensures ReversesTo(operations, expected) ==> passed
    ensures passed ==> Record(operations).1 == Pass
  {
    var path := new Path();
    var pen := path.GetPen(true);
    var o := pen.Play(operations);
    path.Reverse();
    var segments := path.Segments();
    passed := o == Pass && segments == expected;
  }
}
