/** The mutable objects of the package: a Path owns a fill type and a verb
    buffer and is changed in place; a PathPen records pen calls onto the path
    it was obtained from. */
module Paths {
  import opened Geometry
  import opened Sequences
  import opened PathData
  import opened Recording
  import opened SegmentView
  import opened Reversal

  class Path {
    var fillType: FillType
    var verbs: seq<Verb>

    /** The buffer is one the pen protocol can produce. */
    ghost predicate Valid()
      reads this
    {
      WellFormed(verbs)
    }

    /** `Path()`: an empty path with the default fill rule. */
    constructor ()
      ensures Valid() && fillType == Winding && verbs == []
    {
      fillType := Winding;
      verbs := [];
    }

    /** `Path(other)`: a copy with the same fill type and the same verbs. */
    constructor Copy(other: Path)
      requires other.Valid()
      ensures Valid() && fillType == other.fillType && verbs == other.verbs
    {
      fillType := other.fillType;
      verbs := other.verbs;
    }

    /** `==`: structural equality of fill type and stored verbs. Equal paths
        are interchangeable: both hold a buffer the pen can produce or neither
        does, and they read back the same segments. */
    function Equals(other: Path): (r: bool)
      reads this, other
      ensures other == this ==> r
      ensures r ==> fillType == other.fillType
      ensures r ==> (Valid() <==> other.Valid())
      ensures r && Valid() ==> SegmentsOf(verbs) == SegmentsOf(other.verbs)
    {
      fillType == other.fillType && verbs == other.verbs
    }

    /** `getPen(allow_open_paths)`: a new pen drawing on this path. */
    method GetPen(allowOpenPaths: bool) returns (pen: PathPen)
      ensures fresh(pen) && pen.path == this && pen.allowOpenPaths == allowOpenPaths
    {
      pen := new PathPen(this, allowOpenPaths);
    }

    method MoveTo(p: Point)
      requires Valid()
      modifies this
      ensures Valid() && fillType == old(fillType)
      ensures verbs == old(verbs) + [Move(p)]
    {
      AppendKeepsWellFormed(verbs, Move(p));
      verbs := verbs + [Move(p)];
    }

    method LineTo(p: Point)
      requires Valid()
      modifies this
      ensures Valid() && fillType == old(fillType)
      ensures verbs == AddSegments(old(verbs), [Line(p)])
    {
      DrawKeepsWellFormed(StartContour(verbs), [Line(p)]);
      verbs := AddSegments(verbs, [Line(p)]);
    }

    method QuadTo(c: Point, p: Point)
      requires Valid()
      modifies this
      ensures Valid() && fillType == old(fillType)
      ensures verbs == AddSegments(old(verbs), [Quad(c, p)])
    {
      DrawKeepsWellFormed(StartContour(verbs), [Quad(c, p)]);
      verbs := AddSegments(verbs, [Quad(c, p)]);
    }

    method CubicTo(c1: Point, c2: Point, p: Point)
      requires Valid()
      modifies this
      ensures Valid() && fillType == old(fillType)
      ensures verbs == AddSegments(old(verbs), [Cubic(c1, c2, p)])
    {
      DrawKeepsWellFormed(StartContour(verbs), [Cubic(c1, c2, p)]);
      verbs := AddSegments(verbs, [Cubic(c1, c2, p)]);
    }

    method Close()
      requires Valid()
      modifies this
      ensures Valid() && fillType == old(fillType)
      ensures verbs == AddClose(old(verbs))
    {
      if ContourIsOpen(verbs) {
        AppendKeepsWellFormed(verbs, Verb.Close);
      }
      verbs := AddClose(verbs);
    }

    /** `segments`: the stored path as pen calls of the reported form, which
        a default pen records back into exactly this buffer (by SegmentsUnique
        the only such calls). */
    function Segments(): (r: seq<PenCall>)
      reads this
      requires Valid()
      ensures ViewForm(r)
      ensures Replay([], r, true) == (verbs, Pass)
    {
      SegmentsOfForm(verbs);
      SegmentsOf(verbs)
    }

    /** `draw(pen)`: the segments played onto a pen of another path, stopping
        at the first call that raises. */
    method Draw(pen: PathPen) returns (o: Outcome)
      requires Valid() && pen.path.Valid()
      modifies pen.path
      ensures pen.path.Valid() && pen.path.fillType == old(pen.path.fillType)
      ensures (pen.path.verbs, o) == Replay(old(pen.path.verbs), old(Segments()), pen.allowOpenPaths)
    {
      o := pen.Play(Segments());
    }

    /** `reverse()`: every contour drawn backwards. */
    method Reverse()
      requires Valid()
      modifies this
      ensures Valid() && fillType == old(fillType)
      ensures multiset(Contours(verbs)) == multiset(ReverseAll(Contours(old(verbs))))
      ensures |Contours(old(verbs))| <= 1 ==> verbs == ReversePath(old(verbs))
    {
      var cs := Contours(verbs);
      var out: seq<Verb> := [];
      var i := 0;
      while i < |cs|
        invariant 0 <= i <= |cs|
        invariant out == Flatten(ReverseAll(cs[..i]))
        invariant unchanged(this)
      {
        ReverseAllSnoc(cs, i);
        out := out + ContourVerbs(ReverseContour(cs[i]));
        i := i + 1;
      }
      assert cs[..i] == cs;
      assert out == ReversePath(verbs);
      verbs := out;
    }
  }

  /** Two valid paths are equal exactly when they have the same fill type and
      the same contours. */
  lemma EqualsMeansSameContours(a: Path, b: Path)
    requires a.Valid() && b.Valid()
    ensures a.Equals(b) <==> a.fillType == b.fillType && Contours(a.verbs) == Contours(b.verbs)
  {
    if Contours(a.verbs) == Contours(b.verbs) {
      assert Flatten(Contours(a.verbs)) == Flatten(Contours(b.verbs));
    }
  }

  class PathPen {
    const path: Path
    const allowOpenPaths: bool

    constructor (path: Path, allowOpenPaths: bool)
      ensures this.path == path && this.allowOpenPaths == allowOpenPaths
    {
      this.path := path;
      this.allowOpenPaths := allowOpenPaths;
    }

    method MoveTo(p: Point)
      requires path.Valid()
      modifies path
      ensures path.Valid() && path.fillType == old(path.fillType)
      ensures (path.verbs, Pass) == Apply(old(path.verbs), PenCall.MoveTo(p), allowOpenPaths)
    {
      path.MoveTo(p);
    }

    method LineTo(p: Point)
      requires path.Valid()
      modifies path
      ensures path.Valid() && path.fillType == old(path.fillType)
      ensures (path.verbs, Pass) == Apply(old(path.verbs), PenCall.LineTo(p), allowOpenPaths)
    {
      path.LineTo(p);
    }

    method CurveTo(c1: Point, c2: Point, p: Point)
      requires path.Valid()
      modifies path
      ensures path.Valid() && path.fillType == old(path.fillType)
      ensures (path.verbs, Pass) == Apply(old(path.verbs), PenCall.CurveTo(c1, c2, p), allowOpenPaths)
    {
      path.CubicTo(c1, c2, p);
    }

    /** A TrueType spline recorded one atomic quadratic at a time, each ending
        at the implied on-curve point between consecutive controls. */
    method QCurveTo(pts: seq<Point>) returns (o: Outcome)
      requires path.Valid()
      modifies path
      ensures path.Valid() && path.fillType == old(path.fillType)
      ensures (path.verbs, o) == Apply(old(path.verbs), PenCall.QCurveTo(pts), allowOpenPaths)
    {
      if |pts| < 2 {
        return Fail(ShortSpline);
      }
      ghost var v0 := path.verbs;
      var i := 0;
      while i < |pts| - 1
        invariant 0 <= i <= |pts| - 1
        invariant path.Valid() && path.fillType == old(path.fillType)
        invariant path.verbs == AddSegments(v0, Decompose(pts)[..i])
      {
        var on := if i == |pts| - 2 then pts[i + 1] else Mid(pts[i], pts[i + 1]);
        AddSegmentsSnoc(v0, Decompose(pts)[..i], Quad(pts[i], on));
        DecomposePrefix(pts, i);
        path.QuadTo(pts[i], on);
        i := i + 1;
      }
      assert Decompose(pts)[..i] == Decompose(pts);
      o := Pass;
    }

    method ClosePath()
      requires path.Valid()
      modifies path
      ensures path.Valid() && path.fillType == old(path.fillType)
      ensures (path.verbs, Pass) == Apply(old(path.verbs), PenCall.ClosePath, allowOpenPaths)
    {
      path.Close();
    }

    /** Ends the contour being drawn as open; raises when the pen does not
        allow open contours. The buffer is not touched. */
    method EndPath() returns (o: Outcome)
      ensures o == Apply(path.verbs, PenCall.EndPath, allowOpenPaths).1
      ensures o.Fail? <==> !allowOpenPaths
    {
      o := if allowOpenPaths then Pass else Fail(OpenPathError);
    }

    /** Pen calls made one after the other; the first call that raises
        stops the sequence. */
    method Play(calls: seq<PenCall>) returns (o: Outcome)
      requires path.Valid()
      modifies path
      ensures path.Valid() && path.fillType == old(path.fillType)
      ensures (path.verbs, o) == Replay(old(path.verbs), calls, allowOpenPaths)
    {
      ghost var w0 := path.verbs;
      var i := 0;
      o := Pass;
      while i < |calls| && o == Pass
        invariant 0 <= i <= |calls|
        invariant path.Valid() && path.fillType == old(path.fillType)
        invariant o == Pass ==>
          Replay(w0, calls, allowOpenPaths) == Replay(path.verbs, calls[i..], allowOpenPaths)
        invariant o.Fail? ==> (path.verbs, o) == Replay(w0, calls, allowOpenPaths)
      {
        assert calls[i..][0] == calls[i] && calls[i..][1..] == calls[i + 1..];
        o := Call(calls[i]);
        i := i + 1;
      }
    }

    /** A pen call given by its name and operands. */
    method Call(c: PenCall) returns (o: Outcome)
      requires path.Valid()
      modifies path
      ensures path.Valid() && path.fillType == old(path.fillType)
      ensures (path.verbs, o) == Apply(old(path.verbs), c, allowOpenPaths)
    {
      match c
      case MoveTo(p) => MoveTo(p); o := Pass;
      case LineTo(p) => LineTo(p); o := Pass;
      case CurveTo(c1, c2, p) => CurveTo(c1, c2, p); o := Pass;
      case QCurveTo(pts) => o := QCurveTo(pts);
      case ClosePath => ClosePath(); o := Pass;
      case EndPath => o := EndPath();
    }
  }
}
