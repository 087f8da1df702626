/** What a pen call does to the verb buffer of the path it draws on: the
    recording protocol of PathPen over the underlying Skia path. */
module Recording {
  import opened Geometry
  import opened PathData
  import opened Sequences

  /** The pen protocol: one value per pen call, with its operands. The same
      vocabulary names the high-level segments a path reports. */
  datatype PenCall =
    | MoveTo(pt: Point)
    | LineTo(pt: Point)
    | CurveTo(ctrl1: Point, ctrl2: Point, pt: Point)
    | QCurveTo(pts: seq<Point>)
    | ClosePath
    | EndPath

  predicate IsDrawingCall(c: PenCall) {
    c.LineTo? || c.CurveTo? || (c.QCurveTo? && |c.pts| >= 2)
  }

  /** OpenPathError: endPath on a pen that does not allow open contours.
      ShortSpline: qCurveTo called with fewer than two points, which is no
      spline (at least one control and the end point). */
  datatype PenError = OpenPathError | ShortSpline

  datatype Outcome = Pass | Fail(error: PenError)

  /** The point of the last Move in the buffer; the origin when there is none. */
  function LastMovePoint(v: seq<Verb>): Point {
    if v == [] then Origin
    else if v[|v| - 1].Move? then v[|v| - 1].pt
    else LastMovePoint(v[..|v| - 1])
  }

  /** A contour is being drawn: the buffer is not empty and its last contour
      has not been closed. */
  predicate ContourIsOpen(v: seq<Verb>) {
    v != [] && !v[|v| - 1].Close?
  }

  /** The buffer a drawing verb is appended to: unchanged while a contour is
      open; otherwise a Move is injected first, at the origin for an empty path
      and at the start of the contour just closed after a Close. */
  function StartContour(v: seq<Verb>): (w: seq<Verb>)
    ensures ContourIsOpen(w)
    ensures WellFormed(v) ==> WellFormed(w)
  {
    if ContourIsOpen(v) then v
    else
      assert WellFormed(v) ==> WellFormed(v + [Move(LastMovePoint(v))]) by {
        if WellFormed(v) { AppendKeepsWellFormed(v, Move(LastMovePoint(v))); }
      }
      v + [Move(LastMovePoint(v))]
  }

  /** Appends drawing verbs, starting a contour first when none is open. */
  function AddSegments(v: seq<Verb>, ss: seq<Segment>): seq<Verb> {
    if ss == [] then v else StartContour(v) + ss
  }

  /** What drawing verbs leave in the buffer: the old buffer is kept, the
      verbs end it, and between the two at most one Move is injected, at the
      restart point, exactly when no contour was open; a contour is open
      afterwards. Appending nothing changes nothing. */
  lemma AddSegmentsAppends(v: seq<Verb>, ss: seq<Segment>)
    ensures var r := AddSegments(v, ss);
      && (ss == [] ==> r == v)
      && (ss != [] ==> ContourIsOpen(r))
      && (ss != [] ==> |r| == |v| + (if ContourIsOpen(v) then 0 else 1) + |ss|)
      && |v| <= |r| && r[..|v|] == v && r[|r| - |ss|..] == ss
      && (ss != [] && !ContourIsOpen(v) ==> r[|v|] == Move(LastMovePoint(v)))
      && (WellFormed(v) ==> WellFormed(r))
  {
  }

  /** Appends a Close unless the path is empty or already ends with one. */
  function AddClose(v: seq<Verb>): seq<Verb> {
    if ContourIsOpen(v) then v + [Close] else v
  }

  /** What closePath leaves in the buffer: afterwards no contour is open, and
      a Close is the only verb added, exactly when a contour was open. */
  lemma AddCloseCloses(v: seq<Verb>)
    ensures var r := AddClose(v);
      && !ContourIsOpen(r)
      && |r| == |v| + (if ContourIsOpen(v) then 1 else 0)
      && r[..|v|] == v
      && (ContourIsOpen(v) ==> r[|v|] == Close)
      && (WellFormed(v) ==> WellFormed(r))
  {
  }

  /** The restart point is the point of the last Move in the buffer, and
      the origin when the buffer holds no Move. */
  lemma LastMovePointIsLastMove(v: seq<Verb>)
    ensures (forall i :: 0 <= i < |v| ==> !v[i].Move?) ==> LastMovePoint(v) == Origin
    ensures forall i :: 0 <= i < |v| && v[i].Move? && (forall j :: i < j < |v| ==> !v[j].Move?) ==>
      LastMovePoint(v) == v[i].pt
  {
    forall i | 0 <= i < |v| && v[i].Move? && (forall j :: i < j < |v| ==> !v[j].Move?)
      ensures LastMovePoint(v) == v[i].pt
    {
      LastMovePointAt(v, i);
    }
    if forall i :: 0 <= i < |v| ==> !v[i].Move? {
      LastMovePointSkips([], v);
      assert [] + v == v;
    }
  }

  lemma LastMovePointAt(v: seq<Verb>, i: nat)
    requires i < |v| && v[i].Move?
    requires forall j :: i < j < |v| ==> !v[j].Move?
    ensures LastMovePoint(v) == v[i].pt
  {
    var u, tail := v[..i + 1], v[i + 1..];
    forall j | 0 <= j < |tail|
      ensures !tail[j].Move?
    {
      assert tail[j] == v[i + 1 + j];
    }
    LastMovePointSkips(u, tail);
    assert u + tail == v;
    assert u[..i] + [v[i]] == u;
  }

  /** A contour is being drawn exactly when the buffer's last contour is
      open. */
  lemma ContourIsOpenIsLastOpen(v: seq<Verb>)
    requires WellFormed(v)
    ensures ContourIsOpen(v) <==> Contours(v) != [] && !Contours(v)[|Contours(v)| - 1].closed
  {
    if v != [] {
      LastContourClosed(v);
    }
  }

  /** A TrueType quadratic spline p0 .. pn (all but the last point off-curve)
      as n atomic quadratic Beziers: the i-th has control pi and ends at the
      implied on-curve point between pi and p(i+1), the last ends at pn. */
  function Decompose(pts: seq<Point>): (qs: seq<Segment>)
    requires |pts| >= 2
    ensures |qs| == |pts| - 1
    ensures forall i :: 0 <= i < |qs| ==> qs[i].Quad? && qs[i].ctrl == pts[i]
    ensures forall i :: 0 <= i < |qs| - 1 ==> qs[i].pt == Mid(pts[i], pts[i + 1])
    ensures qs[|qs| - 1].pt == pts[|pts| - 1]
  {
    seq(|pts| - 1, i requires 0 <= i < |pts| - 1 =>
      Quad(pts[i], if i == |pts| - 2 then pts[i + 1] else Mid(pts[i], pts[i + 1])))
  }

  /** The first i + 1 atomic quadratics of a spline are the first i and the
      one with control p(i). */
  lemma DecomposePrefix(pts: seq<Point>, i: nat)
    requires 0 <= i < |pts| - 1
    ensures Decompose(pts)[..i + 1] ==
      Decompose(pts)[..i] + [Quad(pts[i], if i == |pts| - 2 then pts[i + 1] else Mid(pts[i], pts[i + 1]))]
  {
    var qs := Decompose(pts);
    assert qs[..i + 1] == qs[..i] + [qs[i]];
  }

  /** The atomic verbs a drawing call stores. */
  function CallSegments(c: PenCall): (ss: seq<Segment>)
    requires IsDrawingCall(c)
    ensures ss != []
  {
    match c
    case LineTo(p) => [Line(p)]
    case CurveTo(c1, c2, p) => [Cubic(c1, c2, p)]
    case QCurveTo(pts) => Decompose(pts)
  }

  /** One pen call on a buffer: the new buffer and whether the call raised.
      A call that raises leaves the buffer as it was. */
  function Apply(v: seq<Verb>, call: PenCall, allowOpenPaths: bool): (r: (seq<Verb>, Outcome))
    ensures WellFormed(v) ==> WellFormed(r.0)
    ensures r.1.Fail? ==> r.0 == v
    ensures r.1 == Fail(OpenPathError) <==> call.EndPath? && !allowOpenPaths
    ensures r.1 == Fail(ShortSpline) <==> call.QCurveTo? && |call.pts| < 2
  {
    match call
    case MoveTo(p) =>
      assert WellFormed(v) ==> WellFormed(v + [Move(p)]) by {
        if WellFormed(v) { AppendKeepsWellFormed(v, Move(p)); }
      }
      (v + [Move(p)], Pass)
    case ClosePath =>
      assert WellFormed(v) ==> WellFormed(AddClose(v)) by {
        if WellFormed(v) && ContourIsOpen(v) { AppendKeepsWellFormed(v, Close); }
      }
      (AddClose(v), Pass)
    case EndPath => (v, if allowOpenPaths then Pass else Fail(OpenPathError))
    case QCurveTo(pts) => if |pts| < 2 then (v, Fail(ShortSpline)) else (Draw(v, call), Pass)
    case _ => (Draw(v, call), Pass)
  }

  /** The buffer after a drawing call. */
  function Draw(v: seq<Verb>, call: PenCall): (w: seq<Verb>)
    requires IsDrawingCall(call)
    ensures WellFormed(v) ==> WellFormed(w)
  {
    var ss := CallSegments(call);
    assert WellFormed(v) ==> WellFormed(AddSegments(v, ss)) by {
      if WellFormed(v) { DrawKeepsWellFormed(StartContour(v), ss); }
    }
    AddSegments(v, ss)
  }

  /** Drawing one more verb after drawing some is drawing them all at once:
      once a contour is open no further Move is injected. */
  lemma AddSegmentsSnoc(v: seq<Verb>, ss: seq<Segment>, s: Segment)
    ensures AddSegments(AddSegments(v, ss), [s]) == AddSegments(v, ss + [s])
  {
    if ss == [] {
      assert ss + [s] == [s];
    } else {
      var u := StartContour(v) + ss;
      assert u[|u| - 1] == ss[|ss| - 1];
      assert StartContour(u) == u;
      AppendAssoc(StartContour(v), ss, [s]);
    }
  }

  lemma DrawKeepsWellFormed(v: seq<Verb>, ss: seq<Segment>)
    requires WellFormed(v) && ContourIsOpen(v)
    ensures WellFormed(v + ss)
  {
    var w := v + ss;
    forall i | 0 <= i < |w| - 1
      ensures w[i].Close? ==> w[i + 1].Move?
    {
      if i < |v| {
        assert w[i] == v[i];
        if i + 1 < |v| {
          assert w[i + 1] == v[i + 1];
        }
      } else {
        assert w[i] == ss[i - |v|];
      }
    }
  }

  lemma AppendKeepsWellFormed(v: seq<Verb>, x: Verb)
    requires WellFormed(v)
    requires !ContourIsOpen(v) ==> x.Move?
    ensures WellFormed(v + [x])
  {
    var w := v + [x];
    forall i | 0 <= i < |w| - 1
      ensures w[i].Close? ==> w[i + 1].Move?
    {
      assert w[i] == v[i];
      if i + 1 < |v| {
        assert w[i + 1] == v[i + 1];
      }
    }
  }

  /** A sequence of pen calls on a buffer; the first call that raises stops
      the sequence, keeping what the earlier calls recorded. */
  function Replay(v: seq<Verb>, calls: seq<PenCall>, allowOpenPaths: bool): (r: (seq<Verb>, Outcome))
    ensures WellFormed(v) ==> WellFormed(r.0)
    decreases |calls|
  {
    if calls == [] then (v, Pass)
    else
      var (w, o) := Apply(v, calls[0], allowOpenPaths);
      if o.Fail? then (w, o) else Replay(w, calls[1..], allowOpenPaths)
  }

  /** The buffer of a new path after the given calls on its default pen. */
  function Record(calls: seq<PenCall>): (r: (seq<Verb>, Outcome))
    ensures WellFormed(r.0)
  {
    Replay([], calls, true)
  }

  lemma {:induction false} LastMovePointSkips(u: seq<Verb>, tail: seq<Verb>)
    requires forall i :: 0 <= i < |tail| ==> !tail[i].Move?
    ensures LastMovePoint(u + tail) == LastMovePoint(u)
  {
    if tail != [] {
      var t := tail[..|tail| - 1];
      assert (u + tail)[|u + tail| - 1] == tail[|tail| - 1];
      assert (u + tail)[..|u + tail| - 1] == u + t;
      LastMovePointSkips(u, t);
    } else {
      assert u + tail == u;
    }
  }

  /** The contours of the buffer after a moveTo: the contour being drawn, if
      any, is left as it is (open unless it was closed) and an empty open
      contour starts at the new point. */
  lemma MoveToStartsContour(v: seq<Verb>, p: Point)
    requires WellFormed(v)
    ensures WellFormed(v + [Move(p)])
    ensures Contours(v + [Move(p)]) == Contours(v) + [Contour(p, [], false)]
  {
    var cs := Contours(v);
    var c := Contour(p, [], false);
    FlattenSnoc(cs, c);
    assert ContourVerbs(c) == [Move(p)];
    assert Flatten(cs + [c]) == v + [Move(p)];
    ContoursOfFlatten(cs + [c]);
  }

  lemma LastMovePointOfContour(u: seq<Verb>, c: Contour)
    ensures LastMovePoint(u + ContourVerbs(c)) == c.start
  {
    var tail: seq<Verb> := c.segs + (if c.closed then [Close] else []);
    var u' := u + [Move(c.start)];
    assert u + ContourVerbs(c) == u' + tail;
    forall i | 0 <= i < |tail|
      ensures !tail[i].Move?
    {
      if i < |c.segs| {
        assert tail[i] == c.segs[i];
      }
    }
    LastMovePointSkips(u', tail);
    assert u'[|u'| - 1] == Move(c.start);
  }

  /** After a Close, a drawing call restarts at the start point of the
      contour just closed. */
  lemma RestartPointIsClosedStart(v: seq<Verb>)
    requires WellFormed(v) && v != [] && v[|v| - 1].Close?
    ensures Contours(v) != []
    ensures LastMovePoint(v) == Contours(v)[|Contours(v)| - 1].start
  {
    LastContourClosed(v);
    var cs := Contours(v);
    var init, c := cs[..|cs| - 1], cs[|cs| - 1];
    FlattenSnoc(init, c);
    LastMovePointOfContour(Flatten(init), c);
  }

  /** The contours of the buffer after drawing verbs: they extend the open
      contour being drawn, or else start a new open contour at the restart
      point. */
  lemma DrawExtendsContour(v: seq<Verb>, ss: seq<Segment>)
    requires WellFormed(v) && ss != []
    ensures WellFormed(AddSegments(v, ss))
    ensures var cs := Contours(v);
      Contours(AddSegments(v, ss)) ==
        if ContourIsOpen(v) then
          cs[..|cs| - 1] + [cs[|cs| - 1].(segs := cs[|cs| - 1].segs + ss)]
        else
          cs + [Contour(LastMovePoint(v), ss, false)]
  {
    var cs := Contours(v);
    if ContourIsOpen(v) {
      LastContourClosed(v);
      var init, c := cs[..|cs| - 1], cs[|cs| - 1];
      ExtendContourVerbs(c, ss);
      ContoursReplaceLast(init, c, c.(segs := c.segs + ss), ss);
    } else {
      DrawStartsContour(v, cs, ss);
    }
  }

  lemma DrawStartsContour(v: seq<Verb>, cs: seq<Contour>, ss: seq<Segment>)
    requires Flatten(cs) == v && !ContourIsOpen(v) && ss != []
    ensures WellFormed(AddSegments(v, ss))
    ensures Contours(AddSegments(v, ss)) == cs + [Contour(LastMovePoint(v), ss, false)]
  {
    var c := Contour(LastMovePoint(v), [], false);
    FlattenSnoc(cs, c);
    assert ContourVerbs(c) == [Move(LastMovePoint(v))];
    assert Flatten(cs + [c]) + ss == AddSegments(v, ss);
    ExtendContourVerbs(c, ss);
    ContoursReplaceLast(cs, c, c.(segs := ss), ss);
  }

  /** The contours of the buffer after closePath: the contour being drawn is
      marked closed; with no contour open nothing changes. */
  lemma ClosePathClosesContour(v: seq<Verb>)
    requires WellFormed(v)
    ensures WellFormed(AddClose(v))
    ensures var cs := Contours(v);
      Contours(AddClose(v)) ==
        if ContourIsOpen(v) then
          cs[..|cs| - 1] + [cs[|cs| - 1].(closed := true)]
        else cs
  {
    if ContourIsOpen(v) {
      var cs := Contours(v);
      LastContourClosed(v);
      var init, c := cs[..|cs| - 1], cs[|cs| - 1];
      CloseContourVerbs(c);
      ContoursReplaceLast(init, c, c.(closed := true), [Close]);
    }
  }
}
