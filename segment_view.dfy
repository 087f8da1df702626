/** The high-level `segments` view of a path: the stored verbs as pen calls,
    with runs of atomic quadratics joined back into TrueType splines, and
    every contour terminated by closePath or endPath. */
module SegmentView {
  import opened Geometry
  import opened PathData
  import opened Recording
  import opened Sequences

  /** Two consecutive atomic quadratics belong to one spline when the on-curve
      point between them is exactly the midpoint of their two controls. */
  predicate Joins(a: Segment, b: Segment) {
    a.Quad? && b.Quad? && a.pt == Mid(a.ctrl, b.ctrl)
  }

  /** The length of the spline that starts at the head of `segs`: the longest
      run of quadratics each joining the next. */
  function QuadRun(segs: seq<Segment>): (k: nat)
    requires segs != [] && segs[0].Quad?
    ensures 1 <= k <= |segs|
    ensures forall i :: 0 <= i < k ==> segs[i].Quad?
    ensures forall i :: 0 <= i < k - 1 ==> Joins(segs[i], segs[i + 1])
    ensures k < |segs| ==> !Joins(segs[k - 1], segs[k])
    decreases |segs|
  {
    if |segs| > 1 && Joins(segs[0], segs[1]) then 1 + QuadRun(segs[1..]) else 1
  }

  /** The controls of a run of quadratics, in order. */
  function RunControls(run: seq<Segment>): (cs: seq<Point>)
    requires forall i :: 0 <= i < |run| ==> run[i].Quad?
    ensures |cs| == |run|
    ensures forall i :: 0 <= i < |run| ==> cs[i] == run[i].ctrl
  {
    if run == [] then [] else [run[0].ctrl] + RunControls(run[1..])
  }

  /** The pen calls of the drawing verbs of one contour: a lineTo per Line,
      a curveTo per Cubic, and one qCurveTo per run of joined quadratics,
      carrying the run's controls and its last on-curve point. */
  function JoinSegments(segs: seq<Segment>): (calls: seq<PenCall>)
    ensures forall i :: 0 <= i < |calls| ==> IsDrawingCall(calls[i])
    decreases |segs|
  {
    if segs == [] then []
    else if segs[0].Line? then [LineTo(segs[0].pt)] + JoinSegments(segs[1..])
    else if segs[0].Cubic? then [CurveTo(segs[0].ctrl1, segs[0].ctrl2, segs[0].pt)] + JoinSegments(segs[1..])
    else
      var k := QuadRun(segs);
      [QCurveTo(RunControls(segs[..k]) + [segs[k - 1].pt])] + JoinSegments(segs[k..])
  }

  /** The `segments` view adds and drops nothing: the calls it reports for a
      contour's drawing verbs expand back into exactly those verbs (in
      particular no closing lineTo is ever reported that was not stored). */
  lemma {:induction false} JoinSegmentsExpands(segs: seq<Segment>)
    ensures ExpandCalls(JoinSegments(segs)) == segs
    decreases |segs|
  {
    if segs != [] {
      var calls := JoinSegments(segs);
      var k := if segs[0].Line? || segs[0].Cubic? then 1 else QuadRun(segs);
      assert calls == [calls[0]] + JoinSegments(segs[k..]);
      assert CallSegments(calls[0]) == segs[..k] by {
        if k == 1 && !segs[0].Quad? {
          assert segs[..1] == [segs[0]];
        } else {
          RunDecomposes(segs);
        }
      }
      assert ExpandCalls([calls[0]]) == CallSegments(calls[0]) by {
        assert [calls[0]][1..] == [];
      }
      JoinSegmentsExpands(segs[k..]);
      ExpandCallsConcat([calls[0]], JoinSegments(segs[k..]));
      SplitAt(segs, k);
    }
  }

  /** The atomic verbs a sequence of drawing calls stores (a call that
      draws nothing contributes none). */
  function ExpandCalls(calls: seq<PenCall>): seq<Segment> {
    if calls == [] then []
    else (if IsDrawingCall(calls[0]) then CallSegments(calls[0]) else []) + ExpandCalls(calls[1..])
  }

  lemma {:induction false} ExpandCallsConcat(a: seq<PenCall>, b: seq<PenCall>)
    requires forall i :: 0 <= i < |a| ==> IsDrawingCall(a[i])
    requires forall i :: 0 <= i < |b| ==> IsDrawingCall(b[i])
    ensures forall i :: 0 <= i < |a + b| ==> IsDrawingCall((a + b)[i])
    ensures ExpandCalls(a + b) == ExpandCalls(a) + ExpandCalls(b)
    decreases |a|
  {
    if a != [] {
      assert (a + b)[1..] == a[1..] + b;
      ExpandCallsConcat(a[1..], b);
    } else {
      assert a + b == b;
    }
  }

  /** The spline reported for a run of joined quadratics decomposes back into
      exactly that run. */
  lemma RunDecomposes(segs: seq<Segment>)
    requires segs != [] && segs[0].Quad?
    ensures var k := QuadRun(segs);
      Decompose(RunControls(segs[..k]) + [segs[k - 1].pt]) == segs[..k]
  {
    var k := QuadRun(segs);
    var pts := RunControls(segs[..k]) + [segs[k - 1].pt];
    var qs := Decompose(pts);
    forall i | 0 <= i < k
      ensures qs[i] == segs[..k][i]
    {
      assert pts[i] == segs[i].ctrl;
      if i < k - 1 {
        assert Joins(segs[i], segs[i + 1]);
        assert pts[i + 1] == segs[i + 1].ctrl;
        assert qs[i].pt == segs[i].pt;
      } else {
        assert qs[i].pt == pts[k];
      }
    }
  }

  /** The run length is determined by where the joining stops. */
  lemma {:induction false} QuadRunIs(segs: seq<Segment>, m: nat)
    requires 1 <= m <= |segs|
    requires forall i :: 0 <= i < m ==> segs[i].Quad?
    requires forall i :: 0 <= i < m - 1 ==> Joins(segs[i], segs[i + 1])
    requires m < |segs| ==> !Joins(segs[m - 1], segs[m])
    ensures QuadRun(segs) == m
    decreases m
  {
    if m > 1 {
      assert Joins(segs[0], segs[1]);
      var rest := segs[1..];
      forall i | 0 <= i < m - 1
        ensures rest[i].Quad?
      {
        assert rest[i] == segs[i + 1];
      }
      forall i | 0 <= i < m - 2
        ensures Joins(rest[i], rest[i + 1])
      {
        assert rest[i] == segs[i + 1] && rest[i + 1] == segs[i + 2];
      }
      if m - 1 < |rest| {
        assert rest[m - 2] == segs[m - 1] && rest[m - 1] == segs[m];
      }
      QuadRunIs(rest, m - 1);
    }
  }

  /** The verbs after a spline do not start with a quadratic joining it: the
      spline's last point is not the midpoint of its last control and the
      next verb's control. */
  predicate SplineEndsBefore(pts: seq<Point>, rest: seq<Segment>)
    requires |pts| >= 2
  {
    rest != [] && rest[0].Quad? ==> pts[|pts| - 1] != Mid(pts[|pts| - 2], rest[0].ctrl)
  }

  /** A spline drawn with qCurveTo is reported back as the same qCurveTo call,
      unless the drawing verb after it is a quadratic whose control has the
      spline's last point as its midpoint with the spline's last control. */
  lemma JoinDecomposed(pts: seq<Point>, rest: seq<Segment>)
    requires |pts| >= 2
    requires SplineEndsBefore(pts, rest)
    ensures JoinSegments(Decompose(pts) + rest) == [QCurveTo(pts)] + JoinSegments(rest)
  {
    var qs := Decompose(pts);
    RunControlsDecompose(pts);
    DecomposedRun(pts, rest);
    JoinRun(qs, rest);
  }

  /** A whole run of joined quadratics at the head is reported as one spline. */
  lemma JoinRun(run: seq<Segment>, rest: seq<Segment>)
    requires run != [] && (run + rest)[0].Quad? && QuadRun(run + rest) == |run|
    ensures forall i :: 0 <= i < |run| ==> run[i].Quad?
    ensures JoinSegments(run + rest) ==
      [QCurveTo(RunControls(run) + [run[|run| - 1].pt])] + JoinSegments(rest)
  {
    var segs := run + rest;
    SplitAppend(run, rest);
    assert segs[|run| - 1] == run[|run| - 1];
    forall i | 0 <= i < |run|
      ensures run[i].Quad?
    {
      assert segs[i] == run[i];
    }
  }

  /** A decomposed spline followed by a verb it does not join is one run. */
  lemma DecomposedRun(pts: seq<Point>, rest: seq<Segment>)
    requires |pts| >= 2
    requires SplineEndsBefore(pts, rest)
    ensures var segs := Decompose(pts) + rest;
      segs[0].Quad? && QuadRun(segs) == |pts| - 1
  {
    var qs := Decompose(pts);
    var segs := qs + rest;
    var m := |qs|;
    forall i | 0 <= i < m
      ensures segs[i].Quad?
    {
      assert segs[i] == qs[i];
    }
    forall i | 0 <= i < m - 1
      ensures Joins(segs[i], segs[i + 1])
    {
      assert segs[i] == qs[i] && segs[i + 1] == qs[i + 1];
    }
    if m < |segs| {
      assert segs[m - 1] == qs[m - 1] && segs[m] == rest[0];
    }
    QuadRunIs(segs, m);
  }

  /** The controls and the last point of a decomposed spline are its points. */
  lemma RunControlsDecompose(pts: seq<Point>)
    requires |pts| >= 2
    ensures RunControls(Decompose(pts)) + [Decompose(pts)[|pts| - 2].pt] == pts
  {
    DecomposeControls(pts);
    SplitLast(pts);
  }

  lemma DecomposeControls(pts: seq<Point>)
    requires |pts| >= 2
    ensures RunControls(Decompose(pts)) == pts[..|pts| - 1]
  {
  }

  /** Two consecutive splines that the `segments` view would report as one:
      the last point of the first is the midpoint of its last control and the
      first control of the second. */
  predicate SplinesJoin(a: PenCall, b: PenCall) {
    && a.QCurveTo? && |a.pts| >= 2
    && b.QCurveTo? && |b.pts| >= 2
    && a.pts[|a.pts| - 1] == Mid(a.pts[|a.pts| - 2], b.pts[0])
  }

  /** The drawing calls the `segments` view reports: lineTo, curveTo and
      qCurveTo with at least two points, no two consecutive splines joining. */
  predicate Canonical(calls: seq<PenCall>) {
    && (forall i :: 0 <= i < |calls| ==> IsDrawingCall(calls[i]))
    && (forall i :: 0 <= i < |calls| - 1 ==> !SplinesJoin(calls[i], calls[i + 1]))
  }

  lemma JoinLine(s: Segment, rest: seq<Segment>)
    requires !s.Quad?
    ensures JoinSegments([s] + rest) ==
      [if s.Line? then LineTo(s.pt) else CurveTo(s.ctrl1, s.ctrl2, s.pt)] + JoinSegments(rest)
  {
    assert ([s] + rest)[0] == s && ([s] + rest)[1..] == rest;
  }

  /** The first atomic verb stored by drawing calls is a quadratic only when
      the first call is a spline, and its control is the spline's first point. */
  lemma StoredHead(rest: seq<PenCall>)
    requires forall i :: 0 <= i < |rest| ==> IsDrawingCall(rest[i])
    ensures ExpandCalls(rest) != [] && ExpandCalls(rest)[0].Quad? ==>
      rest != [] && rest[0].QCurveTo? && ExpandCalls(rest)[0].ctrl == rest[0].pts[0]
  {
    if rest != [] {
      ExpandCallsHead(rest);
      FirstStoredQuad(rest[0]);
    }
  }

  lemma ExpandCallsHead(calls: seq<PenCall>)
    requires calls != []
    requires forall i :: 0 <= i < |calls| ==> IsDrawingCall(calls[i])
    ensures ExpandCalls(calls) != [] && ExpandCalls(calls)[0] == CallSegments(calls[0])[0]
  {
    assert ExpandCalls(calls) == CallSegments(calls[0]) + ExpandCalls(calls[1..]);
  }

  /** The first verb a drawing call stores is a quadratic only for a spline
      of at least two points, and its control is the spline's first point. */
  lemma FirstStoredQuad(c: PenCall)
    requires IsDrawingCall(c)
    ensures CallSegments(c)[0].Quad? ==>
      c.QCurveTo? && |c.pts| >= 2 && CallSegments(c)[0].ctrl == c.pts[0]
  {
  }

  /** The first call reported for a non-empty run of verbs: a spline starting
      at the first verb's control exactly when that verb is a quadratic. */
  lemma JoinHead(segs: seq<Segment>)
    requires segs != []
    ensures var calls := JoinSegments(segs);
      && calls != []
      && (calls[0].QCurveTo? <==> segs[0].Quad?)
      && (segs[0].Quad? ==> |calls[0].pts| >= 2 && calls[0].pts[0] == segs[0].ctrl)
  {
  }

  /** What the `segments` view reports is always of the canonical form. */
  lemma {:induction false} JoinSegmentsCanonical(segs: seq<Segment>)
    ensures Canonical(JoinSegments(segs))
    decreases |segs|
  {
    if segs != [] {
      var calls := JoinSegments(segs);
      var k := if segs[0].Line? || segs[0].Cubic? then 1 else QuadRun(segs);
      var rest := JoinSegments(segs[k..]);
      assert calls == [calls[0]] + rest;
      JoinSegmentsCanonical(segs[k..]);
      if rest != [] && calls[0].QCurveTo? {
        JoinHead(segs[k..]);
        var run := RunControls(segs[..k]);
        assert calls[0].pts == run + [segs[k - 1].pt];
        assert run[k - 1] == segs[k - 1].ctrl;
        assert segs[k..][0] == segs[k];
      }
      forall i | 0 <= i < |calls| - 1
        ensures !SplinesJoin(calls[i], calls[i + 1])
      {
        if i > 0 {
          assert calls[i] == rest[i - 1] && calls[i + 1] == rest[i];
        }
      }
    }
  }

  /** A spline followed by calls it does not join is reported as itself. */
  lemma JoinSplineThen(c: PenCall, rest: seq<PenCall>)
    requires c.QCurveTo? && |c.pts| >= 2
    requires forall i :: 0 <= i < |rest| ==> IsDrawingCall(rest[i])
    requires rest != [] ==> !SplinesJoin(c, rest[0])
    ensures JoinSegments(CallSegments(c) + ExpandCalls(rest)) == [c] + JoinSegments(ExpandCalls(rest))
  {
    SplineThenApart(c, rest);
    JoinSplineCall(c, ExpandCalls(rest));
  }

  lemma JoinSplineCall(c: PenCall, tail: seq<Segment>)
    requires c.QCurveTo? && |c.pts| >= 2 && SplineEndsBefore(c.pts, tail)
    ensures JoinSegments(CallSegments(c) + tail) == [c] + JoinSegments(tail)
  {
    JoinDecomposed(c.pts, tail);
  }

  /** The verbs stored after a spline do not start with a quadratic that
      joins it, when the call after the spline does not join it. */
  lemma SplineThenApart(c: PenCall, rest: seq<PenCall>)
    requires c.QCurveTo? && |c.pts| >= 2
    requires forall i :: 0 <= i < |rest| ==> IsDrawingCall(rest[i])
    requires rest != [] ==> !SplinesJoin(c, rest[0])
    ensures SplineEndsBefore(c.pts, ExpandCalls(rest))
  {
    StoredHead(rest);
    if ExpandCalls(rest) != [] && ExpandCalls(rest)[0].Quad? {
      SplineEndsApart(c, rest[0], ExpandCalls(rest)[0].ctrl);
    }
  }

  lemma SplineEndsApart(a: PenCall, b: PenCall, q: Point)
    requires a.QCurveTo? && |a.pts| >= 2 && b.QCurveTo? && |b.pts| >= 2
    requires q == b.pts[0] && !SplinesJoin(a, b)
    ensures a.pts[|a.pts| - 1] != Mid(a.pts[|a.pts| - 2], q)
  {
  }

  /** Drawing calls of the form the `segments` view reports are reported back
      unchanged: with JoinSegmentsExpands, the view and the pen's storage are
      inverse to each other. */
  lemma {:induction false} CanonicalRoundTrip(calls: seq<PenCall>)
    requires Canonical(calls)
    ensures JoinSegments(ExpandCalls(calls)) == calls
    decreases |calls|
  {
    if calls != [] {
      CanonicalRest(calls);
      CanonicalRoundTrip(calls[1..]);
      RoundTripStep(calls[0], calls[1..]);
      assert [calls[0]] + calls[1..] == calls;
    }
  }

  lemma CanonicalRest(calls: seq<PenCall>)
    requires Canonical(calls) && calls != []
    ensures Canonical(calls[1..])
    ensures |calls| > 1 ==> !SplinesJoin(calls[0], calls[1])
  {
    var rest := calls[1..];
    forall i | 0 <= i < |rest| - 1
      ensures !SplinesJoin(rest[i], rest[i + 1])
    {
      assert rest[i] == calls[i + 1] && rest[i + 1] == calls[i + 2];
    }
  }

  /** One more call in front of calls that the view reports back unchanged
      is reported back too, when it does not join the first of them. */
  lemma RoundTripStep(c: PenCall, rest: seq<PenCall>)
    requires IsDrawingCall(c)
    requires forall i :: 0 <= i < |rest| ==> IsDrawingCall(rest[i])
    requires rest != [] ==> !SplinesJoin(c, rest[0])
    requires JoinSegments(ExpandCalls(rest)) == rest
    ensures forall i :: 0 <= i < |[c] + rest| ==> IsDrawingCall(([c] + rest)[i])
    ensures JoinSegments(ExpandCalls([c] + rest)) == [c] + rest
  {
    var tail := ExpandCalls(rest);
    assert ([c] + rest)[0] == c && ([c] + rest)[1..] == rest;
    assert ExpandCalls([c] + rest) == CallSegments(c) + tail;
    if c.QCurveTo? {
      JoinSplineThen(c, rest);
    } else {
      JoinLine(CallSegments(c)[0], tail);
      assert CallSegments(c) == [CallSegments(c)[0]];
    }
  }

  /** The segments of one contour: its moveTo, its drawing calls, then
      closePath when it is closed and endPath when it is open. */
  function ContourCalls(c: Contour): seq<PenCall> {
    [MoveTo(c.start)] + JoinSegments(c.segs) + [Terminator(c.closed)]
  }

  /** The call that ends a contour's segments: closePath for a closed
      contour, endPath for an open one; it neither draws nor moves. */
  function Terminator(closed: bool): (t: PenCall)
    ensures !IsDrawingCall(t) && !t.MoveTo?
    ensures t.ClosePath? <==> closed
    ensures t.EndPath? <==> !closed
  {
    if closed then ClosePath else EndPath
  }

  /** A contour's segments are its moveTo, drawing calls of the reported
      form that store exactly its verbs, and its terminator. */
  lemma ContourCallsForm(c: Contour)
    ensures var r := ContourCalls(c);
      && |r| >= 2 && r[0] == MoveTo(c.start) && r[|r| - 1] == Terminator(c.closed)
      && Canonical(r[1..|r| - 1])
      && ExpandCalls(r[1..|r| - 1]) == c.segs
  {
    var d := JoinSegments(c.segs);
    var r := ContourCalls(c);
    assert r[1..|r| - 1] == d;
    JoinSegmentsCanonical(c.segs);
    JoinSegmentsExpands(c.segs);
  }

  function CallsOf(cs: seq<Contour>): seq<PenCall> {
    if cs == [] then [] else ContourCalls(cs[0]) + CallsOf(cs[1..])
  }

  /** The `segments` view of a stored path. */
  function SegmentsOf(v: seq<Verb>): seq<PenCall>
    requires WellFormed(v)
  {
    CallsOf(Contours(v))
  }

  /** The view of a stored path is of the reported form, and a default pen
      on a new path records it back into exactly the stored buffer. */
  lemma SegmentsOfForm(v: seq<Verb>)
    requires WellFormed(v)
    ensures ViewForm(SegmentsOf(v))
    ensures Replay([], SegmentsOf(v), true) == (v, Pass)
  {
    ViewFormOfCallsOf(Contours(v));
    ReplayContours([], Contours(v));
    assert [] + v == v;
  }

  /** The number of drawing calls at the head of `calls`. */
  function DrawingRun(calls: seq<PenCall>): (k: nat)
    ensures k <= |calls|
    ensures forall i :: 0 <= i < k ==> IsDrawingCall(calls[i])
    ensures k < |calls| ==> !IsDrawingCall(calls[k])
  {
    if calls == [] || !IsDrawingCall(calls[0]) then 0 else 1 + DrawingRun(calls[1..])
  }

  lemma {:induction false} DrawingRunOfPrefix(d: seq<PenCall>, w: seq<PenCall>)
    requires forall i :: 0 <= i < |d| ==> IsDrawingCall(d[i])
    requires w == [] || !IsDrawingCall(w[0])
    ensures DrawingRun(d + w) == |d|
    decreases |d|
  {
    if d != [] {
      assert (d + w)[0] == d[0] && (d + w)[1..] == d[1..] + w;
      DrawingRunOfPrefix(d[1..], w);
    } else {
      assert d + w == w;
    }
  }

  /** Calls of the form the `segments` view reports: contour after contour,
      each a moveTo, drawing calls no two consecutive splines of which join,
      then closePath or endPath. */
  predicate ViewForm(calls: seq<PenCall>)
    decreases |calls|
  {
    calls == [] ||
    (calls[0].MoveTo? &&
      var k := DrawingRun(calls[1..]);
      && 1 + k < |calls|
      && (calls[1 + k].ClosePath? || calls[1 + k].EndPath?)
      && Canonical(calls[1..1 + k])
      && ViewForm(calls[2 + k..]))
  }

  lemma ViewFormHead(calls: seq<PenCall>)
    requires ViewForm(calls) && calls != []
    ensures var k := DrawingRun(calls[1..]);
      && calls[0].MoveTo? && 1 + k < |calls|
      && (calls[1 + k].ClosePath? || calls[1 + k].EndPath?)
      && Canonical(calls[1..1 + k])
      && ViewForm(calls[2 + k..])
  {
  }

  /** The contours that calls of the reported form describe. */
  function ViewContours(calls: seq<PenCall>): seq<Contour>
    requires ViewForm(calls)
    decreases |calls|
  {
    if calls == [] then []
    else
      var k := DrawingRun(calls[1..]);
      [Contour(calls[0].pt, ExpandCalls(calls[1..1 + k]), calls[1 + k].ClosePath?)]
        + ViewContours(calls[2 + k..])
  }

  /** The view of any contours has the reported form and describes exactly
      those contours. */
  lemma {:induction false} ViewFormOfCallsOf(cs: seq<Contour>)
    ensures ViewForm(CallsOf(cs))
    ensures ViewContours(CallsOf(cs)) == cs
    decreases |cs|
  {
    if cs != [] {
      var c := cs[0];
      var d := JoinSegments(c.segs);
      var t := Terminator(c.closed);
      var rest := CallsOf(cs[1..]);
      var calls := CallsOf(cs);
      assert calls == [MoveTo(c.start)] + d + [t] + rest;
      assert calls[1..] == d + ([t] + rest);
      DrawingRunOfPrefix(d, [t] + rest);
      assert calls[1..1 + |d|] == d;
      assert calls[1 + |d|] == t;
      assert calls[2 + |d|..] == rest;
      JoinSegmentsCanonical(c.segs);
      JoinSegmentsExpands(c.segs);
      ViewFormOfCallsOf(cs[1..]);
      assert [c] + cs[1..] == cs;
    }
  }

  /** Calls of the reported form are the view of the contours they describe. */
  lemma {:induction false} ViewCalls(calls: seq<PenCall>)
    requires ViewForm(calls)
    ensures CallsOf(ViewContours(calls)) == calls
    decreases |calls|
  {
    if calls != [] {
      ViewFormHead(calls);
      var k := DrawingRun(calls[1..]);
      var d := calls[1..1 + k];
      var rest := calls[2 + k..];
      var c := Contour(calls[0].pt, ExpandCalls(d), calls[1 + k].ClosePath?);
      var cs := ViewContours(calls);
      assert cs == [c] + ViewContours(rest);
      assert CallsOf(cs) == ContourCalls(c) + CallsOf(ViewContours(rest)) by {
        assert cs[0] == c && cs[1..] == ViewContours(rest);
      }
      assert ContourCalls(c) == [calls[0]] + d + [calls[1 + k]] by {
        CanonicalRoundTrip(d);
        assert calls[0] == MoveTo(c.start);
        assert Terminator(c.closed) == calls[1 + k];
      }
      ViewCalls(rest);
      SplitBlock(calls, k);
    }
  }

  /** The view is the only sequence of calls of the reported form that a
      default pen on a new path records into the stored buffer. */
  lemma SegmentsUnique(calls: seq<PenCall>, v: seq<Verb>)
    requires ViewForm(calls) && Replay([], calls, true).0 == v
    ensures WellFormed(v)
    ensures SegmentsOf(v) == calls
  {
    var cs := ViewContours(calls);
    ViewCalls(calls);
    ReplayContours([], cs);
    assert [] + Flatten(cs) == Flatten(cs);
    ContoursOfFlatten(cs);
  }

  lemma {:induction false} ReplayConcat(v: seq<Verb>, a: seq<PenCall>, b: seq<PenCall>, allowOpenPaths: bool)
    requires Replay(v, a, allowOpenPaths).1 == Pass
    ensures Replay(v, a + b, allowOpenPaths) == Replay(Replay(v, a, allowOpenPaths).0, b, allowOpenPaths)
    decreases |a|
  {
    if a != [] {
      assert (a + b)[0] == a[0] && (a + b)[1..] == a[1..] + b;
      ReplayConcat(Apply(v, a[0], allowOpenPaths).0, a[1..], b, allowOpenPaths);
    } else {
      assert a + b == b;
    }
  }

  /** A call that does not raise hands its buffer on to the calls after it. */
  lemma ReplayStep(v: seq<Verb>, calls: seq<PenCall>, allowOpenPaths: bool)
    requires calls != [] && Apply(v, calls[0], allowOpenPaths).1 == Pass
    ensures Replay(v, calls, allowOpenPaths) == Replay(Apply(v, calls[0], allowOpenPaths).0, calls[1..], allowOpenPaths)
  {
  }

  /** A drawing call on a contour being drawn appends what it expands to. */
  lemma ApplyDrawing(v: seq<Verb>, call: PenCall, allowOpenPaths: bool)
    requires ContourIsOpen(v) && IsDrawingCall(call)
    ensures Apply(v, call, allowOpenPaths) == (v + CallSegments(call), Pass)
  {
    assert call.QCurveTo? ==> |call.pts| >= 2;
    assert StartContour(v) == v;
  }

  /** Drawing calls on a contour being drawn append what they expand to. */
  lemma {:induction false} ReplayDrawing(v: seq<Verb>, calls: seq<PenCall>, allowOpenPaths: bool)
    requires ContourIsOpen(v)
    requires forall i :: 0 <= i < |calls| ==> IsDrawingCall(calls[i])
    ensures Replay(v, calls, allowOpenPaths) == (v + ExpandCalls(calls), Pass)
    decreases |calls|
  {
    if calls == [] {
      assert v + [] == v;
    } else {
      var ss := CallSegments(calls[0]);
      var w := v + ss;
      assert Replay(v, calls, allowOpenPaths) == Replay(w, calls[1..], allowOpenPaths) by {
        ApplyDrawing(v, calls[0], allowOpenPaths);
        ReplayStep(v, calls, allowOpenPaths);
      }
      assert ContourIsOpen(w) by {
        assert w[|w| - 1] == ss[|ss| - 1];
      }
      ReplayDrawing(w, calls[1..], allowOpenPaths);
      var e := ExpandCalls(calls[1..]);
      assert ExpandCalls(calls) == ss + e;
      AppendAssoc(v, ss, e);
    }
  }

  /** Replaying a contour's segments on a default pen records its verbs. */
  lemma ReplayContour(w: seq<Verb>, c: Contour)
    ensures Replay(w, ContourCalls(c), true) == (w + ContourVerbs(c), Pass)
  {
    JoinSegmentsExpands(c.segs);
    ReplayContourCalls(w, c.start, JoinSegments(c.segs), c.closed);
  }

  /** A moveTo, drawing calls and a terminator on a default pen record one
      contour: the move point, what the calls expand to, closed by closePath
      and left open by endPath. */
  lemma ReplayContourCalls(w: seq<Verb>, start: Point, drawing: seq<PenCall>, closed: bool)
    requires forall i :: 0 <= i < |drawing| ==> IsDrawingCall(drawing[i])
    ensures Replay(w, [MoveTo(start)] + drawing + [Terminator(closed)], true) ==
      (w + ContourVerbs(Contour(start, ExpandCalls(drawing), closed)), Pass)
  {
    var segs := ExpandCalls(drawing);
    var last := Terminator(closed);
    var tail: seq<Verb> := if closed then [Close] else [];
    var u := w + [Move(start)];
    AppendAssoc([MoveTo(start)], drawing, [last]);
    ReplayMove(w, start, drawing + [last]);
    ReplayDrawingThen(u, drawing, [last]);
    ReplayEnd(u + segs, closed);
    AppendAssoc(w, [Move(start)], segs);
    AppendAssoc(w + [Move(start)] + segs, [], tail);
    assert ContourVerbs(Contour(start, segs, closed)) == [Move(start)] + segs + tail;
    AppendAssoc(w, [Move(start)] + segs, tail);
  }

  lemma ReplayMove(w: seq<Verb>, p: Point, calls: seq<PenCall>)
    ensures Replay(w, [MoveTo(p)] + calls, true) == Replay(w + [Move(p)], calls, true)
  {
    assert ([MoveTo(p)] + calls)[1..] == calls;
    ReplayStep(w, [MoveTo(p)] + calls, true);
  }

  lemma ReplayDrawingThen(v: seq<Verb>, calls: seq<PenCall>, rest: seq<PenCall>)
    requires ContourIsOpen(v)
    requires forall i :: 0 <= i < |calls| ==> IsDrawingCall(calls[i])
    ensures Replay(v, calls + rest, true) == Replay(v + ExpandCalls(calls), rest, true)
  {
    ReplayDrawing(v, calls, true);
    ReplayConcat(v, calls, rest, true);
  }

  /** closePath on a contour being drawn closes it; endPath on a default pen
      leaves the buffer as it is. */
  lemma ReplayEnd(x: seq<Verb>, closed: bool)
    requires ContourIsOpen(x)
    ensures Replay(x, [Terminator(closed)], true) ==
      (x + (if closed then [Close] else []), Pass)
  {
    ReplayStep(x, [Terminator(closed)], true);
    if !closed {
      assert x + [] == x;
    }
  }

  lemma {:induction false} ReplayContours(w: seq<Verb>, cs: seq<Contour>)
    ensures Replay(w, CallsOf(cs), true) == (w + Flatten(cs), Pass)
    decreases |cs|
  {
    if cs == [] {
      assert w + [] == w;
    } else {
      ReplayContour(w, cs[0]);
      ReplayConcat(w, ContourCalls(cs[0]), CallsOf(cs[1..]), true);
      ReplayContours(w + ContourVerbs(cs[0]), cs[1..]);
      AppendAssoc(w, ContourVerbs(cs[0]), Flatten(cs[1..]));
    }
  }

  /** Drawing a path's segments onto the default pen of another path appends
      exactly the stored verbs: the view loses nothing, and the joined
      quadratic splines decompose back into the same atomic quadratics. */
  lemma DrawRecordsSameVerbs(w: seq<Verb>, v: seq<Verb>)
    requires WellFormed(v)
    ensures Replay(w, SegmentsOf(v), true) == (w + v, Pass)
  {
    ReplayContours(w, Contours(v));
  }
}
