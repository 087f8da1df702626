/** The stored form of a path: a fill type and a flat buffer of atomic verbs,
    as the underlying Skia path keeps it, and the contour view parsed from it. */
module PathData {
  import opened Geometry
  import opened Sequences

  /** The fill rule; WINDING (non-zero) is the default of a new path. */
  datatype FillType = Winding | EvenOdd | InverseWinding | InverseEvenOdd

  /** An atomic verb of the buffer with the points it adds. There is no verb
      for "end of an open contour": a contour is open when no Close follows it. */
  datatype Verb =
    | Move(pt: Point)
    | Line(pt: Point)
    | Quad(ctrl: Point, pt: Point)
    | Cubic(ctrl1: Point, ctrl2: Point, pt: Point)
    | Close

  predicate IsSegment(v: Verb) {
    v.Line? || v.Quad? || v.Cubic?
  }

  /** A drawing verb: one that ends at an on-curve point `pt`. */
  type Segment = v: Verb | IsSegment(v) witness Line(Origin)

  /** One contour: its move point, its drawing verbs in order, and whether
      a Close terminates it. */
  datatype Contour = Contour(start: Point, segs: seq<Segment>, closed: bool)

  /** The off-curve points of a segment, in drawing order. */
  function Controls(s: Segment): seq<Point> {
    match s
    case Line(_) => []
    case Quad(c, _) => [c]
    case Cubic(c1, c2, _) => [c1, c2]
  }

  /** The points a run of segments adds to the point buffer, in storage order. */
  function SegmentPoints(segs: seq<Segment>): seq<Point> {
    if segs == [] then [] else Controls(segs[0]) + [segs[0].pt] + SegmentPoints(segs[1..])
  }

  /** All points of a contour in storage order, starting with its move point. */
  function Points(c: Contour): seq<Point> {
    [c.start] + SegmentPoints(c.segs)
  }

  /** The verbs that store one contour. */
  function ContourVerbs(c: Contour): (v: seq<Verb>)
    ensures |v| == 1 + |c.segs| + (if c.closed then 1 else 0)
    ensures v[0] == Move(c.start)
    ensures forall i :: 1 <= i <= |c.segs| ==> v[i] == c.segs[i - 1]
    ensures c.closed ==> v[|v| - 1] == Close
  {
    [Move(c.start)] + c.segs + (if c.closed then [Close] else [])
  }

  /** The verb buffer of a sequence of contours. */
  function Flatten(cs: seq<Contour>): seq<Verb> {
    if cs == [] then [] else ContourVerbs(cs[0]) + Flatten(cs[1..])
  }

  /** The buffers a path can hold: empty, or starting with a Move, and with
      every Close followed by a Move unless it is the last verb. */
  predicate WellFormed(v: seq<Verb>) {
    && (v != [] ==> v[0].Move?)
    && forall i :: 0 <= i < |v| - 1 && v[i].Close? ==> v[i + 1].Move?
  }

  /** The number of drawing verbs at the head of `v`. */
  function SegmentRun(v: seq<Verb>): (n: nat)
    ensures n <= |v|
    ensures forall i :: 0 <= i < n ==> IsSegment(v[i])
    ensures n < |v| ==> !IsSegment(v[n])
  {
    if v == [] || !IsSegment(v[0]) then 0 else 1 + SegmentRun(v[1..])
  }

  /** The number of verbs the first contour of a non-empty buffer occupies. */
  function FirstContourLength(v: seq<Verb>): (k: nat)
    requires v != [] && v[0].Move?
    ensures 1 <= k <= |v|
  {
    var n := SegmentRun(v[1..]);
    if 1 + n < |v| && v[1 + n].Close? then n + 2 else n + 1
  }

  /** The first contour of a non-empty buffer. */
  function FirstContour(v: seq<Verb>): (c: Contour)
    requires v != [] && v[0].Move?
    ensures ContourVerbs(c) == v[..FirstContourLength(v)]
  {
    var n := SegmentRun(v[1..]);
    var segs: seq<Segment> := v[1..1 + n];
    Contour(v[0].pt, segs, 1 + n < |v| && v[1 + n].Close?)
  }

  lemma WellFormedRest(v: seq<Verb>)
    requires WellFormed(v) && v != []
    ensures WellFormed(v[FirstContourLength(v)..])
  {
    var k := FirstContourLength(v);
    var n := SegmentRun(v[1..]);
    if k < |v| {
      if k == n + 2 {
        assert v[k - 1].Close?;
      } else {
        assert v[1..][n] == v[k];
      }
    }
  }

  /** The contours of a buffer, in order; flattening them gives the buffer back. */
  function Contours(v: seq<Verb>): (cs: seq<Contour>)
    requires WellFormed(v)
    ensures Flatten(cs) == v
    ensures v == [] <==> cs == []
    decreases |v|
  {
    if v == [] then []
    else
      var k := FirstContourLength(v);
      WellFormedRest(v);
      var rest := Contours(v[k..]);
      FlattenCons(FirstContour(v), rest);
      SplitAt(v, k);
      [FirstContour(v)] + rest
  }

  lemma FlattenCons(c: Contour, cs: seq<Contour>)
    ensures Flatten([c] + cs) == ContourVerbs(c) + Flatten(cs)
  {
    assert ([c] + cs)[1..] == cs;
  }

  lemma {:induction false} SegmentRunOfPrefix(segs: seq<Segment>, w: seq<Verb>)
    requires w == [] || !IsSegment(w[0])
    ensures SegmentRun(segs + w) == |segs|
  {
    if segs != [] {
      assert (segs + w)[1..] == segs[1..] + w;
      SegmentRunOfPrefix(segs[1..], w);
    }
  }

  lemma {:induction false} FlattenStartsWithMove(cs: seq<Contour>)
    ensures cs != [] ==> Flatten(cs)[0] == Move(cs[0].start)
    ensures cs == [] <==> Flatten(cs) == []
  {
  }

  lemma WellFormedAppend(a: seq<Verb>, b: seq<Verb>)
    requires WellFormed(a) && WellFormed(b)
    requires a != [] && b != [] ==> b[0].Move?
    ensures WellFormed(a + b)
  {
    var v := a + b;
    forall i | 0 <= i < |v| - 1 && v[i].Close?
      ensures v[i + 1].Move?
    {
      if i + 1 < |a| {
        assert v[i] == a[i] && v[i + 1] == a[i + 1];
      } else if i + 1 > |a| {
        assert v[i] == b[i - |a|] && v[i + 1] == b[i + 1 - |a|];
      }
    }
  }

  lemma ContourVerbsWellFormed(c: Contour)
    ensures WellFormed(ContourVerbs(c))
  {
    var v := ContourVerbs(c);
    forall i | 0 <= i < |v| - 1
      ensures !v[i].Close?
    {
      if i > 0 {
        assert v[i] == c.segs[i - 1];
      }
    }
  }

  /** The first contour read from a contour's verbs followed by the verbs
      of the next contour is that contour. */
  lemma FirstContourOfVerbs(c: Contour, w: seq<Verb>)
    requires w == [] || w[0].Move?
    ensures FirstContourLength(ContourVerbs(c) + w) == |ContourVerbs(c)|
    ensures FirstContour(ContourVerbs(c) + w) == c
  {
    var v := ContourVerbs(c) + w;
    var tail := (if c.closed then [Close] else []) + w;
    assert v[1..] == c.segs + tail;
    SegmentRunOfPrefix(c.segs, tail);
    assert v[1..1 + |c.segs|] == c.segs;
  }

  /** Parsing the buffer of any sequence of contours gives those contours back,
      and that buffer is one a path can hold. */
  lemma {:induction false} ContoursOfFlatten(cs: seq<Contour>)
    ensures WellFormed(Flatten(cs))
    ensures Contours(Flatten(cs)) == cs
  {
    if cs != [] {
      var c, rest := cs[0], cs[1..];
      ContoursOfFlatten(rest);
      FlattenStartsWithMove(rest);
      var cv := ContourVerbs(c);
      var v := Flatten(cs);
      assert v == cv + Flatten(rest);
      ContourVerbsWellFormed(c);
      WellFormedAppend(cv, Flatten(rest));
      FirstContourOfVerbs(c, Flatten(rest));
      assert v[|cv|..] == Flatten(rest);
      assert Contours(v) == [c] + Contours(Flatten(rest));
    }
  }

  lemma {:induction false} FlattenSnoc(cs: seq<Contour>, c: Contour)
    ensures Flatten(cs + [c]) == Flatten(cs) + ContourVerbs(c)
  {
    if cs == [] {
      assert cs + [c] == [c];
    } else {
      assert (cs + [c])[1..] == cs[1..] + [c];
      FlattenSnoc(cs[1..], c);
    }
  }

  /** The last contour of a non-empty buffer is closed exactly when the
      buffer ends with a Close; the buffer is the verbs of the contours
      before it followed by its own. */
  lemma LastContourClosed(v: seq<Verb>)
    requires WellFormed(v) && v != []
    ensures var cs := Contours(v);
      && cs != []
      && (cs[|cs| - 1].closed <==> v[|v| - 1].Close?)
      && Flatten(cs[..|cs| - 1] + [cs[|cs| - 1]]) == v
  {
    var cs := Contours(v);
    var n := |cs|;
    assert cs == cs[..n - 1] + [cs[n - 1]];
    FlattenSnoc(cs[..n - 1], cs[n - 1]);
    var cv := ContourVerbs(cs[n - 1]);
    assert v[|v| - 1] == cv[|cv| - 1];
    if !cs[n - 1].closed && |cv| > 1 {
      assert cv[|cv| - 1] == cs[n - 1].segs[|cv| - 2];
    }
  }

  lemma ExtendContourVerbs(c: Contour, ss: seq<Segment>)
    requires !c.closed
    ensures ContourVerbs(c.(segs := c.segs + ss)) == ContourVerbs(c) + ss
  {
  }

  lemma CloseContourVerbs(c: Contour)
    requires !c.closed
    ensures ContourVerbs(c.(closed := true)) == ContourVerbs(c) + [Close]
  {
  }

  /** Appending to the last contour's verbs: the parsed contours change in
      their last element only. */
  lemma ContoursReplaceLast(init: seq<Contour>, c: Contour, c': Contour, tail: seq<Verb>)
    requires ContourVerbs(c') == ContourVerbs(c) + tail
    ensures WellFormed(Flatten(init + [c]) + tail)
    ensures Contours(Flatten(init + [c]) + tail) == init + [c']
  {
    FlattenSnoc(init, c);
    FlattenSnoc(init, c');
    assert Flatten(init + [c']) == Flatten(init + [c]) + tail;
    ContoursOfFlatten(init + [c']);
  }
}
