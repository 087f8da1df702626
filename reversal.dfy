/** Reversing the direction of contours: `Path.reverse()`. Every contour is
    drawn backwards from its last on-curve point; its verbs come in reverse
    order, each keeps its kind, its off-curve points are swapped and it ends
    where the verb before it ended; whether the contour is closed is kept. */
module Reversal {
  import opened Geometry
  import opened Sequences
  import opened PathData

  /** The kind of a drawing verb, without its points. */
  datatype SegmentKind = LineKind | QuadKind | CubicKind

  function Kind(s: Segment): SegmentKind {
    match s
    case Line(_) => LineKind
    case Quad(_, _) => QuadKind
    case Cubic(_, _, _) => CubicKind
  }

  /** The kinds of a run of verbs, in order. */
  function Kinds(segs: seq<Segment>): (ks: seq<SegmentKind>)
    ensures |ks| == |segs|
    ensures forall i {:trigger ks[i]} :: 0 <= i < |segs| ==> ks[i] == Kind(segs[i])
  {
    if segs == [] then [] else [Kind(segs[0])] + Kinds(segs[1..])
  }

  /** One verb drawn backwards so that it ends at `e`. */
  function Flip(s: Segment, e: Point): (r: Segment)
    ensures Kind(r) == Kind(s) && r.pt == e
  {
    match s
    case Line(_) => Line(e)
    case Quad(c, _) => Quad(c, e)
    case Cubic(c1, c2, _) => Cubic(c2, c1, e)
  }

  /** A flipped verb passes its control points in the opposite order. */
  lemma FlipControls(s: Segment, e: Point)
    ensures Controls(Flip(s, e)) == Reversed(Controls(s))
  {
    match s
    case Line(_) =>
    case Quad(c, _) =>
    case Cubic(c1, c2, _) =>
      assert Reversed([c1, c2]) == Reversed([c2]) + [c1];
  }

  /** The last on-curve point of a contour: the end of its last verb, or its
      move point when it has none. */
  function EndPoint(start: Point, segs: seq<Segment>): Point {
    if segs == [] then start else segs[|segs| - 1].pt
  }

  /** The verbs of a contour starting at `start`, drawn backwards: the k-th
      reversed verb is the k-th verb from the end, flipped to end where the
      verb before it ended (the first verb is flipped to end at `start`). */
  function ReverseSegments(start: Point, segs: seq<Segment>): (r: seq<Segment>)
    ensures |r| == |segs|
    ensures forall k :: 0 <= k < |segs| ==>
      r[k] == Flip(segs[|segs| - 1 - k], if k == |segs| - 1 then start else segs[|segs| - 2 - k].pt)
    decreases |segs|
  {
    if segs == [] then []
    else
      var front := ReverseSegments(segs[0].pt, segs[1..]);
      ReverseSegmentsStep(start, segs, front);
      front + [Flip(segs[0], start)]
  }

  lemma ReverseSegmentsStep(start: Point, segs: seq<Segment>, front: seq<Segment>)
    requires segs != [] && |front| == |segs| - 1
    requires var rest := segs[1..];
      forall k :: 0 <= k < |rest| ==>
        front[k] == Flip(rest[|rest| - 1 - k], if k == |rest| - 1 then segs[0].pt else rest[|rest| - 2 - k].pt)
    ensures var r := front + [Flip(segs[0], start)];
      forall k :: 0 <= k < |segs| ==>
        r[k] == Flip(segs[|segs| - 1 - k], if k == |segs| - 1 then start else segs[|segs| - 2 - k].pt)
  {
    var rest := segs[1..];
    var r := front + [Flip(segs[0], start)];
    forall k | 0 <= k < |segs|
      ensures r[k] == Flip(segs[|segs| - 1 - k], if k == |segs| - 1 then start else segs[|segs| - 2 - k].pt)
    {
      if k < |rest| {
        assert r[k] == front[k];
        assert rest[|rest| - 1 - k] == segs[|segs| - 1 - k];
        if k < |rest| - 1 {
          assert rest[|rest| - 2 - k] == segs[|segs| - 2 - k];
        }
      }
    }
  }

  /** Reversing two runs of verbs drawn one after the other: the second run
      reversed from where the first ends, then the first run reversed. */
  lemma {:induction false} ReverseSegmentsConcat(start: Point, a: seq<Segment>, b: seq<Segment>)
    ensures ReverseSegments(start, a + b) == ReverseSegments(EndPoint(start, a), b) + ReverseSegments(start, a)
    decreases |a|
  {
    if a == [] {
      assert a + b == b;
    } else {
      var s, rest := a[0], a[1..];
      assert (a + b)[0] == s && (a + b)[1..] == rest + b;
      ReverseSegmentsConcat(s.pt, rest, b);
      assert EndPoint(s.pt, rest) == EndPoint(start, a);
      AppendAssoc(ReverseSegments(EndPoint(start, a), b), ReverseSegments(s.pt, rest), [Flip(s, start)]);
    }
  }

  /** A contour drawn backwards, from its last on-curve point; a contour with
      no drawing verb is its own reversal. */
  function ReverseContour(c: Contour): (r: Contour)
    ensures r.closed == c.closed
    ensures r.start == EndPoint(c.start, c.segs)
    ensures |r.segs| == |c.segs|
    ensures c.segs == [] ==> r == c
  {
    Contour(EndPoint(c.start, c.segs), ReverseSegments(c.start, c.segs), c.closed)
  }

  /** Every contour of a sequence reversed, each in its place. */
  function ReverseAll(cs: seq<Contour>): (rs: seq<Contour>)
    ensures |rs| == |cs|
    ensures forall i :: 0 <= i < |cs| ==> rs[i] == ReverseContour(cs[i])
  {
    if cs == [] then [] else [ReverseContour(cs[0])] + ReverseAll(cs[1..])
  }

  /** Reversing one more contour appends its reversal and its verbs. */
  lemma ReverseAllSnoc(cs: seq<Contour>, i: nat)
    requires i < |cs|
    ensures ReverseAll(cs[..i + 1]) == ReverseAll(cs[..i]) + [ReverseContour(cs[i])]
    ensures Flatten(ReverseAll(cs[..i + 1])) == Flatten(ReverseAll(cs[..i])) + ContourVerbs(ReverseContour(cs[i]))
  {
    assert ReverseAll(cs[..i + 1]) == ReverseAll(cs[..i]) + [ReverseContour(cs[i])];
    FlattenSnoc(ReverseAll(cs[..i]), ReverseContour(cs[i]));
  }

  /** The verb buffer of a path after `reverse()`. */
  function ReversePath(v: seq<Verb>): (r: seq<Verb>)
    requires WellFormed(v)
    ensures WellFormed(r)
    ensures Contours(r) == ReverseAll(Contours(v))
  {
    ContoursOfFlatten(ReverseAll(Contours(v)));
    Flatten(ReverseAll(Contours(v)))
  }

  // Points

  lemma {:induction false} SegmentPointsConcat(a: seq<Segment>, b: seq<Segment>)
    ensures SegmentPoints(a + b) == SegmentPoints(a) + SegmentPoints(b)
  {
    if a == [] {
      assert a + b == b;
    } else {
      assert (a + b)[0] == a[0] && (a + b)[1..] == a[1..] + b;
      SegmentPointsConcat(a[1..], b);
      AppendAssoc(Controls(a[0]) + [a[0].pt], SegmentPoints(a[1..]), SegmentPoints(b));
    }
  }

  lemma SegmentPointsOne(s: Segment)
    ensures SegmentPoints([s]) == Controls(s) + [s.pt]
  {
    assert [s][1..] == [];
  }

  /** The points of the reversed verbs, preceded by the new start, are the
      points of the verbs, preceded by the old start, in reverse order. */
  lemma {:induction false} ReverseSegmentsPoints(start: Point, segs: seq<Segment>)
    ensures [EndPoint(start, segs)] + SegmentPoints(ReverseSegments(start, segs))
      == Reversed([start] + SegmentPoints(segs))
    decreases |segs|
  {
    if segs == [] {
      assert [start] + [] == [start];
    } else {
      var s, rest := segs[0], segs[1..];
      var front := ReverseSegments(s.pt, rest);
      assert ReverseSegments(start, segs) == front + [Flip(s, start)];
      assert EndPoint(start, segs) == EndPoint(s.pt, rest);
      ReverseSegmentsPoints(s.pt, rest);
      SegmentPointsConcat(front, [Flip(s, start)]);
      SegmentPointsOne(Flip(s, start));
      FlipControls(s, start);
      var tail := [s.pt] + SegmentPoints(rest);
      assert [start] + SegmentPoints(segs) == [start] + Controls(s) + tail by {
        AppendAssoc(Controls(s), [s.pt], SegmentPoints(rest));
        AppendAssoc([start], Controls(s), tail);
      }
      ReversedConcat([start] + Controls(s), tail);
      ReversedConcat([start], Controls(s));
      assert Reversed([start]) == [start];
      AppendAssoc([EndPoint(start, segs)], SegmentPoints(front), Reversed(Controls(s)) + [start]);
      AppendAssoc(Reversed(tail), Reversed(Controls(s)), [start]);
    }
  }

  /** The point buffer of a reversed contour is the contour's point buffer
      backwards: no point is added, dropped or changed, duplicates included. */
  lemma ReverseContourPoints(c: Contour)
    ensures Points(ReverseContour(c)) == Reversed(Points(c))
  {
    ReverseSegmentsPoints(c.start, c.segs);
  }

  lemma ReverseContourPointMultiset(c: Contour)
    ensures multiset(Points(ReverseContour(c))) == multiset(Points(c))
  {
    ReverseContourPoints(c);
    ReversedMultiset(Points(c));
  }

  // Kinds

  lemma KindsConcat(a: seq<Segment>, b: seq<Segment>)
    ensures Kinds(a + b) == Kinds(a) + Kinds(b)
  {
    var ab := a + b;
    forall i | 0 <= i < |ab|
      ensures Kinds(ab)[i] == (Kinds(a) + Kinds(b))[i]
    {
      if i < |a| {
        assert ab[i] == a[i];
      } else {
        assert ab[i] == b[i - |a|];
      }
    }
  }

  /** The verb kinds of reversed verbs are their kinds backwards. */
  lemma {:induction false} ReverseSegmentsKinds(start: Point, segs: seq<Segment>)
    ensures Kinds(ReverseSegments(start, segs)) == Reversed(Kinds(segs))
    decreases |segs|
  {
    if segs != [] {
      var ks := Kinds(segs);
      var front := ReverseSegments(segs[0].pt, segs[1..]);
      assert Kinds(front) == Reversed(ks[1..]) by {
        ReverseSegmentsKinds(segs[0].pt, segs[1..]);
        KindsConcat([segs[0]], segs[1..]);
        assert [segs[0]] + segs[1..] == segs;
      }
      assert Kinds(ReverseSegments(start, segs)) == Kinds(front) + [ks[0]] by {
        KindsConcat(front, [Flip(segs[0], start)]);
      }
    }
  }

  /** The verb kinds of a reversed contour are its verb kinds backwards. */
  lemma ReverseContourKinds(c: Contour)
    ensures Kinds(ReverseContour(c).segs) == Reversed(Kinds(c.segs))
  {
    ReverseSegmentsKinds(c.start, c.segs);
  }

  // A contour is determined by its verb kinds, its points and its closedness

  lemma {:induction false} SegmentsDetermined(a: seq<Segment>, b: seq<Segment>)
    requires Kinds(a) == Kinds(b) && SegmentPoints(a) == SegmentPoints(b)
    ensures a == b
    decreases |a|
  {
    if a != [] {
      assert Kind(a[0]) == Kind(b[0]) by {
        assert Kinds(a)[0] == Kinds(b)[0];
      }
      var pa, pb := Controls(a[0]) + [a[0].pt], Controls(b[0]) + [b[0].pt];
      assert |pa| == |pb|;
      var n := |pa|;
      assert SegmentPoints(a)[..n] == pa && SegmentPoints(b)[..n] == pb;
      assert a[0] == b[0] by {
        assert pa[n - 1] == pb[n - 1];
        if a[0].Quad? {
          assert pa[0] == pb[0];
        } else if a[0].Cubic? {
          assert pa[0] == pb[0] && pa[1] == pb[1];
        }
      }
      assert SegmentPoints(a)[n..] == SegmentPoints(a[1..]);
      assert SegmentPoints(b)[n..] == SegmentPoints(b[1..]);
      assert Kinds(a[1..]) == Kinds(a)[1..] && Kinds(b[1..]) == Kinds(b)[1..];
      SegmentsDetermined(a[1..], b[1..]);
      assert a == [a[0]] + a[1..] && b == [b[0]] + b[1..];
    }
  }

  /** Two contours with the same verb kinds, the same point buffer and the
      same closedness are the same contour. */
  lemma ContourDetermined(a: Contour, b: Contour)
    requires Kinds(a.segs) == Kinds(b.segs) && Points(a) == Points(b) && a.closed == b.closed
    ensures a == b
  {
    assert a.start == Points(a)[0] && b.start == Points(b)[0];
    assert SegmentPoints(a.segs) == Points(a)[1..] && SegmentPoints(b.segs) == Points(b)[1..];
    SegmentsDetermined(a.segs, b.segs);
  }

  /** The reversal of a contour is exactly the contour whose point buffer and
      verb kinds are those of the contour backwards and which is closed when
      the contour is. */
  lemma ReverseContourCharacterized(c: Contour, r: Contour)
    ensures r == ReverseContour(c) <==>
      && Points(r) == Reversed(Points(c))
      && Kinds(r.segs) == Reversed(Kinds(c.segs))
      && r.closed == c.closed
  {
    ReverseContourPoints(c);
    ReverseContourKinds(c);
    if Points(r) == Reversed(Points(c)) && Kinds(r.segs) == Reversed(Kinds(c.segs)) && r.closed == c.closed {
      ContourDetermined(r, ReverseContour(c));
    }
  }

  /** Reversing a contour twice gives it back. */
  lemma ReverseContourTwice(c: Contour)
    ensures ReverseContour(ReverseContour(c)) == c
  {
    var r := ReverseContour(c);
    ReverseContourPoints(c);
    ReverseContourPoints(r);
    ReversedTwice(Points(c));
    ReverseContourKinds(c);
    ReverseContourKinds(r);
    ReversedTwice(Kinds(c.segs));
    ContourDetermined(ReverseContour(r), c);
  }

  /** The reversed contour ends at the old move point. */
  lemma ReverseContourEnds(c: Contour)
    ensures EndPoint(ReverseContour(c).start, ReverseContour(c).segs) == c.start
  {
    var r := ReverseContour(c);
    if c.segs != [] {
      assert r.segs[|r.segs| - 1] == Flip(c.segs[0], c.start);
    }
  }

  /** Reversing a path twice gives back its verb buffer. */
  lemma ReversePathTwice(v: seq<Verb>)
    requires WellFormed(v)
    ensures ReversePath(ReversePath(v)) == v
  {
    var cs := Contours(v);
    var rr := ReverseAll(ReverseAll(cs));
    forall i | 0 <= i < |cs|
      ensures rr[i] == cs[i]
    {
      ReverseContourTwice(cs[i]);
    }
    assert rr == cs;
    ContoursOfFlatten(rr);
  }
}
