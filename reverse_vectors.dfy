/** The TEST_DATA entries of test_reverse_path: each lists the pen calls
    drawing one contour on a new path and the segments the path reports after
    `reverse()`. Each entry is proved from the reversal rule, one lemma per
    entry, through the recording and the `segments` view.

    Each entry lemma leans on a few helper lemmas of its own (the entry's
    splines, canonical form, stored verbs and reversed contour), each about
    one literal. They are separate on purpose: unfolding a literal spline or
    verb buffer inside the entry lemma, next to the other literals, costs the
    solver several times the resource limit, while each helper alone proves
    in a small context. Helpers shared by entries whose literals coincide are
    declared once. */
module ReverseVectors {
  import opened Geometry
  import opened Sequences
  import opened PathData
  import opened Recording
  import opened SegmentView
  import opened Reversal

  /** A point written as in the entries. */
  function P(x: real, y: real): Point { Point(x, y) }

  /** The pen calls of one contour: its moveTo, its drawing calls and its
      terminator. */
  function OneContour(start: Point, drawing: seq<PenCall>, closed: bool): seq<PenCall> {
    [MoveTo(start)] + drawing + [Terminator(closed)]
  }

  /** The verbs of one contour parse back into that contour alone. */
  lemma ContoursOfOne(c: Contour)
    ensures WellFormed(ContourVerbs(c)) && Contours(ContourVerbs(c)) == [c]
  {
    FlattenCons(c, []);
    assert ContourVerbs(c) + [] == ContourVerbs(c);
    ContoursOfFlatten([c]);
  }

  /** The calls of one contour on a new path's default pen raise nothing and
      store that contour. */
  lemma RecordOneContour(start: Point, drawing: seq<PenCall>, closed: bool)
    requires forall i :: 0 <= i < |drawing| ==> IsDrawingCall(drawing[i])
    ensures Record(OneContour(start, drawing, closed)) == (ContourVerbs(Contour(start, ExpandCalls(drawing), closed)), Pass)
  {
    ReplayContourCalls([], start, drawing, closed);
    assert [] + ContourVerbs(Contour(start, ExpandCalls(drawing), closed)) == ContourVerbs(Contour(start, ExpandCalls(drawing), closed));
  }

  /** Reversing a path of one contour stores that contour reversed. */
  lemma ReversePathOne(c: Contour)
    ensures WellFormed(ContourVerbs(c))
    ensures ReversePath(ContourVerbs(c)) == ContourVerbs(ReverseContour(c))
  {
    ContoursOfOne(c);
    assert ReverseAll([c]) == [ReverseContour(c)];
    FlattenCons(ReverseContour(c), []);
    assert ContourVerbs(ReverseContour(c)) + [] == ContourVerbs(ReverseContour(c));
  }

  /** The view of a path of one contour is that contour's segments. */
  lemma SegmentsOfOne(c: Contour)
    ensures WellFormed(ContourVerbs(c))
    ensures SegmentsOf(ContourVerbs(c)) == ContourCalls(c)
  {
    ContoursOfOne(c);
    assert CallsOf([c]) == ContourCalls(c) + CallsOf([]);
    assert ContourCalls(c) + [] == ContourCalls(c);
  }

  /** The pieces of a sequence of segments, joined in order. */
  function Concat(pieces: seq<seq<Segment>>): (r: seq<Segment>)
  {
    if pieces == [] then [] else pieces[0] + Concat(pieces[1..])
  }

  /** Joining the pieces from the k-th on is the k-th piece followed by the
      rest joined. */
  lemma ConcatStep(pieces: seq<seq<Segment>>, k: nat)
    requires k < |pieces|
    ensures Concat(pieces[k..]) == pieces[k] + Concat(pieces[k + 1..])
  {
    assert pieces[k..][1..] == pieces[k + 1..];
  }

  /** Joining two runs of pieces is joining each and appending. */
  lemma {:induction false} ConcatAppend(a: seq<seq<Segment>>, b: seq<seq<Segment>>)
    ensures Concat(a + b) == Concat(a) + Concat(b)
    decreases |a|
  {
    if a != [] {
      assert (a + b)[1..] == a[1..] + b;
      ConcatAppend(a[1..], b);
    } else {
      assert a + b == b;
    }
  }

  /** Each call of `drawing` is a drawing call storing the matching piece. */
  predicate Stores(drawing: seq<PenCall>, pieces: seq<seq<Segment>>) {
    && |drawing| == |pieces|
    && forall i :: 0 <= i < |drawing| ==> IsDrawingCall(drawing[i]) && CallSegments(drawing[i]) == pieces[i]
  }

  /** Drawing calls storing the given pieces expand to the pieces joined. */
  lemma {:induction false} ExpandStored(drawing: seq<PenCall>, pieces: seq<seq<Segment>>)
    requires Stores(drawing, pieces)
    ensures ExpandCalls(drawing) == Concat(pieces)
    decreases |drawing|
  {
    if drawing != [] {
      assert Stores(drawing[1..], pieces[1..]) by {
        forall i | 0 <= i < |drawing| - 1
          ensures IsDrawingCall(drawing[1..][i]) && CallSegments(drawing[1..][i]) == pieces[1..][i]
        {
          assert drawing[1..][i] == drawing[i + 1] && pieces[1..][i] == pieces[i + 1];
        }
      }
      ExpandStored(drawing[1..], pieces[1..]);
    }
  }

  /** A one-contour recording reverses to a moveTo at `rstart`, the calls
      `rdrawing` and the same terminator, when the calls are of the form
      the `segments` view reports and store the reversed contour. */
  lemma ReverseOneContour(start: Point, drawing: seq<PenCall>, closed: bool, rstart: Point, rdrawing: seq<PenCall>)
    requires forall i :: 0 <= i < |drawing| ==> IsDrawingCall(drawing[i])
    requires Canonical(rdrawing)
    requires ReverseContour(Contour(start, ExpandCalls(drawing), closed)) == Contour(rstart, ExpandCalls(rdrawing), closed)
    ensures Record(OneContour(start, drawing, closed)).1 == Pass
    ensures |Contours(Record(OneContour(start, drawing, closed)).0)| == 1
    ensures SegmentsOf(ReversePath(Record(OneContour(start, drawing, closed)).0)) == OneContour(rstart, rdrawing, closed)
  {
    var c := Contour(start, ExpandCalls(drawing), closed);
    var rc := Contour(rstart, ExpandCalls(rdrawing), closed);
    RecordOneContour(start, drawing, closed);
    ContoursOfOne(c);
    ReversePathOne(c);
    SegmentsOfOne(rc);
    CanonicalRoundTrip(rdrawing);
  }

  /** What test_reverse_path checks of one entry: the operations replay
      without raising onto a new path's default pen, and reversing the path
      gives the expected segments. */
  predicate ReversesTo(operations: seq<PenCall>, expected: seq<PenCall>) {
    && Record(operations).1 == Pass
    && |Contours(Record(operations).0)| <= 1
    && SegmentsOf(ReversePath(Record(operations).0)) == expected
  }

  /** An entry whose operations draw one contour and whose expected segments
      are of the form the `segments` view reports holds when those segments
      store that contour reversed, with the same terminator. */
  lemma ReverseEntry(operations: seq<PenCall>, expected: seq<PenCall>, pieces: seq<seq<Segment>>, rpieces: seq<seq<Segment>>)
    requires |operations| >= 2 && |expected| >= 2
    requires operations[0].MoveTo? && expected[0].MoveTo?
    requires operations[|operations| - 1] == expected[|expected| - 1]
    requires operations[|operations| - 1] == Terminator(operations[|operations| - 1].ClosePath?)
    requires Stores(operations[1..|operations| - 1], pieces)
    requires Stores(expected[1..|expected| - 1], rpieces)
    requires Canonical(expected[1..|expected| - 1])
    requires ReverseContour(Contour(operations[0].pt, Concat(pieces), operations[|operations| - 1].ClosePath?)) ==
      Contour(expected[0].pt, Concat(rpieces), operations[|operations| - 1].ClosePath?)
    ensures ReversesTo(operations, expected)
  {
    var n, m := |operations|, |expected|;
    var closed := operations[n - 1].ClosePath?;
    var drawing, rdrawing := operations[1..n - 1], expected[1..m - 1];
    ExpandStored(drawing, pieces);
    ExpandStored(rdrawing, rpieces);
    SplitEnds(operations);
    SplitEnds(expected);
    ReverseOneContour(operations[0].pt, drawing, closed, expected[0].pt, rdrawing);
  }

  lemma ReverseClosedLinesCanonical(rdrawing: seq<PenCall>)
    requires rdrawing == [LineTo(P(2.0, 2.0)), LineTo(P(1.0, 1.0)), LineTo(P(0.0, 0.0))]
    ensures Canonical(rdrawing)
  {
    assert !SplinesJoin(rdrawing[0], rdrawing[1]);
    assert !SplinesJoin(rdrawing[1], rdrawing[2]);
  }

  lemma ReverseClosedLinesSegments(segs: seq<Segment>, rsegs: seq<Segment>)
    requires segs == [Line(P(1.0, 1.0)), Line(P(2.0, 2.0)), Line(P(3.0, 3.0))]
    requires rsegs == [Line(P(2.0, 2.0)), Line(P(1.0, 1.0)), Line(P(0.0, 0.0))]
    ensures ReverseContour(Contour(P(0.0, 0.0), segs, true)) == Contour(P(3.0, 3.0), rsegs, true)
  {
    var r := ReverseSegments(P(0.0, 0.0), segs);
    forall k | 0 <= k < |rsegs|
      ensures r[k] == rsegs[k]
    {
      if k == 0 {
        assert r[0] == rsegs[0];
      } else if k == 1 {
        assert r[1] == rsegs[1];
      } else {
        assert r[2] == rsegs[2];
      }
    }
    assert r == rsegs;
  }

  lemma ReverseClosedLinesFlat(pieces: seq<seq<Segment>>)
    requires pieces == [[Line(P(1.0, 1.0))], [Line(P(2.0, 2.0))], [Line(P(3.0, 3.0))]]
    ensures Concat(pieces) == [Line(P(1.0, 1.0)), Line(P(2.0, 2.0)), Line(P(3.0, 3.0))]
  {
    assert pieces[3..] == [];
    ConcatStep(pieces, 2);
    assert Concat(pieces[2..]) == [Line(P(3.0, 3.0))];
    ConcatStep(pieces, 1);
    assert Concat(pieces[1..]) == [Line(P(2.0, 2.0)), Line(P(3.0, 3.0))];
    ConcatStep(pieces, 0);
    assert Concat(pieces[0..]) == [Line(P(1.0, 1.0)), Line(P(2.0, 2.0)), Line(P(3.0, 3.0))];
    assert pieces[0..] == pieces;
  }

  lemma ReverseClosedLinesRFlat(pieces: seq<seq<Segment>>)
    requires pieces == [[Line(P(2.0, 2.0))], [Line(P(1.0, 1.0))], [Line(P(0.0, 0.0))]]
    ensures Concat(pieces) == [Line(P(2.0, 2.0)), Line(P(1.0, 1.0)), Line(P(0.0, 0.0))]
  {
    assert pieces[3..] == [];
    ConcatStep(pieces, 2);
    assert Concat(pieces[2..]) == [Line(P(0.0, 0.0))];
    ConcatStep(pieces, 1);
    assert Concat(pieces[1..]) == [Line(P(1.0, 1.0)), Line(P(0.0, 0.0))];
    ConcatStep(pieces, 0);
    assert Concat(pieces[0..]) == [Line(P(2.0, 2.0)), Line(P(1.0, 1.0)), Line(P(0.0, 0.0))];
    assert pieces[0..] == pieces;
  }

  lemma ReverseClosedLinesContour(pieces: seq<seq<Segment>>, rpieces: seq<seq<Segment>>)
    requires pieces == [[Line(P(1.0, 1.0))], [Line(P(2.0, 2.0))], [Line(P(3.0, 3.0))]]
    requires rpieces == [[Line(P(2.0, 2.0))], [Line(P(1.0, 1.0))], [Line(P(0.0, 0.0))]]
    ensures ReverseContour(Contour(P(0.0, 0.0), Concat(pieces), true)) == Contour(P(3.0, 3.0), Concat(rpieces), true)
  {
    ReverseClosedLinesFlat(pieces);
    ReverseClosedLinesRFlat(rpieces);
    ReverseClosedLinesSegments(Concat(pieces), Concat(rpieces));
  }

  /** The entry at tests/pathops_test.py:185-200. */
  lemma ReverseClosedLines(operations: seq<PenCall>, expected: seq<PenCall>)
    requires operations == [MoveTo(P(0.0, 0.0)), LineTo(P(1.0, 1.0)), LineTo(P(2.0, 2.0)), LineTo(P(3.0, 3.0)), ClosePath]
    requires expected == [MoveTo(P(3.0, 3.0)), LineTo(P(2.0, 2.0)), LineTo(P(1.0, 1.0)), LineTo(P(0.0, 0.0)), ClosePath]
    ensures ReversesTo(operations, expected)
  {
    var pieces := [[Line(P(1.0, 1.0))], [Line(P(2.0, 2.0))], [Line(P(3.0, 3.0))]];
    var rpieces := [[Line(P(2.0, 2.0))], [Line(P(1.0, 1.0))], [Line(P(0.0, 0.0))]];
    assert Stores(operations[1..|operations| - 1], pieces);
    assert Stores(expected[1..|expected| - 1], rpieces);
    ReverseClosedLinesCanonical(expected[1..|expected| - 1]);
    ReverseClosedLinesContour(pieces, rpieces);
    ReverseEntry(operations, expected, pieces, rpieces);
  }

  lemma ReverseClosedLinesBackToStartSegments(segs: seq<Segment>, rsegs: seq<Segment>)
    requires segs == [Line(P(1.0, 1.0)), Line(P(2.0, 2.0)), Line(P(0.0, 0.0))]
    requires rsegs == [Line(P(2.0, 2.0)), Line(P(1.0, 1.0)), Line(P(0.0, 0.0))]
    ensures ReverseContour(Contour(P(0.0, 0.0), segs, true)) == Contour(P(0.0, 0.0), rsegs, true)
  {
    var r := ReverseSegments(P(0.0, 0.0), segs);
    forall k | 0 <= k < |rsegs|
      ensures r[k] == rsegs[k]
    {
      if k == 0 {
        assert r[0] == rsegs[0];
      } else if k == 1 {
        assert r[1] == rsegs[1];
      } else {
        assert r[2] == rsegs[2];
      }
    }
    assert r == rsegs;
  }

  lemma ReverseClosedLinesBackToStartFlat(pieces: seq<seq<Segment>>)
    requires pieces == [[Line(P(1.0, 1.0))], [Line(P(2.0, 2.0))], [Line(P(0.0, 0.0))]]
    ensures Concat(pieces) == [Line(P(1.0, 1.0)), Line(P(2.0, 2.0)), Line(P(0.0, 0.0))]
  {
    assert pieces[3..] == [];
    ConcatStep(pieces, 2);
    assert Concat(pieces[2..]) == [Line(P(0.0, 0.0))];
    ConcatStep(pieces, 1);
    assert Concat(pieces[1..]) == [Line(P(2.0, 2.0)), Line(P(0.0, 0.0))];
    ConcatStep(pieces, 0);
    assert Concat(pieces[0..]) == [Line(P(1.0, 1.0)), Line(P(2.0, 2.0)), Line(P(0.0, 0.0))];
    assert pieces[0..] == pieces;
  }

  lemma ReverseClosedLinesBackToStartContour(pieces: seq<seq<Segment>>, rpieces: seq<seq<Segment>>)
    requires pieces == [[Line(P(1.0, 1.0))], [Line(P(2.0, 2.0))], [Line(P(0.0, 0.0))]]
    requires rpieces == [[Line(P(2.0, 2.0))], [Line(P(1.0, 1.0))], [Line(P(0.0, 0.0))]]
    ensures ReverseContour(Contour(P(0.0, 0.0), Concat(pieces), true)) == Contour(P(0.0, 0.0), Concat(rpieces), true)
  {
    ReverseClosedLinesBackToStartFlat(pieces);
    ReverseClosedLinesRFlat(rpieces);
    ReverseClosedLinesBackToStartSegments(Concat(pieces), Concat(rpieces));
  }

  /** The entry at tests/pathops_test.py:201-216. */
  lemma ReverseClosedLinesBackToStart(operations: seq<PenCall>, expected: seq<PenCall>)
    requires operations == [MoveTo(P(0.0, 0.0)), LineTo(P(1.0, 1.0)), LineTo(P(2.0, 2.0)), LineTo(P(0.0, 0.0)), ClosePath]
    requires expected == [MoveTo(P(0.0, 0.0)), LineTo(P(2.0, 2.0)), LineTo(P(1.0, 1.0)), LineTo(P(0.0, 0.0)), ClosePath]
    ensures ReversesTo(operations, expected)
  {
    var pieces := [[Line(P(1.0, 1.0))], [Line(P(2.0, 2.0))], [Line(P(0.0, 0.0))]];
    var rpieces := [[Line(P(2.0, 2.0))], [Line(P(1.0, 1.0))], [Line(P(0.0, 0.0))]];
    assert Stores(operations[1..|operations| - 1], pieces);
    assert Stores(expected[1..|expected| - 1], rpieces);
    ReverseClosedLinesCanonical(expected[1..|expected| - 1]);
    ReverseClosedLinesBackToStartContour(pieces, rpieces);
    ReverseEntry(operations, expected, pieces, rpieces);
  }

  lemma ReverseClosedLinesRepeatedStartCanonical(rdrawing: seq<PenCall>)
    requires rdrawing == [LineTo(P(1.0, 1.0)), LineTo(P(0.0, 0.0)), LineTo(P(0.0, 0.0))]
    ensures Canonical(rdrawing)
  {
    assert !SplinesJoin(rdrawing[0], rdrawing[1]);
    assert !SplinesJoin(rdrawing[1], rdrawing[2]);
  }

  lemma ReverseClosedLinesRepeatedStartSegments(segs: seq<Segment>, rsegs: seq<Segment>)
    requires segs == [Line(P(0.0, 0.0)), Line(P(1.0, 1.0)), Line(P(2.0, 2.0))]
    requires rsegs == [Line(P(1.0, 1.0)), Line(P(0.0, 0.0)), Line(P(0.0, 0.0))]
    ensures ReverseContour(Contour(P(0.0, 0.0), segs, true)) == Contour(P(2.0, 2.0), rsegs, true)
  {
    var r := ReverseSegments(P(0.0, 0.0), segs);
    forall k | 0 <= k < |rsegs|
      ensures r[k] == rsegs[k]
    {
      if k == 0 {
        assert r[0] == rsegs[0];
      } else if k == 1 {
        assert r[1] == rsegs[1];
      } else {
        assert r[2] == rsegs[2];
      }
    }
    assert r == rsegs;
  }

  lemma ReverseClosedLinesRepeatedStartFlat(pieces: seq<seq<Segment>>)
    requires pieces == [[Line(P(0.0, 0.0))], [Line(P(1.0, 1.0))], [Line(P(2.0, 2.0))]]
    ensures Concat(pieces) == [Line(P(0.0, 0.0)), Line(P(1.0, 1.0)), Line(P(2.0, 2.0))]
  {
    assert pieces[3..] == [];
    ConcatStep(pieces, 2);
    assert Concat(pieces[2..]) == [Line(P(2.0, 2.0))];
    ConcatStep(pieces, 1);
    assert Concat(pieces[1..]) == [Line(P(1.0, 1.0)), Line(P(2.0, 2.0))];
    ConcatStep(pieces, 0);
    assert Concat(pieces[0..]) == [Line(P(0.0, 0.0)), Line(P(1.0, 1.0)), Line(P(2.0, 2.0))];
    assert pieces[0..] == pieces;
  }

  lemma ReverseClosedLinesRepeatedStartRFlat(pieces: seq<seq<Segment>>)
    requires pieces == [[Line(P(1.0, 1.0))], [Line(P(0.0, 0.0))], [Line(P(0.0, 0.0))]]
    ensures Concat(pieces) == [Line(P(1.0, 1.0)), Line(P(0.0, 0.0)), Line(P(0.0, 0.0))]
  {
    assert pieces[3..] == [];
    ConcatStep(pieces, 2);
    assert Concat(pieces[2..]) == [Line(P(0.0, 0.0))];
    ConcatStep(pieces, 1);
    assert Concat(pieces[1..]) == [Line(P(0.0, 0.0)), Line(P(0.0, 0.0))];
    ConcatStep(pieces, 0);
    assert Concat(pieces[0..]) == [Line(P(1.0, 1.0)), Line(P(0.0, 0.0)), Line(P(0.0, 0.0))];
    assert pieces[0..] == pieces;
  }

  lemma ReverseClosedLinesRepeatedStartContour(pieces: seq<seq<Segment>>, rpieces: seq<seq<Segment>>)
    requires pieces == [[Line(P(0.0, 0.0))], [Line(P(1.0, 1.0))], [Line(P(2.0, 2.0))]]
    requires rpieces == [[Line(P(1.0, 1.0))], [Line(P(0.0, 0.0))], [Line(P(0.0, 0.0))]]
    ensures ReverseContour(Contour(P(0.0, 0.0), Concat(pieces), true)) == Contour(P(2.0, 2.0), Concat(rpieces), true)
  {
    ReverseClosedLinesRepeatedStartFlat(pieces);
    ReverseClosedLinesRepeatedStartRFlat(rpieces);
    ReverseClosedLinesRepeatedStartSegments(Concat(pieces), Concat(rpieces));
  }

  /** The entry at tests/pathops_test.py:217-232. */
  lemma ReverseClosedLinesRepeatedStart(operations: seq<PenCall>, expected: seq<PenCall>)
    requires operations == [MoveTo(P(0.0, 0.0)), LineTo(P(0.0, 0.0)), LineTo(P(1.0, 1.0)), LineTo(P(2.0, 2.0)), ClosePath]
    requires expected == [MoveTo(P(2.0, 2.0)), LineTo(P(1.0, 1.0)), LineTo(P(0.0, 0.0)), LineTo(P(0.0, 0.0)), ClosePath]
    ensures ReversesTo(operations, expected)
  {
    var pieces := [[Line(P(0.0, 0.0))], [Line(P(1.0, 1.0))], [Line(P(2.0, 2.0))]];
    var rpieces := [[Line(P(1.0, 1.0))], [Line(P(0.0, 0.0))], [Line(P(0.0, 0.0))]];
    assert Stores(operations[1..|operations| - 1], pieces);
    assert Stores(expected[1..|expected| - 1], rpieces);
    ReverseClosedLinesRepeatedStartCanonical(expected[1..|expected| - 1]);
    ReverseClosedLinesRepeatedStartContour(pieces, rpieces);
    ReverseEntry(operations, expected, pieces, rpieces);
  }

  lemma ReverseClosedSingleLineCanonical(rdrawing: seq<PenCall>)
    requires rdrawing == [LineTo(P(0.0, 0.0))]
    ensures Canonical(rdrawing)
  {
  }

  lemma ReverseClosedSingleLineSegments(segs: seq<Segment>, rsegs: seq<Segment>)
    requires segs == [Line(P(1.0, 1.0))]
    requires rsegs == [Line(P(0.0, 0.0))]
    ensures ReverseContour(Contour(P(0.0, 0.0), segs, true)) == Contour(P(1.0, 1.0), rsegs, true)
  {
    var r := ReverseSegments(P(0.0, 0.0), segs);
    assert r[0] == rsegs[0];
    assert r == rsegs;
  }

  lemma ReverseClosedSingleLineFlat(pieces: seq<seq<Segment>>)
    requires pieces == [[Line(P(1.0, 1.0))]]
    ensures Concat(pieces) == [Line(P(1.0, 1.0))]
  {
    assert pieces[1..] == [];
    ConcatStep(pieces, 0);
    assert Concat(pieces[0..]) == [Line(P(1.0, 1.0))];
    assert pieces[0..] == pieces;
  }

  lemma ReverseClosedSingleLineRFlat(pieces: seq<seq<Segment>>)
    requires pieces == [[Line(P(0.0, 0.0))]]
    ensures Concat(pieces) == [Line(P(0.0, 0.0))]
  {
    assert pieces[1..] == [];
    ConcatStep(pieces, 0);
    assert Concat(pieces[0..]) == [Line(P(0.0, 0.0))];
    assert pieces[0..] == pieces;
  }

  lemma ReverseClosedSingleLineContour(pieces: seq<seq<Segment>>, rpieces: seq<seq<Segment>>)
    requires pieces == [[Line(P(1.0, 1.0))]]
    requires rpieces == [[Line(P(0.0, 0.0))]]
    ensures ReverseContour(Contour(P(0.0, 0.0), Concat(pieces), true)) == Contour(P(1.0, 1.0), Concat(rpieces), true)
  {
    ReverseClosedSingleLineFlat(pieces);
    ReverseClosedSingleLineRFlat(rpieces);
    ReverseClosedSingleLineSegments(Concat(pieces), Concat(rpieces));
  }

  /** The entry at tests/pathops_test.py:233-244. */
  lemma ReverseClosedSingleLine(operations: seq<PenCall>, expected: seq<PenCall>)
    requires operations == [MoveTo(P(0.0, 0.0)), LineTo(P(1.0, 1.0)), ClosePath]
    requires expected == [MoveTo(P(1.0, 1.0)), LineTo(P(0.0, 0.0)), ClosePath]
    ensures ReversesTo(operations, expected)
  {
    var pieces := [[Line(P(1.0, 1.0))]];
    var rpieces := [[Line(P(0.0, 0.0))]];
    assert Stores(operations[1..|operations| - 1], pieces);
    assert Stores(expected[1..|expected| - 1], rpieces);
    ReverseClosedSingleLineCanonical(expected[1..|expected| - 1]);
    ReverseClosedSingleLineContour(pieces, rpieces);
    ReverseEntry(operations, expected, pieces, rpieces);
  }

  lemma ReverseClosedCurvesBackToStartCanonical(rdrawing: seq<PenCall>)
    requires rdrawing == [CurveTo(P(5.0, 5.0), P(4.0, 4.0), P(3.0, 3.0)), CurveTo(P(2.0, 2.0), P(1.0, 1.0), P(0.0, 0.0))]
    ensures Canonical(rdrawing)
  {
    assert !SplinesJoin(rdrawing[0], rdrawing[1]);
  }

  lemma ReverseClosedCurvesBackToStartSegments(segs: seq<Segment>, rsegs: seq<Segment>)
    requires segs == [Cubic(P(1.0, 1.0), P(2.0, 2.0), P(3.0, 3.0)), Cubic(P(4.0, 4.0), P(5.0, 5.0), P(0.0, 0.0))]
    requires rsegs == [Cubic(P(5.0, 5.0), P(4.0, 4.0), P(3.0, 3.0)), Cubic(P(2.0, 2.0), P(1.0, 1.0), P(0.0, 0.0))]
    ensures ReverseContour(Contour(P(0.0, 0.0), segs, true)) == Contour(P(0.0, 0.0), rsegs, true)
  {
    var r := ReverseSegments(P(0.0, 0.0), segs);
    forall k | 0 <= k < |rsegs|
      ensures r[k] == rsegs[k]
    {
      if k == 0 {
        assert r[0] == rsegs[0];
      } else {
        assert r[1] == rsegs[1];
      }
    }
    assert r == rsegs;
  }

  lemma ReverseClosedCurvesBackToStartFlat(pieces: seq<seq<Segment>>)
    requires pieces == [[Cubic(P(1.0, 1.0), P(2.0, 2.0), P(3.0, 3.0))], [Cubic(P(4.0, 4.0), P(5.0, 5.0), P(0.0, 0.0))]]
    ensures Concat(pieces) == [Cubic(P(1.0, 1.0), P(2.0, 2.0), P(3.0, 3.0)), Cubic(P(4.0, 4.0), P(5.0, 5.0), P(0.0, 0.0))]
  {
    assert pieces[2..] == [];
    ConcatStep(pieces, 1);
    assert Concat(pieces[1..]) == [Cubic(P(4.0, 4.0), P(5.0, 5.0), P(0.0, 0.0))];
    ConcatStep(pieces, 0);
    assert Concat(pieces[0..]) == [Cubic(P(1.0, 1.0), P(2.0, 2.0), P(3.0, 3.0)), Cubic(P(4.0, 4.0), P(5.0, 5.0), P(0.0, 0.0))];
    assert pieces[0..] == pieces;
  }

  lemma ReverseClosedCurvesBackToStartRFlat(pieces: seq<seq<Segment>>)
    requires pieces == [[Cubic(P(5.0, 5.0), P(4.0, 4.0), P(3.0, 3.0))], [Cubic(P(2.0, 2.0), P(1.0, 1.0), P(0.0, 0.0))]]
    ensures Concat(pieces) == [Cubic(P(5.0, 5.0), P(4.0, 4.0), P(3.0, 3.0)), Cubic(P(2.0, 2.0), P(1.0, 1.0), P(0.0, 0.0))]
  {
    assert pieces[2..] == [];
    ConcatStep(pieces, 1);
    assert Concat(pieces[1..]) == [Cubic(P(2.0, 2.0), P(1.0, 1.0), P(0.0, 0.0))];
    ConcatStep(pieces, 0);
    assert Concat(pieces[0..]) == [Cubic(P(5.0, 5.0), P(4.0, 4.0), P(3.0, 3.0)), Cubic(P(2.0, 2.0), P(1.0, 1.0), P(0.0, 0.0))];
    assert pieces[0..] == pieces;
  }

  lemma ReverseClosedCurvesBackToStartContour(pieces: seq<seq<Segment>>, rpieces: seq<seq<Segment>>)
    requires pieces == [[Cubic(P(1.0, 1.0), P(2.0, 2.0), P(3.0, 3.0))], [Cubic(P(4.0, 4.0), P(5.0, 5.0), P(0.0, 0.0))]]
    requires rpieces == [[Cubic(P(5.0, 5.0), P(4.0, 4.0), P(3.0, 3.0))], [Cubic(P(2.0, 2.0), P(1.0, 1.0), P(0.0, 0.0))]]
    ensures ReverseContour(Contour(P(0.0, 0.0), Concat(pieces), true)) == Contour(P(0.0, 0.0), Concat(rpieces), true)
  {
    ReverseClosedCurvesBackToStartFlat(pieces);
    ReverseClosedCurvesBackToStartRFlat(rpieces);
    ReverseClosedCurvesBackToStartSegments(Concat(pieces), Concat(rpieces));
  }

  /** The entry at tests/pathops_test.py:245-258. */
  lemma ReverseClosedCurvesBackToStart(operations: seq<PenCall>, expected: seq<PenCall>)
    requires operations == [MoveTo(P(0.0, 0.0)), CurveTo(P(1.0, 1.0), P(2.0, 2.0), P(3.0, 3.0)), CurveTo(P(4.0, 4.0), P(5.0, 5.0), P(0.0, 0.0)), ClosePath]
    requires expected == [MoveTo(P(0.0, 0.0)), CurveTo(P(5.0, 5.0), P(4.0, 4.0), P(3.0, 3.0)), CurveTo(P(2.0, 2.0), P(1.0, 1.0), P(0.0, 0.0)), ClosePath]
    ensures ReversesTo(operations, expected)
  {
    var pieces := [[Cubic(P(1.0, 1.0), P(2.0, 2.0), P(3.0, 3.0))], [Cubic(P(4.0, 4.0), P(5.0, 5.0), P(0.0, 0.0))]];
    var rpieces := [[Cubic(P(5.0, 5.0), P(4.0, 4.0), P(3.0, 3.0))], [Cubic(P(2.0, 2.0), P(1.0, 1.0), P(0.0, 0.0))]];
    assert Stores(operations[1..|operations| - 1], pieces);
    assert Stores(expected[1..|expected| - 1], rpieces);
    ReverseClosedCurvesBackToStartCanonical(expected[1..|expected| - 1]);
    ReverseClosedCurvesBackToStartContour(pieces, rpieces);
    ReverseEntry(operations, expected, pieces, rpieces);
  }

  lemma ReverseClosedCurvesSegments(segs: seq<Segment>, rsegs: seq<Segment>)
    requires segs == [Cubic(P(1.0, 1.0), P(2.0, 2.0), P(3.0, 3.0)), Cubic(P(4.0, 4.0), P(5.0, 5.0), P(6.0, 6.0))]
    requires rsegs == [Cubic(P(5.0, 5.0), P(4.0, 4.0), P(3.0, 3.0)), Cubic(P(2.0, 2.0), P(1.0, 1.0), P(0.0, 0.0))]
    ensures ReverseContour(Contour(P(0.0, 0.0), segs, true)) == Contour(P(6.0, 6.0), rsegs, true)
  {
    var r := ReverseSegments(P(0.0, 0.0), segs);
    forall k | 0 <= k < |rsegs|
      ensures r[k] == rsegs[k]
    {
      if k == 0 {
        assert r[0] == rsegs[0];
      } else {
        assert r[1] == rsegs[1];
      }
    }
    assert r == rsegs;
  }

  lemma ReverseClosedCurvesFlat(pieces: seq<seq<Segment>>)
    requires pieces == [[Cubic(P(1.0, 1.0), P(2.0, 2.0), P(3.0, 3.0))], [Cubic(P(4.0, 4.0), P(5.0, 5.0), P(6.0, 6.0))]]
    ensures Concat(pieces) == [Cubic(P(1.0, 1.0), P(2.0, 2.0), P(3.0, 3.0)), Cubic(P(4.0, 4.0), P(5.0, 5.0), P(6.0, 6.0))]
  {
    assert pieces[2..] == [];
    ConcatStep(pieces, 1);
    assert Concat(pieces[1..]) == [Cubic(P(4.0, 4.0), P(5.0, 5.0), P(6.0, 6.0))];
    ConcatStep(pieces, 0);
    assert Concat(pieces[0..]) == [Cubic(P(1.0, 1.0), P(2.0, 2.0), P(3.0, 3.0)), Cubic(P(4.0, 4.0), P(5.0, 5.0), P(6.0, 6.0))];
    assert pieces[0..] == pieces;
  }

  lemma ReverseClosedCurvesContour(pieces: seq<seq<Segment>>, rpieces: seq<seq<Segment>>)
    requires pieces == [[Cubic(P(1.0, 1.0), P(2.0, 2.0), P(3.0, 3.0))], [Cubic(P(4.0, 4.0), P(5.0, 5.0), P(6.0, 6.0))]]
    requires rpieces == [[Cubic(P(5.0, 5.0), P(4.0, 4.0), P(3.0, 3.0))], [Cubic(P(2.0, 2.0), P(1.0, 1.0), P(0.0, 0.0))]]
    ensures ReverseContour(Contour(P(0.0, 0.0), Concat(pieces), true)) == Contour(P(6.0, 6.0), Concat(rpieces), true)
  {
    ReverseClosedCurvesFlat(pieces);
    ReverseClosedCurvesBackToStartRFlat(rpieces);
    ReverseClosedCurvesSegments(Concat(pieces), Concat(rpieces));
  }

  /** The entry at tests/pathops_test.py:259-272. */
  lemma ReverseClosedCurves(operations: seq<PenCall>, expected: seq<PenCall>)
    requires operations == [MoveTo(P(0.0, 0.0)), CurveTo(P(1.0, 1.0), P(2.0, 2.0), P(3.0, 3.0)), CurveTo(P(4.0, 4.0), P(5.0, 5.0), P(6.0, 6.0)), ClosePath]
    requires expected == [MoveTo(P(6.0, 6.0)), CurveTo(P(5.0, 5.0), P(4.0, 4.0), P(3.0, 3.0)), CurveTo(P(2.0, 2.0), P(1.0, 1.0), P(0.0, 0.0)), ClosePath]
    ensures ReversesTo(operations, expected)
  {
    var pieces := [[Cubic(P(1.0, 1.0), P(2.0, 2.0), P(3.0, 3.0))], [Cubic(P(4.0, 4.0), P(5.0, 5.0), P(6.0, 6.0))]];
    var rpieces := [[Cubic(P(5.0, 5.0), P(4.0, 4.0), P(3.0, 3.0))], [Cubic(P(2.0, 2.0), P(1.0, 1.0), P(0.0, 0.0))]];
    assert Stores(operations[1..|operations| - 1], pieces);
    assert Stores(expected[1..|expected| - 1], rpieces);
    ReverseClosedCurvesBackToStartCanonical(expected[1..|expected| - 1]);
    ReverseClosedCurvesContour(pieces, rpieces);
    ReverseEntry(operations, expected, pieces, rpieces);
  }

  lemma ReverseClosedLineThenCurvesCanonical(rdrawing: seq<PenCall>)
    requires rdrawing == [CurveTo(P(6.0, 6.0), P(5.0, 5.0), P(4.0, 4.0)), CurveTo(P(3.0, 3.0), P(2.0, 2.0), P(1.0, 1.0)), LineTo(P(0.0, 0.0))]
    ensures Canonical(rdrawing)
  {
    assert !SplinesJoin(rdrawing[0], rdrawing[1]);
    assert !SplinesJoin(rdrawing[1], rdrawing[2]);
  }

  lemma ReverseClosedLineThenCurvesSegments(segs: seq<Segment>, rsegs: seq<Segment>)
    requires segs == [Line(P(1.0, 1.0)), Cubic(P(2.0, 2.0), P(3.0, 3.0), P(4.0, 4.0)), Cubic(P(5.0, 5.0), P(6.0, 6.0), P(7.0, 7.0))]
    requires rsegs == [Cubic(P(6.0, 6.0), P(5.0, 5.0), P(4.0, 4.0)), Cubic(P(3.0, 3.0), P(2.0, 2.0), P(1.0, 1.0)), Line(P(0.0, 0.0))]
    ensures ReverseContour(Contour(P(0.0, 0.0), segs, true)) == Contour(P(7.0, 7.0), rsegs, true)
  {
    var r := ReverseSegments(P(0.0, 0.0), segs);
    forall k | 0 <= k < |rsegs|
      ensures r[k] == rsegs[k]
    {
      if k == 0 {
        assert r[0] == rsegs[0];
      } else if k == 1 {
        assert r[1] == rsegs[1];
      } else {
        assert r[2] == rsegs[2];
      }
    }
    assert r == rsegs;
  }

  lemma ReverseClosedLineThenCurvesFlat(pieces: seq<seq<Segment>>)
    requires pieces == [[Line(P(1.0, 1.0))], [Cubic(P(2.0, 2.0), P(3.0, 3.0), P(4.0, 4.0))], [Cubic(P(5.0, 5.0), P(6.0, 6.0), P(7.0, 7.0))]]
    ensures Concat(pieces) == [Line(P(1.0, 1.0)), Cubic(P(2.0, 2.0), P(3.0, 3.0), P(4.0, 4.0)), Cubic(P(5.0, 5.0), P(6.0, 6.0), P(7.0, 7.0))]
  {
    assert pieces[3..] == [];
    ConcatStep(pieces, 2);
    assert Concat(pieces[2..]) == [Cubic(P(5.0, 5.0), P(6.0, 6.0), P(7.0, 7.0))];
    ConcatStep(pieces, 1);
    assert Concat(pieces[1..]) == [Cubic(P(2.0, 2.0), P(3.0, 3.0), P(4.0, 4.0)), Cubic(P(5.0, 5.0), P(6.0, 6.0), P(7.0, 7.0))];
    ConcatStep(pieces, 0);
    assert Concat(pieces[0..]) == [Line(P(1.0, 1.0)), Cubic(P(2.0, 2.0), P(3.0, 3.0), P(4.0, 4.0)), Cubic(P(5.0, 5.0), P(6.0, 6.0), P(7.0, 7.0))];
    assert pieces[0..] == pieces;
  }

  lemma ReverseClosedLineThenCurvesRFlat(pieces: seq<seq<Segment>>)
    requires pieces == [[Cubic(P(6.0, 6.0), P(5.0, 5.0), P(4.0, 4.0))], [Cubic(P(3.0, 3.0), P(2.0, 2.0), P(1.0, 1.0))], [Line(P(0.0, 0.0))]]
    ensures Concat(pieces) == [Cubic(P(6.0, 6.0), P(5.0, 5.0), P(4.0, 4.0)), Cubic(P(3.0, 3.0), P(2.0, 2.0), P(1.0, 1.0)), Line(P(0.0, 0.0))]
  {
    assert pieces[3..] == [];
    ConcatStep(pieces, 2);
    assert Concat(pieces[2..]) == [Line(P(0.0, 0.0))];
    ConcatStep(pieces, 1);
    assert Concat(pieces[1..]) == [Cubic(P(3.0, 3.0), P(2.0, 2.0), P(1.0, 1.0)), Line(P(0.0, 0.0))];
    ConcatStep(pieces, 0);
    assert Concat(pieces[0..]) == [Cubic(P(6.0, 6.0), P(5.0, 5.0), P(4.0, 4.0)), Cubic(P(3.0, 3.0), P(2.0, 2.0), P(1.0, 1.0)), Line(P(0.0, 0.0))];
    assert pieces[0..] == pieces;
  }

  lemma ReverseClosedLineThenCurvesContour(pieces: seq<seq<Segment>>, rpieces: seq<seq<Segment>>)
    requires pieces == [[Line(P(1.0, 1.0))], [Cubic(P(2.0, 2.0), P(3.0, 3.0), P(4.0, 4.0))], [Cubic(P(5.0, 5.0), P(6.0, 6.0), P(7.0, 7.0))]]
    requires rpieces == [[Cubic(P(6.0, 6.0), P(5.0, 5.0), P(4.0, 4.0))], [Cubic(P(3.0, 3.0), P(2.0, 2.0), P(1.0, 1.0))], [Line(P(0.0, 0.0))]]
    ensures ReverseContour(Contour(P(0.0, 0.0), Concat(pieces), true)) == Contour(P(7.0, 7.0), Concat(rpieces), true)
  {
    ReverseClosedLineThenCurvesFlat(pieces);
    ReverseClosedLineThenCurvesRFlat(rpieces);
    ReverseClosedLineThenCurvesSegments(Concat(pieces), Concat(rpieces));
  }

  /** The entry at tests/pathops_test.py:273-288. */
  lemma ReverseClosedLineThenCurves(operations: seq<PenCall>, expected: seq<PenCall>)
    requires operations == [MoveTo(P(0.0, 0.0)), LineTo(P(1.0, 1.0)), CurveTo(P(2.0, 2.0), P(3.0, 3.0), P(4.0, 4.0)), CurveTo(P(5.0, 5.0), P(6.0, 6.0), P(7.0, 7.0)), ClosePath]
    requires expected == [MoveTo(P(7.0, 7.0)), CurveTo(P(6.0, 6.0), P(5.0, 5.0), P(4.0, 4.0)), CurveTo(P(3.0, 3.0), P(2.0, 2.0), P(1.0, 1.0)), LineTo(P(0.0, 0.0)), ClosePath]
    ensures ReversesTo(operations, expected)
  {
    var pieces := [[Line(P(1.0, 1.0))], [Cubic(P(2.0, 2.0), P(3.0, 3.0), P(4.0, 4.0))], [Cubic(P(5.0, 5.0), P(6.0, 6.0), P(7.0, 7.0))]];
    var rpieces := [[Cubic(P(6.0, 6.0), P(5.0, 5.0), P(4.0, 4.0))], [Cubic(P(3.0, 3.0), P(2.0, 2.0), P(1.0, 1.0))], [Line(P(0.0, 0.0))]];
    assert Stores(operations[1..|operations| - 1], pieces);
    assert Stores(expected[1..|expected| - 1], rpieces);
    ReverseClosedLineThenCurvesCanonical(expected[1..|expected| - 1]);
    ReverseClosedLineThenCurvesContour(pieces, rpieces);
    ReverseEntry(operations, expected, pieces, rpieces);
  }

  lemma ReverseClosedSplinesBackToStartSpline1()
    ensures CallSegments(QCurveTo([P(1.0, 1.0), P(2.5, 2.5)])) == [Quad(P(1.0, 1.0), P(2.5, 2.5))]
  {
  }

  lemma ReverseClosedSplinesBackToStartSpline2()
    ensures CallSegments(QCurveTo([P(3.0, 3.0), P(0.0, 0.0)])) == [Quad(P(3.0, 3.0), P(0.0, 0.0))]
  {
  }

  lemma ReverseClosedSplinesBackToStartSpline3()
    ensures CallSegments(QCurveTo([P(3.0, 3.0), P(2.5, 2.5)])) == [Quad(P(3.0, 3.0), P(2.5, 2.5))]
  {
  }

  lemma ReverseClosedSplinesBackToStartSpline4()
    ensures CallSegments(QCurveTo([P(1.0, 1.0), P(0.0, 0.0)])) == [Quad(P(1.0, 1.0), P(0.0, 0.0))]
  {
  }

  lemma ReverseClosedSplinesBackToStartCanonical(rdrawing: seq<PenCall>)
    requires rdrawing == [QCurveTo([P(3.0, 3.0), P(2.5, 2.5)]), QCurveTo([P(1.0, 1.0), P(0.0, 0.0)])]
    ensures Canonical(rdrawing)
  {
    assert !SplinesJoin(rdrawing[0], rdrawing[1]);
  }

  lemma ReverseClosedSplinesBackToStartSegments(segs: seq<Segment>, rsegs: seq<Segment>)
    requires segs == [Quad(P(1.0, 1.0), P(2.5, 2.5)), Quad(P(3.0, 3.0), P(0.0, 0.0))]
    requires rsegs == [Quad(P(3.0, 3.0), P(2.5, 2.5)), Quad(P(1.0, 1.0), P(0.0, 0.0))]
    ensures ReverseContour(Contour(P(0.0, 0.0), segs, true)) == Contour(P(0.0, 0.0), rsegs, true)
  {
    var r := ReverseSegments(P(0.0, 0.0), segs);
    forall k | 0 <= k < |rsegs|
      ensures r[k] == rsegs[k]
    {
      if k == 0 {
        assert r[0] == rsegs[0];
      } else {
        assert r[1] == rsegs[1];
      }
    }
    assert r == rsegs;
  }

  lemma ReverseClosedSplinesBackToStartFlat(pieces: seq<seq<Segment>>)
    requires pieces == [[Quad(P(1.0, 1.0), P(2.5, 2.5))], [Quad(P(3.0, 3.0), P(0.0, 0.0))]]
    ensures Concat(pieces) == [Quad(P(1.0, 1.0), P(2.5, 2.5)), Quad(P(3.0, 3.0), P(0.0, 0.0))]
  {
    assert pieces[2..] == [];
    ConcatStep(pieces, 1);
    assert Concat(pieces[1..]) == [Quad(P(3.0, 3.0), P(0.0, 0.0))];
    ConcatStep(pieces, 0);
    assert Concat(pieces[0..]) == [Quad(P(1.0, 1.0), P(2.5, 2.5)), Quad(P(3.0, 3.0), P(0.0, 0.0))];
    assert pieces[0..] == pieces;
  }

  lemma ReverseClosedSplinesBackToStartRFlat(pieces: seq<seq<Segment>>)
    requires pieces == [[Quad(P(3.0, 3.0), P(2.5, 2.5))], [Quad(P(1.0, 1.0), P(0.0, 0.0))]]
    ensures Concat(pieces) == [Quad(P(3.0, 3.0), P(2.5, 2.5)), Quad(P(1.0, 1.0), P(0.0, 0.0))]
  {
    assert pieces[2..] == [];
    ConcatStep(pieces, 1);
    assert Concat(pieces[1..]) == [Quad(P(1.0, 1.0), P(0.0, 0.0))];
    ConcatStep(pieces, 0);
    assert Concat(pieces[0..]) == [Quad(P(3.0, 3.0), P(2.5, 2.5)), Quad(P(1.0, 1.0), P(0.0, 0.0))];
    assert pieces[0..] == pieces;
  }

  lemma ReverseClosedSplinesBackToStartContour(pieces: seq<seq<Segment>>, rpieces: seq<seq<Segment>>)
    requires pieces == [[Quad(P(1.0, 1.0), P(2.5, 2.5))], [Quad(P(3.0, 3.0), P(0.0, 0.0))]]
    requires rpieces == [[Quad(P(3.0, 3.0), P(2.5, 2.5))], [Quad(P(1.0, 1.0), P(0.0, 0.0))]]
    ensures ReverseContour(Contour(P(0.0, 0.0), Concat(pieces), true)) == Contour(P(0.0, 0.0), Concat(rpieces), true)
  {
    ReverseClosedSplinesBackToStartFlat(pieces);
    ReverseClosedSplinesBackToStartRFlat(rpieces);
    ReverseClosedSplinesBackToStartSegments(Concat(pieces), Concat(rpieces));
  }

  /** The entry at tests/pathops_test.py:289-302. */
  lemma ReverseClosedSplinesBackToStart(operations: seq<PenCall>, expected: seq<PenCall>)
    requires operations == [MoveTo(P(0.0, 0.0)), QCurveTo([P(1.0, 1.0), P(2.5, 2.5)]), QCurveTo([P(3.0, 3.0), P(0.0, 0.0)]), ClosePath]
    requires expected == [MoveTo(P(0.0, 0.0)), QCurveTo([P(3.0, 3.0), P(2.5, 2.5)]), QCurveTo([P(1.0, 1.0), P(0.0, 0.0)]), ClosePath]
    ensures ReversesTo(operations, expected)
  {
    var pieces := [[Quad(P(1.0, 1.0), P(2.5, 2.5))], [Quad(P(3.0, 3.0), P(0.0, 0.0))]];
    var rpieces := [[Quad(P(3.0, 3.0), P(2.5, 2.5))], [Quad(P(1.0, 1.0), P(0.0, 0.0))]];
    ReverseClosedSplinesBackToStartSpline1();
    ReverseClosedSplinesBackToStartSpline2();
    ReverseClosedSplinesBackToStartSpline3();
    ReverseClosedSplinesBackToStartSpline4();
    assert Stores(operations[1..|operations| - 1], pieces);
    assert Stores(expected[1..|expected| - 1], rpieces);
    ReverseClosedSplinesBackToStartCanonical(expected[1..|expected| - 1]);
    ReverseClosedSplinesBackToStartContour(pieces, rpieces);
    ReverseEntry(operations, expected, pieces, rpieces);
  }

  lemma ReverseClosedSplinesSpline1()
    ensures CallSegments(QCurveTo([P(3.0, 3.0), P(4.0, 4.0)])) == [Quad(P(3.0, 3.0), P(4.0, 4.0))]
  {
  }

  lemma ReverseClosedSplinesSegments(segs: seq<Segment>, rsegs: seq<Segment>)
    requires segs == [Quad(P(1.0, 1.0), P(2.5, 2.5)), Quad(P(3.0, 3.0), P(4.0, 4.0))]
    requires rsegs == [Quad(P(3.0, 3.0), P(2.5, 2.5)), Quad(P(1.0, 1.0), P(0.0, 0.0))]
    ensures ReverseContour(Contour(P(0.0, 0.0), segs, true)) == Contour(P(4.0, 4.0), rsegs, true)
  {
    var r := ReverseSegments(P(0.0, 0.0), segs);
    forall k | 0 <= k < |rsegs|
      ensures r[k] == rsegs[k]
    {
      if k == 0 {
        assert r[0] == rsegs[0];
      } else {
        assert r[1] == rsegs[1];
      }
    }
    assert r == rsegs;
  }

  lemma ReverseClosedSplinesFlat(pieces: seq<seq<Segment>>)
    requires pieces == [[Quad(P(1.0, 1.0), P(2.5, 2.5))], [Quad(P(3.0, 3.0), P(4.0, 4.0))]]
    ensures Concat(pieces) == [Quad(P(1.0, 1.0), P(2.5, 2.5)), Quad(P(3.0, 3.0), P(4.0, 4.0))]
  {
    assert pieces[2..] == [];
    ConcatStep(pieces, 1);
    assert Concat(pieces[1..]) == [Quad(P(3.0, 3.0), P(4.0, 4.0))];
    ConcatStep(pieces, 0);
    assert Concat(pieces[0..]) == [Quad(P(1.0, 1.0), P(2.5, 2.5)), Quad(P(3.0, 3.0), P(4.0, 4.0))];
    assert pieces[0..] == pieces;
  }

  lemma ReverseClosedSplinesContour(pieces: seq<seq<Segment>>, rpieces: seq<seq<Segment>>)
    requires pieces == [[Quad(P(1.0, 1.0), P(2.5, 2.5))], [Quad(P(3.0, 3.0), P(4.0, 4.0))]]
    requires rpieces == [[Quad(P(3.0, 3.0), P(2.5, 2.5))], [Quad(P(1.0, 1.0), P(0.0, 0.0))]]
    ensures ReverseContour(Contour(P(0.0, 0.0), Concat(pieces), true)) == Contour(P(4.0, 4.0), Concat(rpieces), true)
  {
    ReverseClosedSplinesFlat(pieces);
    ReverseClosedSplinesBackToStartRFlat(rpieces);
    ReverseClosedSplinesSegments(Concat(pieces), Concat(rpieces));
  }

  /** The entry at tests/pathops_test.py:303-316. */
  lemma ReverseClosedSplines(operations: seq<PenCall>, expected: seq<PenCall>)
    requires operations == [MoveTo(P(0.0, 0.0)), QCurveTo([P(1.0, 1.0), P(2.5, 2.5)]), QCurveTo([P(3.0, 3.0), P(4.0, 4.0)]), ClosePath]
    requires expected == [MoveTo(P(4.0, 4.0)), QCurveTo([P(3.0, 3.0), P(2.5, 2.5)]), QCurveTo([P(1.0, 1.0), P(0.0, 0.0)]), ClosePath]
    ensures ReversesTo(operations, expected)
  {
    var pieces := [[Quad(P(1.0, 1.0), P(2.5, 2.5))], [Quad(P(3.0, 3.0), P(4.0, 4.0))]];
    var rpieces := [[Quad(P(3.0, 3.0), P(2.5, 2.5))], [Quad(P(1.0, 1.0), P(0.0, 0.0))]];
    ReverseClosedSplinesBackToStartSpline1();
    ReverseClosedSplinesSpline1();
    ReverseClosedSplinesBackToStartSpline3();
    ReverseClosedSplinesBackToStartSpline4();
    assert Stores(operations[1..|operations| - 1], pieces);
    assert Stores(expected[1..|expected| - 1], rpieces);
    ReverseClosedSplinesBackToStartCanonical(expected[1..|expected| - 1]);
    ReverseClosedSplinesContour(pieces, rpieces);
    ReverseEntry(operations, expected, pieces, rpieces);
  }

  lemma ReverseClosedLineThenSplineSpline1()
    ensures CallSegments(QCurveTo([P(2.0, 2.0), P(3.0, 3.0)])) == [Quad(P(2.0, 2.0), P(3.0, 3.0))]
  {
  }

  lemma ReverseClosedLineThenSplineSpline2()
    ensures CallSegments(QCurveTo([P(2.0, 2.0), P(1.0, 1.0)])) == [Quad(P(2.0, 2.0), P(1.0, 1.0))]
  {
  }

  lemma ReverseClosedLineThenSplineCanonical(rdrawing: seq<PenCall>)
    requires rdrawing == [QCurveTo([P(2.0, 2.0), P(1.0, 1.0)]), LineTo(P(0.0, 0.0))]
    ensures Canonical(rdrawing)
  {
    assert !SplinesJoin(rdrawing[0], rdrawing[1]);
  }

  lemma ReverseClosedLineThenSplineSegments(segs: seq<Segment>, rsegs: seq<Segment>)
    requires segs == [Line(P(1.0, 1.0)), Quad(P(2.0, 2.0), P(3.0, 3.0))]
    requires rsegs == [Quad(P(2.0, 2.0), P(1.0, 1.0)), Line(P(0.0, 0.0))]
    ensures ReverseContour(Contour(P(0.0, 0.0), segs, true)) == Contour(P(3.0, 3.0), rsegs, true)
  {
    var r := ReverseSegments(P(0.0, 0.0), segs);
    forall k | 0 <= k < |rsegs|
      ensures r[k] == rsegs[k]
    {
      if k == 0 {
        assert r[0] == rsegs[0];
      } else {
        assert r[1] == rsegs[1];
      }
    }
    assert r == rsegs;
  }

  lemma ReverseClosedLineThenSplineFlat(pieces: seq<seq<Segment>>)
    requires pieces == [[Line(P(1.0, 1.0))], [Quad(P(2.0, 2.0), P(3.0, 3.0))]]
    ensures Concat(pieces) == [Line(P(1.0, 1.0)), Quad(P(2.0, 2.0), P(3.0, 3.0))]
  {
    assert pieces[2..] == [];
    ConcatStep(pieces, 1);
    assert Concat(pieces[1..]) == [Quad(P(2.0, 2.0), P(3.0, 3.0))];
    ConcatStep(pieces, 0);
    assert Concat(pieces[0..]) == [Line(P(1.0, 1.0)), Quad(P(2.0, 2.0), P(3.0, 3.0))];
    assert pieces[0..] == pieces;
  }

  lemma ReverseClosedLineThenSplineRFlat(pieces: seq<seq<Segment>>)
    requires pieces == [[Quad(P(2.0, 2.0), P(1.0, 1.0))], [Line(P(0.0, 0.0))]]
    ensures Concat(pieces) == [Quad(P(2.0, 2.0), P(1.0, 1.0)), Line(P(0.0, 0.0))]
  {
    assert pieces[2..] == [];
    ConcatStep(pieces, 1);
    assert Concat(pieces[1..]) == [Line(P(0.0, 0.0))];
    ConcatStep(pieces, 0);
    assert Concat(pieces[0..]) == [Quad(P(2.0, 2.0), P(1.0, 1.0)), Line(P(0.0, 0.0))];
    assert pieces[0..] == pieces;
  }

  lemma ReverseClosedLineThenSplineContour(pieces: seq<seq<Segment>>, rpieces: seq<seq<Segment>>)
    requires pieces == [[Line(P(1.0, 1.0))], [Quad(P(2.0, 2.0), P(3.0, 3.0))]]
    requires rpieces == [[Quad(P(2.0, 2.0), P(1.0, 1.0))], [Line(P(0.0, 0.0))]]
    ensures ReverseContour(Contour(P(0.0, 0.0), Concat(pieces), true)) == Contour(P(3.0, 3.0), Concat(rpieces), true)
  {
    ReverseClosedLineThenSplineFlat(pieces);
    ReverseClosedLineThenSplineRFlat(rpieces);
    ReverseClosedLineThenSplineSegments(Concat(pieces), Concat(rpieces));
  }

  /** The entry at tests/pathops_test.py:317-330. */
  lemma ReverseClosedLineThenSpline(operations: seq<PenCall>, expected: seq<PenCall>)
    requires operations == [MoveTo(P(0.0, 0.0)), LineTo(P(1.0, 1.0)), QCurveTo([P(2.0, 2.0), P(3.0, 3.0)]), ClosePath]
    requires expected == [MoveTo(P(3.0, 3.0)), QCurveTo([P(2.0, 2.0), P(1.0, 1.0)]), LineTo(P(0.0, 0.0)), ClosePath]
    ensures ReversesTo(operations, expected)
  {
    var pieces := [[Line(P(1.0, 1.0))], [Quad(P(2.0, 2.0), P(3.0, 3.0))]];
    var rpieces := [[Quad(P(2.0, 2.0), P(1.0, 1.0))], [Line(P(0.0, 0.0))]];
    ReverseClosedLineThenSplineSpline1();
    ReverseClosedLineThenSplineSpline2();
    assert Stores(operations[1..|operations| - 1], pieces);
    assert Stores(expected[1..|expected| - 1], rpieces);
    ReverseClosedLineThenSplineCanonical(expected[1..|expected| - 1]);
    ReverseClosedLineThenSplineContour(pieces, rpieces);
    ReverseEntry(operations, expected, pieces, rpieces);
  }

  /** The entry at tests/pathops_test.py:331-333. */
  lemma ReverseEmptyPath(operations: seq<PenCall>, expected: seq<PenCall>)
    requires operations == []
    requires expected == []
    ensures ReversesTo(operations, expected)
  {
  }

  /** The entry at tests/pathops_test.py:334-343. */
  lemma ReverseLoneOpenMove(operations: seq<PenCall>, expected: seq<PenCall>)
    requires operations == [MoveTo(P(0.0, 0.0)), EndPath]
    requires expected == [MoveTo(P(0.0, 0.0)), EndPath]
    ensures ReversesTo(operations, expected)
  {
    ReverseOneContour(P(0.0, 0.0), [], false, P(0.0, 0.0), []);
    assert OneContour(P(0.0, 0.0), [], false) == operations;
    assert OneContour(P(0.0, 0.0), [], false) == expected;
  }

  /** The entry at tests/pathops_test.py:344-353. */
  lemma ReverseLoneClosedMove(operations: seq<PenCall>, expected: seq<PenCall>)
    requires operations == [MoveTo(P(0.0, 0.0)), ClosePath]
    requires expected == [MoveTo(P(0.0, 0.0)), ClosePath]
    ensures ReversesTo(operations, expected)
  {
    ReverseOneContour(P(0.0, 0.0), [], true, P(0.0, 0.0), []);
    assert OneContour(P(0.0, 0.0), [], true) == operations;
    assert OneContour(P(0.0, 0.0), [], true) == expected;
  }

  lemma ReverseOpenLineSegments(segs: seq<Segment>, rsegs: seq<Segment>)
    requires segs == [Line(P(1.0, 1.0))]
    requires rsegs == [Line(P(0.0, 0.0))]
    ensures ReverseContour(Contour(P(0.0, 0.0), segs, false)) == Contour(P(1.0, 1.0), rsegs, false)
  {
    var r := ReverseSegments(P(0.0, 0.0), segs);
    assert r[0] == rsegs[0];
    assert r == rsegs;
  }

  lemma ReverseOpenLineContour(pieces: seq<seq<Segment>>, rpieces: seq<seq<Segment>>)
    requires pieces == [[Line(P(1.0, 1.0))]]
    requires rpieces == [[Line(P(0.0, 0.0))]]
    ensures ReverseContour(Contour(P(0.0, 0.0), Concat(pieces), false)) == Contour(P(1.0, 1.0), Concat(rpieces), false)
  {
    ReverseClosedSingleLineFlat(pieces);
    ReverseClosedSingleLineRFlat(rpieces);
    ReverseOpenLineSegments(Concat(pieces), Concat(rpieces));
  }

  /** The entry at tests/pathops_test.py:354-365. */
  lemma ReverseOpenLine(operations: seq<PenCall>, expected: seq<PenCall>)
    requires operations == [MoveTo(P(0.0, 0.0)), LineTo(P(1.0, 1.0)), EndPath]
    requires expected == [MoveTo(P(1.0, 1.0)), LineTo(P(0.0, 0.0)), EndPath]
    ensures ReversesTo(operations, expected)
  {
    var pieces := [[Line(P(1.0, 1.0))]];
    var rpieces := [[Line(P(0.0, 0.0))]];
    assert Stores(operations[1..|operations| - 1], pieces);
    assert Stores(expected[1..|expected| - 1], rpieces);
    ReverseClosedSingleLineCanonical(expected[1..|expected| - 1]);
    ReverseOpenLineContour(pieces, rpieces);
    ReverseEntry(operations, expected, pieces, rpieces);
  }

  lemma ReverseOpenCurveCanonical(rdrawing: seq<PenCall>)
    requires rdrawing == [CurveTo(P(2.0, 2.0), P(1.0, 1.0), P(0.0, 0.0))]
    ensures Canonical(rdrawing)
  {
  }

  lemma ReverseOpenCurveSegments(segs: seq<Segment>, rsegs: seq<Segment>)
    requires segs == [Cubic(P(1.0, 1.0), P(2.0, 2.0), P(3.0, 3.0))]
    requires rsegs == [Cubic(P(2.0, 2.0), P(1.0, 1.0), P(0.0, 0.0))]
    ensures ReverseContour(Contour(P(0.0, 0.0), segs, false)) == Contour(P(3.0, 3.0), rsegs, false)
  {
    var r := ReverseSegments(P(0.0, 0.0), segs);
    assert r[0] == rsegs[0];
    assert r == rsegs;
  }

  lemma ReverseOpenCurveFlat(pieces: seq<seq<Segment>>)
    requires pieces == [[Cubic(P(1.0, 1.0), P(2.0, 2.0), P(3.0, 3.0))]]
    ensures Concat(pieces) == [Cubic(P(1.0, 1.0), P(2.0, 2.0), P(3.0, 3.0))]
  {
    assert pieces[1..] == [];
    ConcatStep(pieces, 0);
    assert Concat(pieces[0..]) == [Cubic(P(1.0, 1.0), P(2.0, 2.0), P(3.0, 3.0))];
    assert pieces[0..] == pieces;
  }

  lemma ReverseOpenCurveRFlat(pieces: seq<seq<Segment>>)
    requires pieces == [[Cubic(P(2.0, 2.0), P(1.0, 1.0), P(0.0, 0.0))]]
    ensures Concat(pieces) == [Cubic(P(2.0, 2.0), P(1.0, 1.0), P(0.0, 0.0))]
  {
    assert pieces[1..] == [];
    ConcatStep(pieces, 0);
    assert Concat(pieces[0..]) == [Cubic(P(2.0, 2.0), P(1.0, 1.0), P(0.0, 0.0))];
    assert pieces[0..] == pieces;
  }

  lemma ReverseOpenCurveContour(pieces: seq<seq<Segment>>, rpieces: seq<seq<Segment>>)
    requires pieces == [[Cubic(P(1.0, 1.0), P(2.0, 2.0), P(3.0, 3.0))]]
    requires rpieces == [[Cubic(P(2.0, 2.0), P(1.0, 1.0), P(0.0, 0.0))]]
    ensures ReverseContour(Contour(P(0.0, 0.0), Concat(pieces), false)) == Contour(P(3.0, 3.0), Concat(rpieces), false)
  {
    ReverseOpenCurveFlat(pieces);
    ReverseOpenCurveRFlat(rpieces);
    ReverseOpenCurveSegments(Concat(pieces), Concat(rpieces));
  }

  /** The entry at tests/pathops_test.py:366-377. */
  lemma ReverseOpenCurve(operations: seq<PenCall>, expected: seq<PenCall>)
    requires operations == [MoveTo(P(0.0, 0.0)), CurveTo(P(1.0, 1.0), P(2.0, 2.0), P(3.0, 3.0)), EndPath]
    requires expected == [MoveTo(P(3.0, 3.0)), CurveTo(P(2.0, 2.0), P(1.0, 1.0), P(0.0, 0.0)), EndPath]
    ensures ReversesTo(operations, expected)
  {
    var pieces := [[Cubic(P(1.0, 1.0), P(2.0, 2.0), P(3.0, 3.0))]];
    var rpieces := [[Cubic(P(2.0, 2.0), P(1.0, 1.0), P(0.0, 0.0))]];
    assert Stores(operations[1..|operations| - 1], pieces);
    assert Stores(expected[1..|expected| - 1], rpieces);
    ReverseOpenCurveCanonical(expected[1..|expected| - 1]);
    ReverseOpenCurveContour(pieces, rpieces);
    ReverseEntry(operations, expected, pieces, rpieces);
  }

  lemma ReverseOpenCurveThenLineCanonical(rdrawing: seq<PenCall>)
    requires rdrawing == [LineTo(P(3.0, 3.0)), CurveTo(P(2.0, 2.0), P(1.0, 1.0), P(0.0, 0.0))]
    ensures Canonical(rdrawing)
  {
    assert !SplinesJoin(rdrawing[0], rdrawing[1]);
  }

  lemma ReverseOpenCurveThenLineSegments(segs: seq<Segment>, rsegs: seq<Segment>)
    requires segs == [Cubic(P(1.0, 1.0), P(2.0, 2.0), P(3.0, 3.0)), Line(P(4.0, 4.0))]
    requires rsegs == [Line(P(3.0, 3.0)), Cubic(P(2.0, 2.0), P(1.0, 1.0), P(0.0, 0.0))]
    ensures ReverseContour(Contour(P(0.0, 0.0), segs, false)) == Contour(P(4.0, 4.0), rsegs, false)
  {
    var r := ReverseSegments(P(0.0, 0.0), segs);
    forall k | 0 <= k < |rsegs|
      ensures r[k] == rsegs[k]
    {
      if k == 0 {
        assert r[0] == rsegs[0];
      } else {
        assert r[1] == rsegs[1];
      }
    }
    assert r == rsegs;
  }

  lemma ReverseOpenCurveThenLineFlat(pieces: seq<seq<Segment>>)
    requires pieces == [[Cubic(P(1.0, 1.0), P(2.0, 2.0), P(3.0, 3.0))], [Line(P(4.0, 4.0))]]
    ensures Concat(pieces) == [Cubic(P(1.0, 1.0), P(2.0, 2.0), P(3.0, 3.0)), Line(P(4.0, 4.0))]
  {
    assert pieces[2..] == [];
    ConcatStep(pieces, 1);
    assert Concat(pieces[1..]) == [Line(P(4.0, 4.0))];
    ConcatStep(pieces, 0);
    assert Concat(pieces[0..]) == [Cubic(P(1.0, 1.0), P(2.0, 2.0), P(3.0, 3.0)), Line(P(4.0, 4.0))];
    assert pieces[0..] == pieces;
  }

  lemma ReverseOpenCurveThenLineRFlat(pieces: seq<seq<Segment>>)
    requires pieces == [[Line(P(3.0, 3.0))], [Cubic(P(2.0, 2.0), P(1.0, 1.0), P(0.0, 0.0))]]
    ensures Concat(pieces) == [Line(P(3.0, 3.0)), Cubic(P(2.0, 2.0), P(1.0, 1.0), P(0.0, 0.0))]
  {
    assert pieces[2..] == [];
    ConcatStep(pieces, 1);
    assert Concat(pieces[1..]) == [Cubic(P(2.0, 2.0), P(1.0, 1.0), P(0.0, 0.0))];
    ConcatStep(pieces, 0);
    assert Concat(pieces[0..]) == [Line(P(3.0, 3.0)), Cubic(P(2.0, 2.0), P(1.0, 1.0), P(0.0, 0.0))];
    assert pieces[0..] == pieces;
  }

  lemma ReverseOpenCurveThenLineContour(pieces: seq<seq<Segment>>, rpieces: seq<seq<Segment>>)
    requires pieces == [[Cubic(P(1.0, 1.0), P(2.0, 2.0), P(3.0, 3.0))], [Line(P(4.0, 4.0))]]
    requires rpieces == [[Line(P(3.0, 3.0))], [Cubic(P(2.0, 2.0), P(1.0, 1.0), P(0.0, 0.0))]]
    ensures ReverseContour(Contour(P(0.0, 0.0), Concat(pieces), false)) == Contour(P(4.0, 4.0), Concat(rpieces), false)
  {
    ReverseOpenCurveThenLineFlat(pieces);
    ReverseOpenCurveThenLineRFlat(rpieces);
    ReverseOpenCurveThenLineSegments(Concat(pieces), Concat(rpieces));
  }

  /** The entry at tests/pathops_test.py:378-391. */
  lemma ReverseOpenCurveThenLine(operations: seq<PenCall>, expected: seq<PenCall>)
    requires operations == [MoveTo(P(0.0, 0.0)), CurveTo(P(1.0, 1.0), P(2.0, 2.0), P(3.0, 3.0)), LineTo(P(4.0, 4.0)), EndPath]
    requires expected == [MoveTo(P(4.0, 4.0)), LineTo(P(3.0, 3.0)), CurveTo(P(2.0, 2.0), P(1.0, 1.0), P(0.0, 0.0)), EndPath]
    ensures ReversesTo(operations, expected)
  {
    var pieces := [[Cubic(P(1.0, 1.0), P(2.0, 2.0), P(3.0, 3.0))], [Line(P(4.0, 4.0))]];
    var rpieces := [[Line(P(3.0, 3.0))], [Cubic(P(2.0, 2.0), P(1.0, 1.0), P(0.0, 0.0))]];
    assert Stores(operations[1..|operations| - 1], pieces);
    assert Stores(expected[1..|expected| - 1], rpieces);
    ReverseOpenCurveThenLineCanonical(expected[1..|expected| - 1]);
    ReverseOpenCurveThenLineContour(pieces, rpieces);
    ReverseEntry(operations, expected, pieces, rpieces);
  }

  lemma ReverseOpenLineThenCurveCanonical(rdrawing: seq<PenCall>)
    requires rdrawing == [CurveTo(P(3.0, 3.0), P(2.0, 2.0), P(1.0, 1.0)), LineTo(P(0.0, 0.0))]
    ensures Canonical(rdrawing)
  {
    assert !SplinesJoin(rdrawing[0], rdrawing[1]);
  }

  lemma ReverseOpenLineThenCurveSegments(segs: seq<Segment>, rsegs: seq<Segment>)
    requires segs == [Line(P(1.0, 1.0)), Cubic(P(2.0, 2.0), P(3.0, 3.0), P(4.0, 4.0))]
    requires rsegs == [Cubic(P(3.0, 3.0), P(2.0, 2.0), P(1.0, 1.0)), Line(P(0.0, 0.0))]
    ensures ReverseContour(Contour(P(0.0, 0.0), segs, false)) == Contour(P(4.0, 4.0), rsegs, false)
  {
    var r := ReverseSegments(P(0.0, 0.0), segs);
    forall k | 0 <= k < |rsegs|
      ensures r[k] == rsegs[k]
    {
      if k == 0 {
        assert r[0] == rsegs[0];
      } else {
        assert r[1] == rsegs[1];
      }
    }
    assert r == rsegs;
  }

  lemma ReverseOpenLineThenCurveFlat(pieces: seq<seq<Segment>>)
    requires pieces == [[Line(P(1.0, 1.0))], [Cubic(P(2.0, 2.0), P(3.0, 3.0), P(4.0, 4.0))]]
    ensures Concat(pieces) == [Line(P(1.0, 1.0)), Cubic(P(2.0, 2.0), P(3.0, 3.0), P(4.0, 4.0))]
  {
    assert pieces[2..] == [];
    ConcatStep(pieces, 1);
    assert Concat(pieces[1..]) == [Cubic(P(2.0, 2.0), P(3.0, 3.0), P(4.0, 4.0))];
    ConcatStep(pieces, 0);
    assert Concat(pieces[0..]) == [Line(P(1.0, 1.0)), Cubic(P(2.0, 2.0), P(3.0, 3.0), P(4.0, 4.0))];
    assert pieces[0..] == pieces;
  }

  lemma ReverseOpenLineThenCurveRFlat(pieces: seq<seq<Segment>>)
    requires pieces == [[Cubic(P(3.0, 3.0), P(2.0, 2.0), P(1.0, 1.0))], [Line(P(0.0, 0.0))]]
    ensures Concat(pieces) == [Cubic(P(3.0, 3.0), P(2.0, 2.0), P(1.0, 1.0)), Line(P(0.0, 0.0))]
  {
    assert pieces[2..] == [];
    ConcatStep(pieces, 1);
    assert Concat(pieces[1..]) == [Line(P(0.0, 0.0))];
    ConcatStep(pieces, 0);
    assert Concat(pieces[0..]) == [Cubic(P(3.0, 3.0), P(2.0, 2.0), P(1.0, 1.0)), Line(P(0.0, 0.0))];
    assert pieces[0..] == pieces;
  }

  lemma ReverseOpenLineThenCurveContour(pieces: seq<seq<Segment>>, rpieces: seq<seq<Segment>>)
    requires pieces == [[Line(P(1.0, 1.0))], [Cubic(P(2.0, 2.0), P(3.0, 3.0), P(4.0, 4.0))]]
    requires rpieces == [[Cubic(P(3.0, 3.0), P(2.0, 2.0), P(1.0, 1.0))], [Line(P(0.0, 0.0))]]
    ensures ReverseContour(Contour(P(0.0, 0.0), Concat(pieces), false)) == Contour(P(4.0, 4.0), Concat(rpieces), false)
  {
    ReverseOpenLineThenCurveFlat(pieces);
    ReverseOpenLineThenCurveRFlat(rpieces);
    ReverseOpenLineThenCurveSegments(Concat(pieces), Concat(rpieces));
  }

  /** The entry at tests/pathops_test.py:392-405. */
  lemma ReverseOpenLineThenCurve(operations: seq<PenCall>, expected: seq<PenCall>)
    requires operations == [MoveTo(P(0.0, 0.0)), LineTo(P(1.0, 1.0)), CurveTo(P(2.0, 2.0), P(3.0, 3.0), P(4.0, 4.0)), EndPath]
    requires expected == [MoveTo(P(4.0, 4.0)), CurveTo(P(3.0, 3.0), P(2.0, 2.0), P(1.0, 1.0)), LineTo(P(0.0, 0.0)), EndPath]
    ensures ReversesTo(operations, expected)
  {
    var pieces := [[Line(P(1.0, 1.0))], [Cubic(P(2.0, 2.0), P(3.0, 3.0), P(4.0, 4.0))]];
    var rpieces := [[Cubic(P(3.0, 3.0), P(2.0, 2.0), P(1.0, 1.0))], [Line(P(0.0, 0.0))]];
    assert Stores(operations[1..|operations| - 1], pieces);
    assert Stores(expected[1..|expected| - 1], rpieces);
    ReverseOpenLineThenCurveCanonical(expected[1..|expected| - 1]);
    ReverseOpenLineThenCurveContour(pieces, rpieces);
    ReverseEntry(operations, expected, pieces, rpieces);
  }

  lemma ReverseClosedSplinesWithDuplicatePointsSpline1()
    ensures CallSegments(QCurveTo([P(848.0, 526.0), P(649.0, 704.0), P(449.0, 704.0)])) == [Quad(P(848.0, 526.0), P(748.5, 615.0)), Quad(P(649.0, 704.0), P(449.0, 704.0))]
  {
  }

  lemma ReverseClosedSplinesWithDuplicatePointsSpline2()
    ensures CallSegments(QCurveTo([P(449.0, 704.0), P(248.0, 704.0), P(50.0, 526.0), P(50.0, 348.0)])) == [Quad(P(449.0, 704.0), P(348.5, 704.0)), Quad(P(248.0, 704.0), P(149.0, 615.0)), Quad(P(50.0, 526.0), P(50.0, 348.0))]
  {
  }

  lemma ReverseClosedSplinesWithDuplicatePointsSpline3()
    ensures CallSegments(QCurveTo([P(50.0, 348.0), P(50.0, 171.0), P(248.0, -3.0), P(449.0, -3.0)])) == [Quad(P(50.0, 348.0), P(50.0, 259.5)), Quad(P(50.0, 171.0), P(149.0, 84.0)), Quad(P(248.0, -3.0), P(449.0, -3.0))]
  {
  }

  lemma ReverseClosedSplinesWithDuplicatePointsSpline4()
    ensures CallSegments(QCurveTo([P(449.0, -3.0), P(649.0, -3.0), P(848.0, 171.0), P(848.0, 348.0)])) == [Quad(P(449.0, -3.0), P(549.0, -3.0)), Quad(P(649.0, -3.0), P(748.5, 84.0)), Quad(P(848.0, 171.0), P(848.0, 348.0))]
  {
  }

  lemma ReverseClosedSplinesWithDuplicatePointsSpline5()
    ensures CallSegments(QCurveTo([P(848.0, 171.0), P(649.0, -3.0), P(449.0, -3.0), P(449.0, -3.0)])) == [Quad(P(848.0, 171.0), P(748.5, 84.0)), Quad(P(649.0, -3.0), P(549.0, -3.0)), Quad(P(449.0, -3.0), P(449.0, -3.0))]
  {
  }

  lemma ReverseClosedSplinesWithDuplicatePointsSpline6()
    ensures CallSegments(QCurveTo([P(248.0, -3.0), P(50.0, 171.0), P(50.0, 348.0), P(50.0, 348.0)])) == [Quad(P(248.0, -3.0), P(149.0, 84.0)), Quad(P(50.0, 171.0), P(50.0, 259.5)), Quad(P(50.0, 348.0), P(50.0, 348.0))]
  {
  }

  lemma ReverseClosedSplinesWithDuplicatePointsSpline7()
    ensures CallSegments(QCurveTo([P(50.0, 526.0), P(248.0, 704.0), P(449.0, 704.0), P(449.0, 704.0)])) == [Quad(P(50.0, 526.0), P(149.0, 615.0)), Quad(P(248.0, 704.0), P(348.5, 704.0)), Quad(P(449.0, 704.0), P(449.0, 704.0))]
  {
  }

  lemma ReverseClosedSplinesWithDuplicatePointsSpline8()
    ensures CallSegments(QCurveTo([P(649.0, 704.0), P(848.0, 526.0), P(848.0, 348.0)])) == [Quad(P(649.0, 704.0), P(748.5, 615.0)), Quad(P(848.0, 526.0), P(848.0, 348.0))]
  {
  }

  lemma ReverseClosedSplinesWithDuplicatePointsCanonical(rdrawing: seq<PenCall>)
    requires rdrawing == [QCurveTo([P(848.0, 171.0), P(649.0, -3.0), P(449.0, -3.0), P(449.0, -3.0)]), QCurveTo([P(248.0, -3.0), P(50.0, 171.0), P(50.0, 348.0), P(50.0, 348.0)]), LineTo(P(50.0, 348.0)), QCurveTo([P(50.0, 526.0), P(248.0, 704.0), P(449.0, 704.0), P(449.0, 704.0)]), QCurveTo([P(649.0, 704.0), P(848.0, 526.0), P(848.0, 348.0)]), LineTo(P(848.0, 348.0))]
    ensures Canonical(rdrawing)
  {
    assert !SplinesJoin(rdrawing[0], rdrawing[1]);
    assert !SplinesJoin(rdrawing[1], rdrawing[2]);
    assert !SplinesJoin(rdrawing[2], rdrawing[3]);
    assert !SplinesJoin(rdrawing[3], rdrawing[4]);
    assert !SplinesJoin(rdrawing[4], rdrawing[5]);
  }

  lemma ReverseClosedSplinesWithDuplicatePointsReverseFront(segs: seq<Segment>, rsegs: seq<Segment>)
    requires segs == [Line(P(848.0, 348.0)), Quad(P(848.0, 526.0), P(748.5, 615.0)), Quad(P(649.0, 704.0), P(449.0, 704.0)), Quad(P(449.0, 704.0), P(348.5, 704.0)), Quad(P(248.0, 704.0), P(149.0, 615.0)), Quad(P(50.0, 526.0), P(50.0, 348.0))]
    requires rsegs == [Quad(P(50.0, 526.0), P(149.0, 615.0)), Quad(P(248.0, 704.0), P(348.5, 704.0)), Quad(P(449.0, 704.0), P(449.0, 704.0)), Quad(P(649.0, 704.0), P(748.5, 615.0)), Quad(P(848.0, 526.0), P(848.0, 348.0)), Line(P(848.0, 348.0))]
    ensures ReverseSegments(P(848.0, 348.0), segs) == rsegs
  {
    var r := ReverseSegments(P(848.0, 348.0), segs);
    forall k | 0 <= k < |rsegs|
      ensures r[k] == rsegs[k]
    {
      if k == 0 {
        assert r[0] == rsegs[0];
      } else if k == 1 {
        assert r[1] == rsegs[1];
      } else if k == 2 {
        assert r[2] == rsegs[2];
      } else if k == 3 {
        assert r[3] == rsegs[3];
      } else if k == 4 {
        assert r[4] == rsegs[4];
      } else {
        assert r[5] == rsegs[5];
      }
    }
    assert r == rsegs;
  }

  lemma ReverseClosedSplinesWithDuplicatePointsReverseBack(segs: seq<Segment>, rsegs: seq<Segment>)
    requires segs == [Line(P(50.0, 348.0)), Quad(P(50.0, 348.0), P(50.0, 259.5)), Quad(P(50.0, 171.0), P(149.0, 84.0)), Quad(P(248.0, -3.0), P(449.0, -3.0)), Quad(P(449.0, -3.0), P(549.0, -3.0)), Quad(P(649.0, -3.0), P(748.5, 84.0)), Quad(P(848.0, 171.0), P(848.0, 348.0))]
    requires rsegs == [Quad(P(848.0, 171.0), P(748.5, 84.0)), Quad(P(649.0, -3.0), P(549.0, -3.0)), Quad(P(449.0, -3.0), P(449.0, -3.0)), Quad(P(248.0, -3.0), P(149.0, 84.0)), Quad(P(50.0, 171.0), P(50.0, 259.5)), Quad(P(50.0, 348.0), P(50.0, 348.0)), Line(P(50.0, 348.0))]
    ensures ReverseSegments(P(50.0, 348.0), segs) == rsegs
  {
    var r := ReverseSegments(P(50.0, 348.0), segs);
    forall k | 0 <= k < |rsegs|
      ensures r[k] == rsegs[k]
    {
      if k == 0 {
        assert r[0] == rsegs[0];
      } else if k == 1 {
        assert r[1] == rsegs[1];
      } else if k == 2 {
        assert r[2] == rsegs[2];
      } else if k == 3 {
        assert r[3] == rsegs[3];
      } else if k == 4 {
        assert r[4] == rsegs[4];
      } else if k == 5 {
        assert r[5] == rsegs[5];
      } else {
        assert r[6] == rsegs[6];
      }
    }
    assert r == rsegs;
  }

  lemma ReverseClosedSplinesWithDuplicatePointsFlatFront(pieces: seq<seq<Segment>>)
    requires pieces == [[Line(P(848.0, 348.0))], [Quad(P(848.0, 526.0), P(748.5, 615.0)), Quad(P(649.0, 704.0), P(449.0, 704.0))], [Quad(P(449.0, 704.0), P(348.5, 704.0)), Quad(P(248.0, 704.0), P(149.0, 615.0)), Quad(P(50.0, 526.0), P(50.0, 348.0))]]
    ensures Concat(pieces) == [Line(P(848.0, 348.0)), Quad(P(848.0, 526.0), P(748.5, 615.0)), Quad(P(649.0, 704.0), P(449.0, 704.0)), Quad(P(449.0, 704.0), P(348.5, 704.0)), Quad(P(248.0, 704.0), P(149.0, 615.0)), Quad(P(50.0, 526.0), P(50.0, 348.0))]
  {
    assert pieces[3..] == [];
    ConcatStep(pieces, 2);
    assert Concat(pieces[2..]) == [Quad(P(449.0, 704.0), P(348.5, 704.0)), Quad(P(248.0, 704.0), P(149.0, 615.0)), Quad(P(50.0, 526.0), P(50.0, 348.0))];
    ConcatStep(pieces, 1);
    assert Concat(pieces[1..]) == [Quad(P(848.0, 526.0), P(748.5, 615.0)), Quad(P(649.0, 704.0), P(449.0, 704.0)), Quad(P(449.0, 704.0), P(348.5, 704.0)), Quad(P(248.0, 704.0), P(149.0, 615.0)), Quad(P(50.0, 526.0), P(50.0, 348.0))];
    ConcatStep(pieces, 0);
    assert Concat(pieces[0..]) == [Line(P(848.0, 348.0)), Quad(P(848.0, 526.0), P(748.5, 615.0)), Quad(P(649.0, 704.0), P(449.0, 704.0)), Quad(P(449.0, 704.0), P(348.5, 704.0)), Quad(P(248.0, 704.0), P(149.0, 615.0)), Quad(P(50.0, 526.0), P(50.0, 348.0))];
    assert pieces[0..] == pieces;
  }

  lemma ReverseClosedSplinesWithDuplicatePointsFlatBack(pieces: seq<seq<Segment>>)
    requires pieces == [[Line(P(50.0, 348.0))], [Quad(P(50.0, 348.0), P(50.0, 259.5)), Quad(P(50.0, 171.0), P(149.0, 84.0)), Quad(P(248.0, -3.0), P(449.0, -3.0))], [Quad(P(449.0, -3.0), P(549.0, -3.0)), Quad(P(649.0, -3.0), P(748.5, 84.0)), Quad(P(848.0, 171.0), P(848.0, 348.0))]]
    ensures Concat(pieces) == [Line(P(50.0, 348.0)), Quad(P(50.0, 348.0), P(50.0, 259.5)), Quad(P(50.0, 171.0), P(149.0, 84.0)), Quad(P(248.0, -3.0), P(449.0, -3.0)), Quad(P(449.0, -3.0), P(549.0, -3.0)), Quad(P(649.0, -3.0), P(748.5, 84.0)), Quad(P(848.0, 171.0), P(848.0, 348.0))]
  {
    assert pieces[3..] == [];
    ConcatStep(pieces, 2);
    assert Concat(pieces[2..]) == [Quad(P(449.0, -3.0), P(549.0, -3.0)), Quad(P(649.0, -3.0), P(748.5, 84.0)), Quad(P(848.0, 171.0), P(848.0, 348.0))];
    ConcatStep(pieces, 1);
    assert Concat(pieces[1..]) == [Quad(P(50.0, 348.0), P(50.0, 259.5)), Quad(P(50.0, 171.0), P(149.0, 84.0)), Quad(P(248.0, -3.0), P(449.0, -3.0)), Quad(P(449.0, -3.0), P(549.0, -3.0)), Quad(P(649.0, -3.0), P(748.5, 84.0)), Quad(P(848.0, 171.0), P(848.0, 348.0))];
    ConcatStep(pieces, 0);
    assert Concat(pieces[0..]) == [Line(P(50.0, 348.0)), Quad(P(50.0, 348.0), P(50.0, 259.5)), Quad(P(50.0, 171.0), P(149.0, 84.0)), Quad(P(248.0, -3.0), P(449.0, -3.0)), Quad(P(449.0, -3.0), P(549.0, -3.0)), Quad(P(649.0, -3.0), P(748.5, 84.0)), Quad(P(848.0, 171.0), P(848.0, 348.0))];
    assert pieces[0..] == pieces;
  }

  lemma ReverseClosedSplinesWithDuplicatePointsRFlatFront(pieces: seq<seq<Segment>>)
    requires pieces == [[Quad(P(848.0, 171.0), P(748.5, 84.0)), Quad(P(649.0, -3.0), P(549.0, -3.0)), Quad(P(449.0, -3.0), P(449.0, -3.0))], [Quad(P(248.0, -3.0), P(149.0, 84.0)), Quad(P(50.0, 171.0), P(50.0, 259.5)), Quad(P(50.0, 348.0), P(50.0, 348.0))], [Line(P(50.0, 348.0))]]
    ensures Concat(pieces) == [Quad(P(848.0, 171.0), P(748.5, 84.0)), Quad(P(649.0, -3.0), P(549.0, -3.0)), Quad(P(449.0, -3.0), P(449.0, -3.0)), Quad(P(248.0, -3.0), P(149.0, 84.0)), Quad(P(50.0, 171.0), P(50.0, 259.5)), Quad(P(50.0, 348.0), P(50.0, 348.0)), Line(P(50.0, 348.0))]
  {
    assert pieces[3..] == [];
    ConcatStep(pieces, 2);
    assert Concat(pieces[2..]) == [Line(P(50.0, 348.0))];
    ConcatStep(pieces, 1);
    assert Concat(pieces[1..]) == [Quad(P(248.0, -3.0), P(149.0, 84.0)), Quad(P(50.0, 171.0), P(50.0, 259.5)), Quad(P(50.0, 348.0), P(50.0, 348.0)), Line(P(50.0, 348.0))];
    ConcatStep(pieces, 0);
    assert Concat(pieces[0..]) == [Quad(P(848.0, 171.0), P(748.5, 84.0)), Quad(P(649.0, -3.0), P(549.0, -3.0)), Quad(P(449.0, -3.0), P(449.0, -3.0)), Quad(P(248.0, -3.0), P(149.0, 84.0)), Quad(P(50.0, 171.0), P(50.0, 259.5)), Quad(P(50.0, 348.0), P(50.0, 348.0)), Line(P(50.0, 348.0))];
    assert pieces[0..] == pieces;
  }

  lemma ReverseClosedSplinesWithDuplicatePointsRFlatBack(pieces: seq<seq<Segment>>)
    requires pieces == [[Quad(P(50.0, 526.0), P(149.0, 615.0)), Quad(P(248.0, 704.0), P(348.5, 704.0)), Quad(P(449.0, 704.0), P(449.0, 704.0))], [Quad(P(649.0, 704.0), P(748.5, 615.0)), Quad(P(848.0, 526.0), P(848.0, 348.0))], [Line(P(848.0, 348.0))]]
    ensures Concat(pieces) == [Quad(P(50.0, 526.0), P(149.0, 615.0)), Quad(P(248.0, 704.0), P(348.5, 704.0)), Quad(P(449.0, 704.0), P(449.0, 704.0)), Quad(P(649.0, 704.0), P(748.5, 615.0)), Quad(P(848.0, 526.0), P(848.0, 348.0)), Line(P(848.0, 348.0))]
  {
    assert pieces[3..] == [];
    ConcatStep(pieces, 2);
    assert Concat(pieces[2..]) == [Line(P(848.0, 348.0))];
    ConcatStep(pieces, 1);
    assert Concat(pieces[1..]) == [Quad(P(649.0, 704.0), P(748.5, 615.0)), Quad(P(848.0, 526.0), P(848.0, 348.0)), Line(P(848.0, 348.0))];
    ConcatStep(pieces, 0);
    assert Concat(pieces[0..]) == [Quad(P(50.0, 526.0), P(149.0, 615.0)), Quad(P(248.0, 704.0), P(348.5, 704.0)), Quad(P(449.0, 704.0), P(449.0, 704.0)), Quad(P(649.0, 704.0), P(748.5, 615.0)), Quad(P(848.0, 526.0), P(848.0, 348.0)), Line(P(848.0, 348.0))];
    assert pieces[0..] == pieces;
  }

  lemma ReverseClosedSplinesWithDuplicatePointsContour(pieces: seq<seq<Segment>>, rpieces: seq<seq<Segment>>)
    requires pieces == [[Line(P(848.0, 348.0))], [Quad(P(848.0, 526.0), P(748.5, 615.0)), Quad(P(649.0, 704.0), P(449.0, 704.0))], [Quad(P(449.0, 704.0), P(348.5, 704.0)), Quad(P(248.0, 704.0), P(149.0, 615.0)), Quad(P(50.0, 526.0), P(50.0, 348.0))], [Line(P(50.0, 348.0))], [Quad(P(50.0, 348.0), P(50.0, 259.5)), Quad(P(50.0, 171.0), P(149.0, 84.0)), Quad(P(248.0, -3.0), P(449.0, -3.0))], [Quad(P(449.0, -3.0), P(549.0, -3.0)), Quad(P(649.0, -3.0), P(748.5, 84.0)), Quad(P(848.0, 171.0), P(848.0, 348.0))]]
    requires rpieces == [[Quad(P(848.0, 171.0), P(748.5, 84.0)), Quad(P(649.0, -3.0), P(549.0, -3.0)), Quad(P(449.0, -3.0), P(449.0, -3.0))], [Quad(P(248.0, -3.0), P(149.0, 84.0)), Quad(P(50.0, 171.0), P(50.0, 259.5)), Quad(P(50.0, 348.0), P(50.0, 348.0))], [Line(P(50.0, 348.0))], [Quad(P(50.0, 526.0), P(149.0, 615.0)), Quad(P(248.0, 704.0), P(348.5, 704.0)), Quad(P(449.0, 704.0), P(449.0, 704.0))], [Quad(P(649.0, 704.0), P(748.5, 615.0)), Quad(P(848.0, 526.0), P(848.0, 348.0))], [Line(P(848.0, 348.0))]]
    ensures ReverseContour(Contour(P(848.0, 348.0), Concat(pieces), true)) == Contour(P(848.0, 348.0), Concat(rpieces), true)
  {
    var a, b := pieces[..3], pieces[3..];
    var ra, rb := rpieces[3..], rpieces[..3];
    assert pieces == a + b;
    assert rpieces == rb + ra;
    ConcatAppend(a, b);
    ConcatAppend(rb, ra);
    ReverseClosedSplinesWithDuplicatePointsFlatFront(a);
    ReverseClosedSplinesWithDuplicatePointsFlatBack(b);
    ReverseClosedSplinesWithDuplicatePointsRFlatFront(rb);
    ReverseClosedSplinesWithDuplicatePointsRFlatBack(ra);
    ReverseSegmentsConcat(P(848.0, 348.0), Concat(a), Concat(b));
    ReverseClosedSplinesWithDuplicatePointsReverseFront(Concat(a), Concat(ra));
    ReverseClosedSplinesWithDuplicatePointsReverseBack(Concat(b), Concat(rb));
  }

  /** The entry at tests/pathops_test.py:406-429. */
  lemma ReverseClosedSplinesWithDuplicatePoints(operations: seq<PenCall>, expected: seq<PenCall>)
    requires operations == [MoveTo(P(848.0, 348.0)), LineTo(P(848.0, 348.0)), QCurveTo([P(848.0, 526.0), P(649.0, 704.0), P(449.0, 704.0)]), QCurveTo([P(449.0, 704.0), P(248.0, 704.0), P(50.0, 526.0), P(50.0, 348.0)]), LineTo(P(50.0, 348.0)), QCurveTo([P(50.0, 348.0), P(50.0, 171.0), P(248.0, -3.0), P(449.0, -3.0)]), QCurveTo([P(449.0, -3.0), P(649.0, -3.0), P(848.0, 171.0), P(848.0, 348.0)]), ClosePath]
    requires expected == [MoveTo(P(848.0, 348.0)), QCurveTo([P(848.0, 171.0), P(649.0, -3.0), P(449.0, -3.0), P(449.0, -3.0)]), QCurveTo([P(248.0, -3.0), P(50.0, 171.0), P(50.0, 348.0), P(50.0, 348.0)]), LineTo(P(50.0, 348.0)), QCurveTo([P(50.0, 526.0), P(248.0, 704.0), P(449.0, 704.0), P(449.0, 704.0)]), QCurveTo([P(649.0, 704.0), P(848.0, 526.0), P(848.0, 348.0)]), LineTo(P(848.0, 348.0)), ClosePath]
    ensures ReversesTo(operations, expected)
  {
    var pieces := [[Line(P(848.0, 348.0))], [Quad(P(848.0, 526.0), P(748.5, 615.0)), Quad(P(649.0, 704.0), P(449.0, 704.0))], [Quad(P(449.0, 704.0), P(348.5, 704.0)), Quad(P(248.0, 704.0), P(149.0, 615.0)), Quad(P(50.0, 526.0), P(50.0, 348.0))], [Line(P(50.0, 348.0))], [Quad(P(50.0, 348.0), P(50.0, 259.5)), Quad(P(50.0, 171.0), P(149.0, 84.0)), Quad(P(248.0, -3.0), P(449.0, -3.0))], [Quad(P(449.0, -3.0), P(549.0, -3.0)), Quad(P(649.0, -3.0), P(748.5, 84.0)), Quad(P(848.0, 171.0), P(848.0, 348.0))]];
    var rpieces := [[Quad(P(848.0, 171.0), P(748.5, 84.0)), Quad(P(649.0, -3.0), P(549.0, -3.0)), Quad(P(449.0, -3.0), P(449.0, -3.0))], [Quad(P(248.0, -3.0), P(149.0, 84.0)), Quad(P(50.0, 171.0), P(50.0, 259.5)), Quad(P(50.0, 348.0), P(50.0, 348.0))], [Line(P(50.0, 348.0))], [Quad(P(50.0, 526.0), P(149.0, 615.0)), Quad(P(248.0, 704.0), P(348.5, 704.0)), Quad(P(449.0, 704.0), P(449.0, 704.0))], [Quad(P(649.0, 704.0), P(748.5, 615.0)), Quad(P(848.0, 526.0), P(848.0, 348.0))], [Line(P(848.0, 348.0))]];
    ReverseClosedSplinesWithDuplicatePointsSpline1();
    ReverseClosedSplinesWithDuplicatePointsSpline2();
    ReverseClosedSplinesWithDuplicatePointsSpline3();
    ReverseClosedSplinesWithDuplicatePointsSpline4();
    ReverseClosedSplinesWithDuplicatePointsSpline5();
    ReverseClosedSplinesWithDuplicatePointsSpline6();
    ReverseClosedSplinesWithDuplicatePointsSpline7();
    ReverseClosedSplinesWithDuplicatePointsSpline8();
    assert Stores(operations[1..|operations| - 1], pieces);
    assert Stores(expected[1..|expected| - 1], rpieces);
    ReverseClosedSplinesWithDuplicatePointsCanonical(expected[1..|expected| - 1]);
    ReverseClosedSplinesWithDuplicatePointsContour(pieces, rpieces);
    ReverseEntry(operations, expected, pieces, rpieces);
  }
}
