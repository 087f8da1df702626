# skia-pathops: paths, pens, the `segments` view and `reverse()`

This project models the part of skia-pathops that `tests/pathops_test.py`
pins down exactly, and proves properties of it.

- **Path.** A fill type and a verb buffer. The buffer is flat and holds
  atomic verbs, as the underlying Skia path stores them: Move, Line,
  Quad, Cubic and Close.
- **PathPen.** The pen protocol that records onto a path:
  - `moveTo`, `lineTo`, `curveTo`, `qCurveTo`, `closePath` and `endPath`;
  - the `allow_open_paths` flag.
- **`segments` view.** Reads a path back as pen calls.
- **Structural equality and copy.**
- **`reverse()`.** Draws every contour backwards.

Coordinates are exact reals. The entries use halves such as 1.5 and 748.5,
and every implied on-curve midpoint is exact.

The model is layered in modules, one per file:

- `Geometry` (`geometry.dfy`): points and midpoints.
- `Sequences` (`sequences.dfy`): generic sequence facts.
- `PathData` (`path_data.dfy`): the verb buffer and its contour view.
  - `Contours` parses a buffer into contours.
  - `Flatten` stores contours back into a buffer.
  - The two are inverse: see `ContoursOfFlatten` and the ensures of `Contours`.
- `Recording` (`recording.dfy`): what one pen call does to a buffer.
  - `Apply` handles one call.
  - `Replay` handles a sequence of calls; the first call that raises stops it.
  - `Decompose` splits a TrueType spline into atomic quadratics.
- `SegmentView` (`segment_view.dfy`): the `segments` view, built on `JoinSegments`.
  - `JoinSegments` turns a contour's atomic verbs into pen calls.
  - It re-joins a run of quadratics into one `qCurveTo` when each shared
    on-curve point is exactly the midpoint of the neighbouring controls.
  - It is the inverse of the pen's storage, in both directions:
    `JoinSegmentsExpands` and `CanonicalRoundTrip`.
  - The view has one form: contour after contour, a moveTo, drawing calls
    no two of which would join, then closePath or endPath (`ViewForm`).
    It is the only call sequence of that form that records the stored
    buffer back (`SegmentsUnique`).
- `Reversal` (`reversal.dfy`): the reversal rule, with its independent
  characterisation.
  - A contour reverses into its verbs in reverse order.
  - Each verb keeps its kind, passes its controls backwards, and ends where
    the verb before it ended; the first verb ends at the old start.
  - The new start is the old last on-curve point.
  - The terminator is kept.
  - Equivalently, the point buffer is reversed and the verb kinds are
    reversed (`ReverseContourCharacterized`).
- `Paths` (`path_objects.dfy`): the classes.
  - `Path` has a `fillType` and a `verbs` field that its methods change in place.
  - `PathPen` records onto its path.
  - Each method is proved against the functions above.
- `ReverseVectors` (`reverse_vectors.dfy`): the 18 `TEST_DATA` entries.
  - There is one lemma per entry.
  - Each lemma proves that recording the operations on a new path, reversing
    it and reading its `segments` gives exactly the expected calls.
- `PathTests` (`path_tests.dfy`): the `PathTest` cases and `test_reverse_path`.
  - Each case that makes calls is a method. It makes the test's calls on
    `Path`/`PathPen` objects and promises the outcomes the test checks.
  - The lemmas `OpenContoursView`, `SplineView` and `LineContourView` state
    the view of the buffers those methods build.
  - `test_init` and `test_getPen` have no member of their own. They rest on
    the contracts of `Paths.Path.constructor` and `Paths.Path.GetPen`.

The pen follows the underlying Skia path:

- `moveTo` always appends a Move, so a second `moveTo` leaves the contour
  before it open.
- `closePath` appends a Close only while a contour is being drawn.
- A drawing call with no contour open first starts one:
  - after a Close, at the start of the contour just closed;
  - on an empty path, at the origin.
- `endPath` stores nothing. It raises OpenPathError exactly when the pen
  does not allow open paths.
- `qCurveTo` with n ≥ 2 points stores n − 1 atomic quadratics. The i-th one
  has control p(i) and ends at Mid(p(i), p(i+1)); the last one ends at the last point.
- `qCurveTo` with fewer than two points is no spline. It raises ShortSpline
  and stores nothing.

## Model

| member | source | states |
|---|---|---|
| Paths.Path.constructor | tests/pathops_test.py:18-20 | a new path is empty and has the default (winding) fill type |
| Paths.Path.Copy | tests/pathops_test.py:39-42 | the copy has the same fill type and the same verbs as its source |
| Paths.Path.GetPen | tests/pathops_test.py:22-26 | a fresh pen drawing on this path, with the requested open-path policy |
| Paths.Path.MoveTo | tests/pathops_test.py:28-37 | appends a Move and keeps the fill type |
| Paths.Path.LineTo | tests/pathops_test.py:44-54 | appends a Line, first starting a contour when none is open |
| Paths.Path.QuadTo | tests/pathops_test.py:82-94 | appends one atomic quadratic, first starting a contour when none is open |
| Paths.Path.CubicTo | tests/pathops_test.py:44-54 | appends a Cubic, first starting a contour when none is open |
| Paths.Path.Close | tests/pathops_test.py:104-115 | appends a Close only while a contour is open; nothing else is added (no closing line) |
| Paths.Path.Equals | tests/pathops_test.py:28-37 | equality is reflexive; equal paths have the same fill type, are both valid or both not, and read back the same segments |
| Paths.Path.Segments | tests/pathops_test.py:56-115 | the view has the reported form (moveTo, drawing calls no two of which would join, then closePath or endPath, contour after contour) and a default pen records it back into exactly this buffer |
| Paths.Path.Draw | tests/pathops_test.py:44-54 | drawing onto a pen replays this path's segments, as they were before the call, onto the pen's path, stopping at the first call that raises; the pen may draw on this same path |
| Paths.Path.Reverse | tests/pathops_test.py:431-441 | in place: the new contours are the old ones each reversed (as a multiset); with at most one contour the buffer is exactly the reversed path |
| Paths.EqualsMeansSameContours | tests/pathops_test.py:28-37 | two paths are equal exactly when they have the same fill type and the same contours |
| Paths.PathPen.constructor | tests/pathops_test.py:22-26 | the pen is bound to its path and its open-path policy |
| Paths.PathPen.MoveTo | tests/pathops_test.py:56-73 | the buffer after moveTo is the one the recording rule gives, and it never raises |
| Paths.PathPen.LineTo | tests/pathops_test.py:44-54 | the buffer after lineTo is the one the recording rule gives |
| Paths.PathPen.CurveTo | tests/pathops_test.py:44-54 | the buffer after curveTo is the one the recording rule gives |
| Paths.PathPen.QCurveTo | tests/pathops_test.py:82-94 | the loop stores the spline's atomic quadratics one by one, ending where the recording rule says; fewer than two points raise ShortSpline |
| Paths.PathPen.ClosePath | tests/pathops_test.py:104-115 | the buffer after closePath is the one the recording rule gives |
| Paths.PathPen.EndPath | tests/pathops_test.py:75-80 | raises exactly when open paths are not allowed, and stores nothing |
| Paths.PathPen.Call | tests/pathops_test.py:434-435 | a call given by name and operands does what the recording rule gives |
| Paths.PathPen.Play | tests/pathops_test.py:432-435 | the calls in order, stopping at the first that raises, give the buffer and the outcome of Replay |
| Geometry.Mid | tests/pathops_test.py:93-94 | the implied on-curve point is equidistant from the two controls |
| PathData.ContourVerbs | tests/pathops_test.py:56-73 | a contour is stored as its Move, its verbs in order and a Close when it is closed |
| PathData.SegmentRun | tests/pathops_test.py:56-73 | the drawing verbs at the head of a buffer: all of them, up to the first non-drawing verb |
| PathData.FirstContour | tests/pathops_test.py:56-73 | the first contour read from a buffer is stored by exactly the buffer's first verbs |
| PathData.Contours | tests/pathops_test.py:56-73 | the contours read from a buffer store exactly that buffer, and there are none only for the empty buffer |
| PathData.ContoursOfFlatten | tests/pathops_test.py:56-73 | storing any contours and reading the buffer back gives those contours, and the buffer is well formed |
| PathData.FirstContourOfVerbs | tests/pathops_test.py:56-73 | the first contour read from a stored contour followed by another is that contour |
| PathData.LastContourClosed | tests/pathops_test.py:104-115 | the last contour is closed exactly when the buffer ends with a Close |
| PathData.ContoursReplaceLast | tests/pathops_test.py:56-73 | appending to the last contour's verbs changes only the last parsed contour |
| Recording.Decompose | tests/pathops_test.py:82-94 | n points give n − 1 quadratics; the i-th has control p(i); each but the last ends at the midpoint of p(i) and p(i+1); the last ends at the last point |
| Recording.DecomposePrefix | tests/pathops_test.py:82-94 | the first i + 1 quadratics of a spline are the first i and then the one with control p(i) |
| Recording.StartContour | tests/pathops_test.py:44-54 | after it a contour is open, and a well-formed buffer stays well formed |
| Recording.Apply | tests/pathops_test.py:56-80 | one pen call keeps the buffer well formed; a call that raises leaves the buffer unchanged; it raises OpenPathError exactly for endPath when open paths are not allowed, and ShortSpline exactly for qCurveTo with fewer than two points |
| Recording.Replay | tests/pathops_test.py:432-435 | a sequence of calls keeps the buffer well formed |
| Recording.Record | tests/pathops_test.py:432-435 | what a new path holds after the calls is well formed |
| Recording.AddSegmentsAppends | tests/pathops_test.py:44-54 | drawing verbs keep the old buffer and end the new one; one Move at the restart point is injected between them exactly when no contour was open; a contour is open afterwards; appending nothing changes nothing |
| Recording.AddCloseCloses | tests/pathops_test.py:104-115 | after closePath no contour is open; a Close is the only verb added, and it is added exactly when a contour was open |
| Recording.LastMovePointIsLastMove | tests/pathops_test.py:44-54 | the restart point is the point of the last Move in the buffer, and the origin when there is no Move |
| Recording.ContourIsOpenIsLastOpen | tests/pathops_test.py:56-73 | a contour is being drawn exactly when the buffer's last contour is open |
| Recording.AddSegmentsSnoc | tests/pathops_test.py:82-94 | drawing verbs one at a time stores the same as drawing them at once |
| Recording.MoveToStartsContour | tests/pathops_test.py:56-73 | moveTo leaves the contours before it as they are (the one being drawn stays open) and starts an empty open contour |
| Recording.DrawExtendsContour | tests/pathops_test.py:44-54 | a drawing call extends the open contour; with none open it starts an open contour at the restart point |
| Recording.RestartPointIsClosedStart | tests/pathops_test.py:44-54 | after a Close, the restart point is the start of the contour just closed |
| Recording.ClosePathClosesContour | tests/pathops_test.py:104-115 | closePath marks the contour being drawn closed and changes no other contour; with none open it changes nothing |
| SegmentView.QuadRun | tests/pathops_test.py:82-102 | a run of quadratics each joining the next, ending exactly where the joining stops |
| SegmentView.RunControls | tests/pathops_test.py:96-102 | the controls of a run of quadratics, in order |
| SegmentView.JoinSegments | tests/pathops_test.py:96-102 | the view reports only drawing calls |
| SegmentView.JoinSegmentsExpands | tests/pathops_test.py:104-115 | the calls reported for a contour store back exactly its verbs: nothing is added (no closing lineTo) and nothing is dropped |
| SegmentView.ExpandCallsConcat | tests/pathops_test.py:82-102 | the verbs stored by two runs of calls are those of each, in order |
| SegmentView.RunDecomposes | tests/pathops_test.py:82-102 | a reported spline decomposes back into exactly the run it came from |
| SegmentView.QuadRunIs | tests/pathops_test.py:82-102 | the run length is the point where the joining stops |
| SegmentView.JoinDecomposed | tests/pathops_test.py:82-102 | a spline drawn with qCurveTo is reported back as the same qCurveTo unless the next quadratic joins it |
| SegmentView.DecomposedRun | tests/pathops_test.py:82-102 | a decomposed spline followed by a verb it does not join is one run |
| SegmentView.RunControlsDecompose | tests/pathops_test.py:96-102 | the controls and the last point of a decomposed spline are its points |
| SegmentView.DecomposeControls | tests/pathops_test.py:96-102 | the controls of a decomposed spline are all its points but the last |
| SegmentView.JoinSegmentsCanonical | tests/pathops_test.py:96-102 | what the view reports never has two consecutive splines that would join |
| SegmentView.CanonicalRoundTrip | tests/pathops_test.py:82-102 | calls of the reported form are reported back unchanged after the pen stores them |
| SegmentView.RoundTripStep | tests/pathops_test.py:82-102 | one more call in front that does not join the next is reported back too |
| SegmentView.Terminator | tests/pathops_test.py:56-115 | a contour's segments end with closePath exactly when it is closed and with endPath exactly when it is open; the terminator neither draws nor moves |
| SegmentView.ContourCallsForm | tests/pathops_test.py:56-115 | a contour's segments are its moveTo, drawing calls no two of which would join and which store exactly its verbs, and its terminator |
| SegmentView.SegmentsOfForm | tests/pathops_test.py:56-115 | the view of a stored path has the reported form, and a default pen on a new path records it back into exactly that path |
| SegmentView.ViewFormOfCallsOf | tests/pathops_test.py:56-115 | the view of any contours has the reported form and describes exactly those contours |
| SegmentView.ViewCalls | tests/pathops_test.py:56-115 | calls of the reported form are the view of the contours they describe |
| SegmentView.SegmentsUnique | tests/pathops_test.py:56-115 | the view is the only sequence of calls of the reported form that a default pen on a new path records into the stored buffer |
| SegmentView.ReplayContourCalls | tests/pathops_test.py:56-73 | a moveTo, drawing calls and a terminator record one contour: closed by closePath, open after endPath |
| SegmentView.ReplayDrawing | tests/pathops_test.py:44-54 | drawing calls on an open contour append what they expand to |
| SegmentView.ReplayConcat | tests/pathops_test.py:432-435 | calls that raise nothing hand their buffer on to the calls after them |
| SegmentView.ReplayContours | tests/pathops_test.py:44-54 | replaying the reported calls of any contours stores exactly those contours |
| SegmentView.DrawRecordsSameVerbs | tests/pathops_test.py:44-54 | drawing a path's segments onto a default pen appends exactly the path's verbs |
| Reversal.Kinds | tests/pathops_test.py:184-430 | the kinds of a verb run, built front to back, are the kinds of its verbs index by index |
| Reversal.Flip | tests/pathops_test.py:184-430 | a flipped verb keeps its kind and ends at the given point |
| Reversal.FlipControls | tests/pathops_test.py:245-288 | a flipped verb passes its controls in the opposite order |
| Reversal.ReverseSegments | tests/pathops_test.py:184-430 | the k-th reversed verb is the k-th from the end, flipped to end where the verb before it ended (the first verb ends at the old start) |
| Reversal.ReverseSegmentsConcat | tests/pathops_test.py:184-430 | reversing two runs drawn one after the other gives the second reversed, then the first reversed |
| Reversal.ReverseContour | tests/pathops_test.py:331-353 | the reversed contour starts at the old last on-curve point, keeps its terminator and its verb count; a contour with no drawing verb is unchanged |
| Reversal.ReverseAll | tests/pathops_test.py:431-441 | reversing contour by contour, front to back, puts each contour's reversal in that contour's place |
| Reversal.ReverseAllSnoc | tests/pathops_test.py:431-441 | reversing one more contour appends its reversal and its verbs |
| Reversal.ReversePath | tests/pathops_test.py:431-441 | the reversed buffer is well formed and its contours are the old contours, each reversed |
| Reversal.ReverseSegmentsPoints | tests/pathops_test.py:184-430 | the new start and the reversed verbs' points are the old start and the verbs' points, backwards |
| Reversal.ReverseContourPoints | tests/pathops_test.py:217-232 | the point buffer of a reversed contour is the old one backwards, duplicates included |
| Reversal.ReverseContourPointMultiset | tests/pathops_test.py:406-429 | reversal adds, drops and changes no point |
| Reversal.KindsConcat | tests/pathops_test.py:259-288 | the kinds of two runs are those of each, in order |
| Reversal.ReverseSegmentsKinds | tests/pathops_test.py:259-288 | the verb kinds of the reversed verbs are the old kinds backwards |
| Reversal.ReverseContourKinds | tests/pathops_test.py:259-288 | the verb kinds of a reversed contour are its verb kinds backwards |
| Reversal.SegmentsDetermined | tests/pathops_test.py:184-430 | verb runs with the same kinds and the same points are equal |
| Reversal.ContourDetermined | tests/pathops_test.py:184-430 | contours with the same kinds, points and terminator are equal |
| Reversal.ReverseContourCharacterized | tests/pathops_test.py:184-430 | a contour is the reversal of another exactly when its points and its kinds are the other's backwards and it has the same terminator |
| Reversal.ReverseContourTwice | tests/pathops_test.py:184-430 | reversing a contour twice gives it back |
| Reversal.ReverseContourEnds | tests/pathops_test.py:184-430 | the reversed contour ends at the old start |
| Reversal.ReversePathTwice | tests/pathops_test.py:431-441 | reversing a path twice gives back its buffer |
| ReverseVectors.ContoursOfOne | tests/pathops_test.py:431-441 | a one-contour buffer parses into that contour |
| ReverseVectors.RecordOneContour | tests/pathops_test.py:432-435 | one contour's calls on a new path's default pen raise nothing and store that contour |
| ReverseVectors.ReversePathOne | tests/pathops_test.py:438 | reversing a one-contour path stores that contour reversed |
| ReverseVectors.SegmentsOfOne | tests/pathops_test.py:440 | the view of a one-contour path is that contour's calls |
| ReverseVectors.ReverseOneContour | tests/pathops_test.py:431-441 | one contour's calls record without raising; reversing and reading back gives the moveTo, the reversed calls and the same terminator |
| ReverseVectors.ReverseEntry | tests/pathops_test.py:431-441 | an entry holds when the expected calls store the recorded contour reversed, with the same terminator |
| ReverseVectors.ReverseClosedLines | tests/pathops_test.py:185-200 | a closed run of lines reverses to start at its last point, with its lines backwards |
| ReverseVectors.ReverseClosedLinesBackToStart | tests/pathops_test.py:201-216 | a closed contour whose last line returns to the start keeps that line, reversed |
| ReverseVectors.ReverseClosedLinesRepeatedStart | tests/pathops_test.py:217-232 | a lineTo to the move point survives reversal as an explicit lineTo |
| ReverseVectors.ReverseClosedSingleLine | tests/pathops_test.py:233-244 | a closed single line reverses to a line back to the old start |
| ReverseVectors.ReverseClosedCurvesBackToStart | tests/pathops_test.py:245-258 | closed cubics ending at the start reverse with their controls swapped |
| ReverseVectors.ReverseClosedCurves | tests/pathops_test.py:259-272 | closed cubics reverse with each control pair swapped and each end moved back |
| ReverseVectors.ReverseClosedLineThenCurves | tests/pathops_test.py:273-288 | a mixed line and cubic contour keeps the kind of each verb, backwards |
| ReverseVectors.ReverseClosedSplinesBackToStart | tests/pathops_test.py:289-302 | a closed spline ending at the start reverses to the spline with its controls backwards |
| ReverseVectors.ReverseClosedSplines | tests/pathops_test.py:303-316 | closed splines reverse and are re-joined by the view |
| ReverseVectors.ReverseClosedLineThenSpline | tests/pathops_test.py:317-330 | a line followed by a spline reverses to the spline then the line |
| ReverseVectors.ReverseEmptyPath | tests/pathops_test.py:331-333 | the empty path is unchanged |
| ReverseVectors.ReverseLoneOpenMove | tests/pathops_test.py:334-343 | a lone moveTo with endPath is unchanged |
| ReverseVectors.ReverseLoneClosedMove | tests/pathops_test.py:344-353 | a lone moveTo with closePath is unchanged |
| ReverseVectors.ReverseOpenLine | tests/pathops_test.py:354-365 | an open line reverses and still ends with endPath |
| ReverseVectors.ReverseOpenCurve | tests/pathops_test.py:366-377 | an open cubic reverses with its controls swapped and still ends with endPath |
| ReverseVectors.ReverseOpenCurveThenLine | tests/pathops_test.py:378-391 | an open cubic then line reverses to the line then the cubic |
| ReverseVectors.ReverseOpenLineThenCurve | tests/pathops_test.py:392-405 | an open line then cubic reverses to the cubic then the line |
| ReverseVectors.ReverseClosedSplinesWithDuplicatePoints | tests/pathops_test.py:406-429 | splines with repeated points reverse with the duplicate points and the duplicate lineTo kept |
| PathTests.EqOperator | tests/pathops_test.py:28-37 | new paths are equal; one moveTo makes them differ; the same moveTo on the other makes them equal; a different fill type alone makes them differ |
| PathTests.CopyEquals | tests/pathops_test.py:39-42 | a copy-constructed path equals its source |
| PathTests.DrawOntoNewPath | tests/pathops_test.py:44-54 | drawing a path onto a new path's default pen raises nothing and gives the new path the same verbs |
| PathTests.OpenContoursView | tests/pathops_test.py:66-73 | a lone move point then an open line-and-cubic contour reads back as two contours, each with endPath |
| PathTests.AllowOpenContour | tests/pathops_test.py:56-73 | a second moveTo leaves the first contour open; endPath raises nothing; the view reports both contours with endPath |
| PathTests.RaiseOpenContourError | tests/pathops_test.py:75-80 | endPath after a moveTo raises OpenPathError when open paths are not allowed |
| PathTests.SplineView | tests/pathops_test.py:96-102 | two quadratics meeting at the midpoint of their controls read back as one qCurveTo |
| PathTests.DecomposeJoinQuadraticSegments | tests/pathops_test.py:82-102 | qCurveTo with three points stores four verbs, two of them quadratics ending at (1.5, 1.5) and (3, 3); the view joins them back into that qCurveTo |
| PathTests.LineContourView | tests/pathops_test.py:109-115 | a closed one-line contour reads back with no closing lineTo |
| PathTests.LastImplicitLineTo | tests/pathops_test.py:104-115 | closePath after lineTo reports moveTo, lineTo and closePath only |
| PathTests.ReversePathCase | tests/pathops_test.py:431-441 | for every entry that ReversesTo states, the test's recording, reversal and comparison pass |

## Left out

- `OpBuilder`, `PathOp` and `resolve` (tests/pathops_test.py:118-181) are not modelled. The boolean operations run in Skia's C++ path-ops engine, and their output coordinates are defined by that engine.
- `bits2float` and `float2bits` (tests/pathops_test.py:593-601) are not modelled. They reinterpret IEEE-754 binary32 bits, and coordinates here are exact reals.
- `test_duplicate_start_point` (tests/pathops_test.py:443-590) is not modelled. It needs the near-equal snapping of a closing point in `contour.segments`, which depends on one-ulp float differences. The `contours` and `points` accessors are left out for the same reason.
- Pen identity in `getPen` (tests/pathops_test.py:22-26) is not modelled beyond `GetPen` returning a fresh pen. The test compares Python `id()`s.
- `Paths.Path.Reverse`: for paths with several contours it promises only that the reversed contours are the old ones each reversed, as a multiset. The in-place loop keeps their order, but no entry pins contour order, so the contract does not promise it.
- The Python `Path` wraps a Skia path in C++. The model covers the behaviour the tests observe, not the wrapper's memory handling or its iteration protocol. `list(path)` is read as the verb buffer.
- There is no SequencingError. Drawing before a `moveTo`, or after `closePath`, starts a contour as the Skia path does; the tests import and expect no such error.
- `moveTo` never raises, even when the pen does not allow open paths and a contour is left open by it. Only an explicit `endPath` is pinned to raise.
- `qCurveTo` with fewer than two points raises ShortSpline. No test exercises it.
- `ExpandCalls` also accepts calls that store nothing and skips them; the view never produces such calls.
- All four fill types are carried as values only: construction sets WINDING, copy and `==` compare the value, and nothing in the model fills. The tests set only EVEN_ODD (tests/pathops_test.py:36).
