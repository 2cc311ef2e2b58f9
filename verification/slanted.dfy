/**
 * The slanted corner view: a square view that fills a band or a triangle at
 * one of its four corners and draws a label rotated by 45 degrees along it.
 *
 * The outline of each mode and the label's placement are pure functions of
 * (mode, size, slant length); the class SlantedView holds the configuration
 * its chainable setters change and draws by building a path step by step.
 */
module Slanted {
  import opened Wrappers
  import opened Graphics

  const MODE_LEFT: int := 0
  const MODE_RIGHT: int := 1
  const MODE_LEFT_BOTTOM: int := 2
  const MODE_RIGHT_BOTTOM: int := 3
  const MODE_LEFT_TRIANGLE: int := 4
  const MODE_RIGHT_TRIANGLE: int := 5
  const MODE_LEFT_BOTTOM_TRIANGLE: int := 6
  const MODE_RIGHT_BOTTOM_TRIANGLE: int := 7

  const ROTATE_ANGLE: int := 45

  /** Java's Color.TRANSPARENT and Color.WHITE as signed 32-bit ints. */
  const TRANSPARENT: int := 0
  const WHITE: int := -1

  predicate IsMode(mode: int) {
    MODE_LEFT <= mode <= MODE_RIGHT_BOTTOM_TRIANGLE
  }

  /** The four band modes; mode + 4 is the triangle mode of the same corner. */
  predicate IsBandMode(mode: int) {
    MODE_LEFT <= mode <= MODE_RIGHT_BOTTOM
  }

  /** What the view throws. */
  datatype Exception =
    | NotSquare          // IllegalStateException: width differs from height when drawing
    | UnknownMode        // IllegalArgumentException: the stored mode is none of the eight when drawing
    | IllegalMode(argument: int)  // IllegalArgumentException from setMode, naming its argument
    | NullText           // NullPointerException: measuring a label text set to null

  // ---------------------------------------------------------------------
  // Outlines. A builder that starts with lineTo starts at the origin.

  function LeftOutline(w: int, h: int, l: int): seq<Point> {
    [Point(w, 0), Point(0, h), Point(0, h - l), Point(w - l, 0)]
  }

  function RightOutline(w: int, h: int, l: int): seq<Point> {
    [Origin, Point(w, h), Point(w, h - l), Point(l, 0)]
  }

  function LeftBottomOutline(w: int, h: int, l: int): seq<Point> {
    [Origin, Point(w, h), Point(w - l, h), Point(0, l)]
  }

  function RightBottomOutline(w: int, h: int, l: int): seq<Point> {
    [Point(0, h), Point(l, h), Point(w, l), Point(w, 0)]
  }

  function LeftTriangleOutline(w: int, h: int): seq<Point> {
    [Origin, Point(0, h), Point(w, 0)]
  }

  function RightTriangleOutline(w: int, h: int): seq<Point> {
    [Origin, Point(w, 0), Point(w, h)]
  }

  function LeftBottomTriangleOutline(w: int, h: int): seq<Point> {
    [Origin, Point(w, h), Point(0, h)]
  }

  function RightBottomTriangleOutline(w: int, h: int): seq<Point> {
    [Point(0, h), Point(w, h), Point(w, 0)]
  }

  /** The closed outline `drawBackground` selects for a mode; None for a mode outside the eight. */
  function Outline(mode: int, w: int, h: int, l: int): (r: Option<seq<Point>>)
    ensures r.Some? <==> IsMode(mode)
    ensures r.Some? ==> |r.value| == (if IsBandMode(mode) then 4 else 3)
  {
    if mode == MODE_LEFT then Some(LeftOutline(w, h, l))
    else if mode == MODE_RIGHT then Some(RightOutline(w, h, l))
    else if mode == MODE_LEFT_BOTTOM then Some(LeftBottomOutline(w, h, l))
    else if mode == MODE_RIGHT_BOTTOM then Some(RightBottomOutline(w, h, l))
    else if mode == MODE_LEFT_TRIANGLE then Some(LeftTriangleOutline(w, h))
    else if mode == MODE_RIGHT_TRIANGLE then Some(RightTriangleOutline(w, h))
    else if mode == MODE_LEFT_BOTTOM_TRIANGLE then Some(LeftBottomTriangleOutline(w, h))
    else if mode == MODE_RIGHT_BOTTOM_TRIANGLE then Some(RightBottomTriangleOutline(w, h))
    else None
  }

  /**
   * `drawBackground`: the verbs of the path it fills. The size check comes
   * before the mode is looked at.
   */
  function Background(mode: int, w: int, h: int, l: int): (r: Result<seq<Verb>, Exception>)
    ensures w != h ==> r == Err(NotSquare)
    ensures w == h && !IsMode(mode) ==> r == Err(UnknownMode)
    ensures r.Ok? <==> w == h && IsMode(mode)
    ensures r.Ok? ==> (r.value != [] && r.value[|r.value| - 1] == Close
                       && Vertices(r.value) == Outline(mode, w, h, l).value)
    ensures r.Ok? ==> OneContour(r.value)
  {
    if w != h then Err(NotSquare)
    else match Outline(mode, w, h, l)
      case None => Err(UnknownMode)
      case Some(pts) =>
        VerticesOfOpenPolygon(pts);
        VerticesAppend(OpenPolygon(pts), [Close]);
        Ok(OpenPolygon(pts) + [Close])
  }

  // ---------------------------------------------------------------------
  // Geometry of the outlines.

  predicate InRect(p: Point, w: int, h: int) {
    0 <= p.x <= w && 0 <= p.y <= h
  }

  function Corners(w: int, h: int): set<Point> {
    {Origin, Point(w, 0), Point(0, h), Point(w, h)}
  }

  /** The mode decorates a corner on the right edge (top-right or bottom-right). */
  predicate AtRight(mode: int) {
    mode == MODE_RIGHT || mode == MODE_RIGHT_BOTTOM || mode == MODE_RIGHT_TRIANGLE || mode == MODE_RIGHT_BOTTOM_TRIANGLE
  }

  /** The mode decorates a corner on the bottom edge (bottom-left or bottom-right). */
  predicate AtBottom(mode: int) {
    mode == MODE_LEFT_BOTTOM || mode == MODE_RIGHT_BOTTOM || mode == MODE_LEFT_BOTTOM_TRIANGLE
    || mode == MODE_RIGHT_BOTTOM_TRIANGLE
  }

  /** The corner each mode decorates: top-left, top-right, bottom-left or bottom-right. */
  function NamedCorner(mode: int, w: int, h: int): Point
    requires IsMode(mode)
  {
    Point(if AtRight(mode) then w else 0, if AtBottom(mode) then h else 0)
  }

  /** Taxicab distance of p from the named corner of the mode. */
  function CornerDistance(mode: int, w: int, h: int, p: Point): int
    requires IsMode(mode)
  {
    var c := NamedCorner(mode, w, h);
    (if p.x < c.x then c.x - p.x else p.x - c.x) + (if p.y < c.y then c.y - p.y else p.y - c.y)
  }

  function Distances(mode: int, w: int, h: int, pts: seq<Point>): (r: seq<int>)
    requires IsMode(mode)
    ensures |r| == |pts|
  {
    seq(|pts|, i requires 0 <= i < |pts| => CornerDistance(mode, w, h, pts[i]))
  }

  /** With 0 <= L <= w and L <= h every vertex of every outline lies in the w x h rectangle. */
  lemma OutlineInside(mode: int, w: int, h: int, l: int)
    requires IsMode(mode) && 0 <= l <= w && l <= h
    ensures forall p | p in Outline(mode, w, h, l).value :: InRect(p, w, h)
  {
  }

  /**
   * A triangle mode's outline is three corners of the rectangle: its named
   * corner and the two next to it (every corner but the opposite one).
   */
  lemma TriangleCorners(mode: int, w: int, h: int)
    requires IsMode(mode) && !IsBandMode(mode) && 0 < w && 0 < h
    ensures var pts := Outline(mode, w, h, 0).value;
      && |pts| == 3
      && (forall p | p in pts :: p in Corners(w, h))
      && NamedCorner(mode, w, h) in pts
      && Point(w - NamedCorner(mode, w, h).x, h - NamedCorner(mode, w, h).y) !in pts
  {
  }

  /** The triangle outlines do not depend on the slant length. */
  lemma TriangleIgnoresLength(mode: int, w: int, h: int, l: int, l': int)
    requires IsMode(mode) && !IsBandMode(mode)
    ensures Outline(mode, w, h, l) == Outline(mode, w, h, l')
  {
  }

  /**
   * In a square of side w, a band outline is the strip between the
   * diagonal facing its named corner and the parallel line L closer to that
   * corner: two vertices at taxicab distance w from the corner, two at w - L.
   */
  lemma {:induction false} BandBetweenDiagonals(mode: int, w: int, l: int)
    requires IsBandMode(mode) && 0 <= l <= w
    ensures multiset(Distances(mode, w, w, Outline(mode, w, w, l).value)) == multiset{w, w, w - l, w - l}
  {
    var pts := Outline(mode, w, w, l).value;
    var d := Distances(mode, w, w, pts);
    assert d == [CornerDistance(mode, w, w, pts[0]), CornerDistance(mode, w, w, pts[1]),
                 CornerDistance(mode, w, w, pts[2]), CornerDistance(mode, w, w, pts[3])];
    if mode == MODE_LEFT {
      assert NamedCorner(mode, w, w) == Origin;
      assert d == [w, w, w - l, w - l];
    } else if mode == MODE_RIGHT {
      assert NamedCorner(mode, w, w) == Point(w, 0);
      assert d == [w, w, w - l, w - l];
    } else if mode == MODE_LEFT_BOTTOM {
      assert NamedCorner(mode, w, w) == Point(0, w);
      assert d == [w, w, w - l, w - l];
    } else {
      assert NamedCorner(mode, w, w) == Point(w, w);
      assert d == [w, w - l, w - l, w];
    }
    TwiceAndTwice(d, w, w - l);
  }

  /** Four values holding x twice and y twice, in either of the two orders the bands use. */
  lemma TwiceAndTwice(d: seq<int>, x: int, y: int)
    requires d == [x, x, y, y] || d == [x, y, y, x]
    ensures multiset(d) == multiset{x, x, y, y}
  {
  }

  /** Three values holding x once and y twice, in any order. */
  lemma OnceAndTwice(d: seq<int>, x: int, y: int)
    requires d == [x, y, y] || d == [y, x, y] || d == [y, y, x]
    ensures multiset(d) == multiset{x, y, y}
  {
  }

  /** A triangle outline has its named corner (distance 0) and two vertices on the facing diagonal. */
  lemma {:induction false} TriangleOnDiagonal(mode: int, w: int)
    requires IsMode(mode) && !IsBandMode(mode) && 0 <= w
    ensures multiset(Distances(mode, w, w, Outline(mode, w, w, 0).value)) == multiset{0, w, w}
  {
    var pts := Outline(mode, w, w, 0).value;
    var d := Distances(mode, w, w, pts);
    assert d == [CornerDistance(mode, w, w, pts[0]), CornerDistance(mode, w, w, pts[1]),
                 CornerDistance(mode, w, w, pts[2])];
    if mode == MODE_LEFT_TRIANGLE {
      assert pts == [Origin, Point(0, w), Point(w, 0)];
      assert d == [0, w, w];
    } else if mode == MODE_RIGHT_TRIANGLE {
      assert pts == [Origin, Point(w, 0), Point(w, w)];
      assert d == [w, 0, w];
    } else if mode == MODE_LEFT_BOTTOM_TRIANGLE {
      assert pts == [Origin, Point(w, w), Point(0, w)];
      assert d == [w, w, 0];
    } else {
      assert pts == [Point(0, w), Point(w, w), Point(w, 0)];
      assert d == [w, 0, w];
    }
    OnceAndTwice(d, 0, w);
  }

  /** A band as wide as the square covers the same vertices as the triangle of its corner. */
  lemma FullBandIsTriangle(mode: int, w: int)
    requires IsBandMode(mode)
    ensures var band, triangle := Outline(mode, w, w, w).value, Outline(mode + 4, w, w, 0).value;
      forall p :: p in band <==> p in triangle
  {
  }

  // ---------------------------------------------------------------------
  // Area: twice the signed area of a closed polygon (shoelace formula).

  function Cross(p: Point, q: Point): int {
    p.x * q.y - q.x * p.y
  }

  function EdgeSum(pts: seq<Point>, first: Point): int
    requires pts != []
    decreases |pts|
  {
    if |pts| == 1 then Cross(pts[0], first) else Cross(pts[0], pts[1]) + EdgeSum(pts[1..], first)
  }

  function TwiceArea(pts: seq<Point>): (r: int)
    requires pts != []
  {
    var s := EdgeSum(pts, pts[0]);
    if s < 0 then -s else s
  }

  /** Twice the area of a quadrilateral, as the sum of its four edge terms. */
  lemma QuadEdgeSum(pts: seq<Point>)
    requires |pts| == 4
    ensures EdgeSum(pts, pts[0]) == Cross(pts[0], pts[1]) + Cross(pts[1], pts[2]) + Cross(pts[2], pts[3]) + Cross(pts[3], pts[0])
  {
    var f := pts[0];
    assert pts[1..][1..][1..] == [pts[3]];
    assert EdgeSum(pts[1..][1..][1..], f) == Cross(pts[3], f);
    assert EdgeSum(pts[1..][1..], f) == Cross(pts[2], pts[3]) + Cross(pts[3], f);
    assert EdgeSum(pts[1..], f) == Cross(pts[1], pts[2]) + Cross(pts[2], pts[3]) + Cross(pts[3], f);
  }

  lemma TriEdgeSum(pts: seq<Point>)
    requires |pts| == 3
    ensures EdgeSum(pts, pts[0]) == Cross(pts[0], pts[1]) + Cross(pts[1], pts[2]) + Cross(pts[2], pts[0])
  {
    var f := pts[0];
    assert pts[1..][1..] == [pts[2]];
    assert EdgeSum(pts[1..][1..], f) == Cross(pts[2], f);
    assert EdgeSum(pts[1..], f) == Cross(pts[1], pts[2]) + Cross(pts[2], f);
  }

  /**
   * A band of slant length L in a square of side w covers the triangle of
   * its corner less the similar triangle of side w - L: twice its area is
   * w * w - (w - L) * (w - L).
   */
  lemma {:induction false} BandArea(mode: int, w: int, l: int)
    requires IsBandMode(mode) && 0 <= l <= w
    ensures TwiceArea(Outline(mode, w, w, l).value) == w * w - (w - l) * (w - l)
  {
    var k := w - l;
    assert 0 <= k * k <= w * w by {
      assert 0 <= k <= w;
      assert k * k <= k * w <= w * w;
    }
    if mode == MODE_LEFT {
      LeftBandEdgeSum(w, l);
    } else if mode == MODE_RIGHT {
      RightBandEdgeSum(w, l);
    } else if mode == MODE_LEFT_BOTTOM {
      LeftBottomBandEdgeSum(w, l);
    } else {
      RightBottomBandEdgeSum(w, l);
    }
  }

  lemma LeftBandEdgeSum(w: int, l: int)
    ensures EdgeSum(LeftOutline(w, w, l), Point(w, 0)) == w * w - (w - l) * (w - l)
  {
    var pts := LeftOutline(w, w, l);
    QuadEdgeSum(pts);
    assert Cross(pts[2], pts[3]) == - (w - l) * (w - l);
  }

  lemma RightBandEdgeSum(w: int, l: int)
    ensures EdgeSum(RightOutline(w, w, l), Origin) == (w - l) * (w - l) - w * w
  {
    var pts := RightOutline(w, w, l);
    QuadEdgeSum(pts);
    assert Cross(pts[1], pts[2]) == w * (w - l) - w * w;
    assert Cross(pts[2], pts[3]) == - l * (w - l);
    assert w * (w - l) - l * (w - l) == (w - l) * (w - l);
  }

  lemma LeftBottomBandEdgeSum(w: int, l: int)
    ensures EdgeSum(LeftBottomOutline(w, w, l), Origin) == w * w - (w - l) * (w - l)
  {
    var pts := LeftBottomOutline(w, w, l);
    QuadEdgeSum(pts);
    assert Cross(pts[1], pts[2]) == w * w - (w - l) * w;
    assert Cross(pts[2], pts[3]) == (w - l) * l;
    assert (w - l) * w - (w - l) * l == (w - l) * (w - l);
  }

  lemma RightBottomBandEdgeSum(w: int, l: int)
    ensures EdgeSum(RightBottomOutline(w, w, l), Point(0, w)) == (w - l) * (w - l) - w * w
  {
    var pts := RightBottomOutline(w, w, l);
    QuadEdgeSum(pts);
    assert Cross(pts[0], pts[1]) == - l * w;
    assert Cross(pts[1], pts[2]) == l * l - w * w;
    assert Cross(pts[2], pts[3]) == - w * l;
    assert Cross(pts[3], pts[0]) == w * w;
    assert (w - l) * (w - l) == w * w - 2 * w * l + l * l;
  }

  /** A triangle covers half the square: twice its area is w * w. */
  lemma {:induction false} TriangleArea(mode: int, w: int)
    requires IsMode(mode) && !IsBandMode(mode)
    ensures TwiceArea(Outline(mode, w, w, 0).value) == w * w
  {
    var pts := Outline(mode, w, w, 0).value;
    TriEdgeSum(pts);
    var e := EdgeSum(pts, pts[0]);
    assert 0 <= w * w;
    if mode == MODE_LEFT_TRIANGLE {
      assert pts == [Origin, Point(0, w), Point(w, 0)];
      assert e == - w * w;
    } else if mode == MODE_RIGHT_TRIANGLE {
      assert pts == [Origin, Point(w, 0), Point(w, w)];
      assert e == w * w;
    } else if mode == MODE_LEFT_BOTTOM_TRIANGLE {
      assert pts == [Origin, Point(w, w), Point(0, w)];
      assert e == w * w;
    } else {
      assert pts == [Point(0, w), Point(w, w), Point(w, 0)];
      assert e == - w * w;
    }
  }

  // ---------------------------------------------------------------------
  // Label placement (`drawText` and `calculateXY`).

  /** Java's `(int) (n / 2f)` for an int n: halving truncated toward zero. */
  function TruncHalf(n: int): (r: int)
    ensures 0 <= n ==> 0 <= 2 * r <= n && n - 2 * r <= 1
    ensures n < 0 ==> n <= 2 * r <= 0 && 2 * r - n <= 1
  {
    if n >= 0 then n / 2 else -((-n) / 2)
  }

  datatype Rect = Rect(left: int, top: int, right: int, bottom: int)

  /** Rotation in degrees, the box the label is centred in, and the rotation centre. */
  datatype Label = Label(angle: int, box: Rect, centerX: real, centerY: real)

  /**
   * The label placement for a canvas of width cw and height ch. The box is
   * (int)(cw - L/2) by (int)(ch - L/2), shifted by offset = (int)(L/2) to the
   * right for the right-hand corners and down for the bottom corners.
   * None for a mode outside the eight (drawing never gets here then).
   */
  function LabelLayout(mode: int, cw: int, ch: int, l: int): (r: Option<Label>)
    ensures r.Some? <==> IsMode(mode)
  {
    var w := TruncHalf(2 * cw - l);
    var h := TruncHalf(2 * ch - l);
    var offset := TruncHalf(l);
    if mode == MODE_LEFT_TRIANGLE || mode == MODE_LEFT then
      Some(Label(-ROTATE_ANGLE, Rect(0, 0, w, h), w as real / 2.0, h as real / 2.0))
    else if mode == MODE_RIGHT_TRIANGLE || mode == MODE_RIGHT then
      Some(Label(ROTATE_ANGLE, Rect(offset, 0, w + offset, h), w as real / 2.0 + offset as real, h as real / 2.0))
    else if mode == MODE_LEFT_BOTTOM_TRIANGLE || mode == MODE_LEFT_BOTTOM then
      Some(Label(ROTATE_ANGLE, Rect(0, offset, w, h + offset), w as real / 2.0, h as real / 2.0 + offset as real))
    else if mode == MODE_RIGHT_BOTTOM_TRIANGLE || mode == MODE_RIGHT_BOTTOM then
      Some(Label(-ROTATE_ANGLE, Rect(offset, offset, w + offset, h + offset),
                 w as real / 2.0 + offset as real, h as real / 2.0 + offset as real))
    else
      None
  }

  /**
   * The label turns by -45 degrees for the top-left and bottom-right corners
   * and by +45 degrees for the other two; it rotates about the centre of its
   * box; the box has the same size for every mode and is shifted by (int)(L/2)
   * exactly along the axes on which the named corner is at the far edge.
   */
  lemma LabelPlacement(mode: int, cw: int, ch: int, l: int)
    requires IsMode(mode)
    ensures var lab := LabelLayout(mode, cw, ch, l).value;
      && lab.angle == (if AtRight(mode) == AtBottom(mode) then -45 else 45)
      && lab.centerX == (lab.box.left + lab.box.right) as real / 2.0
      && lab.centerY == (lab.box.top + lab.box.bottom) as real / 2.0
      && lab.box.right - lab.box.left == TruncHalf(2 * cw - l)
      && lab.box.bottom - lab.box.top == TruncHalf(2 * ch - l)
      && lab.box.left == (if AtRight(mode) then TruncHalf(l) else 0)
      && lab.box.top == (if AtBottom(mode) then TruncHalf(l) else 0)
  {
  }

  /** Each triangle mode places its label like the band mode of the same corner. */
  lemma TriangleSharesLabel(mode: int, cw: int, ch: int, l: int)
    requires IsBandMode(mode)
    ensures LabelLayout(mode + 4, cw, ch, l) == LabelLayout(mode, cw, ch, l)
  {
  }

  /** What `onDraw` produces: the filled path, the label placement and the label's text. */
  datatype Drawing = Drawing(background: seq<Verb>, placement: Label, caption: string)

  /**
   * `onDraw` for the stored text, None standing for a null text. The
   * background's error comes first; a null text fails only afterwards, when
   * the label is measured.
   */
  function Render(mode: int, w: int, h: int, l: int, text: Option<string>): (r: Result<Drawing, Exception>)
    ensures r.Err? <==> Background(mode, w, h, l).Err? || text.None?
    ensures Background(mode, w, h, l).Err? ==> r.error == Background(mode, w, h, l).error
    ensures Background(mode, w, h, l).Ok? && text.None? ==> r == Err(NullText)
    ensures r.Ok? ==> r.value.background == Background(mode, w, h, l).value
                      && Some(r.value.placement) == LabelLayout(mode, w, h, l)
                      && Some(r.value.caption) == text
  {
    match Background(mode, w, h, l)
    case Err(e) => Err(e)
    case Ok(verbs) =>
      match text
      case None => Err(NullText)
      case Some(t) => Ok(Drawing(verbs, LabelLayout(mode, w, h, l).value, t))
  }

  // ---------------------------------------------------------------------
  // setMode, as written and as intended.

  /**
   * `setMode(requested)` as written: it validates the mode already stored,
   * not the requested one, and stores the request unchecked.
   */
  function ModeAfterSet(stored: int, requested: int): (r: Result<int, Exception>)
    ensures r.Ok? <==> IsMode(stored)
    ensures r.Ok? ==> r.value == requested
    ensures r.Err? ==> r.error == IllegalMode(requested)
  {
    if stored > MODE_RIGHT_BOTTOM_TRIANGLE || stored < 0 then Err(IllegalMode(requested)) else Ok(requested)
  }

  /**
   * As written, a bad request is accepted and only the next draw fails; after
   * it, even a good request is refused.
   */
  lemma SetModeChecksStoredMode(w: int, l: int, text: Option<string>)
    ensures ModeAfterSet(MODE_LEFT, 8) == Ok(8)
    ensures Render(8, w, w, l, text) == Err(UnknownMode)
    ensures ModeAfterSet(8, MODE_RIGHT) == Err(IllegalMode(MODE_RIGHT))
  {
  }

  /** `setMode(requested)` as its error message intends: the request is validated. */
  function ModeAfterSetIntended(stored: int, requested: int): (r: Result<int, Exception>)
    ensures r.Ok? <==> IsMode(requested)
    ensures r.Ok? ==> r.value == requested
    ensures r.Err? ==> r.error == IllegalMode(requested)
  {
    if requested > MODE_RIGHT_BOTTOM_TRIANGLE || requested < 0 then Err(IllegalMode(requested)) else Ok(requested)
  }

  /** The stored mode after a series of validated requests; a refused one leaves it as it was. */
  function ModeAfterRequests(stored: int, requests: seq<int>): int
    decreases |requests|
  {
    if requests == [] then stored
    else
      var next := match ModeAfterSetIntended(stored, requests[0]) case Ok(m) => m case Err(_) => stored;
      ModeAfterRequests(next, requests[1..])
  }

  /**
   * With the request validated, the stored mode is always one of the eight,
   * so drawing a square with a text never fails.
   */
  lemma {:induction false} IntendedKeepsModeValid(stored: int, requests: seq<int>, w: int, l: int, text: string)
    requires IsMode(stored)
    ensures IsMode(ModeAfterRequests(stored, requests))
    ensures Render(ModeAfterRequests(stored, requests), w, w, l, Some(text)).Ok?
    decreases |requests|
  {
    if requests != [] {
      var next := match ModeAfterSetIntended(stored, requests[0]) case Ok(m) => m case Err(_) => stored;
      IntendedKeepsModeValid(next, requests[1..], w, l, text);
    }
  }

  // ---------------------------------------------------------------------
  // The view.

  /** The view's settings; a null text is None. */
  datatype Config = Config(text: Option<string>, textSize: int, textColor: int, backgroundColor: int,
                           slantedLength: int, mode: int)

  const DefaultConfig := Config(Some(""), 14, WHITE, TRANSPARENT, 40, MODE_LEFT)

  class SlantedView {
    var text: Option<string>
    var textSize: int
    var textColor: int
    var backgroundColor: int
    var slantedLength: int
    var mode: int

    function Configuration(): Config
      reads this
    {
      Config(text, textSize, textColor, backgroundColor, slantedLength, mode)
    }

    /** A view inflated without attributes. */
    constructor ()
      ensures Configuration() == DefaultConfig
    {
      text, textSize, textColor, backgroundColor := Some(""), 14, WHITE, TRANSPARENT;
      slantedLength, mode := 40, MODE_LEFT;
    }

    /** `setText(String)`; None stands for a null argument, which is stored as it is. */
    method SetText(s: Option<string>) returns (self: SlantedView)
      modifies this
      ensures self == this && Configuration() == old(Configuration()).(text := s)
    {
      text := s;
      return this;
    }

    /** `setText(int res)`, given the string the resource resolves to: an empty one is ignored. */
    method SetTextResource(resolved: string) returns (self: SlantedView)
      modifies this
      ensures self == this
      ensures Configuration() == if resolved == "" then old(Configuration()) else old(Configuration()).(text := Some(resolved))
    {
      if resolved != "" {
        var _ := SetText(Some(resolved));
      }
      return this;
    }

    method GetText() returns (s: Option<string>)
      ensures s == Configuration().text
    {
      return text;
    }

    method SetSlantedBackgroundColor(color: int) returns (self: SlantedView)
      modifies this
      ensures self == this && Configuration() == old(Configuration()).(backgroundColor := color)
    {
      backgroundColor := color;
      return this;
    }

    method SetTextColor(color: int) returns (self: SlantedView)
      modifies this
      ensures self == this && Configuration() == old(Configuration()).(textColor := color)
    {
      textColor := color;
      return this;
    }

    /** As written: throws when the stored mode is bad, otherwise stores `requested` unchecked. */
    method SetMode(requested: int) returns (r: Result<SlantedView, Exception>)
      modifies this
      ensures ModeAfterSet(old(mode), requested).Ok? ==>
        r == Ok(this) && Configuration() == old(Configuration()).(mode := requested)
      ensures ModeAfterSet(old(mode), requested).Err? ==>
        r == Err(ModeAfterSet(old(mode), requested).error) && Configuration() == old(Configuration())
    {
      if mode > MODE_RIGHT_BOTTOM_TRIANGLE || mode < 0 {
        return Err(IllegalMode(requested));
      }
      mode := requested;
      return Ok(this);
    }

    method GetMode() returns (m: int)
      ensures m == Configuration().mode
    {
      return mode;
    }

    method SetTextSize(size: int) returns (self: SlantedView)
      modifies this
      ensures self == this && Configuration() == old(Configuration()).(textSize := size)
    {
      textSize := size;
      return this;
    }

    method SetSlantedLength(length: int) returns (self: SlantedView)
      modifies this
      ensures self == this && Configuration() == old(Configuration()).(slantedLength := length)
    {
      slantedLength := length;
      return this;
    }

    method ModeLeftPath(path: Path, w: int, h: int)
      modifies path
      ensures path.verbs == Traced(old(path.verbs) + [Move(Point(w, 0))], LeftOutline(w, h, slantedLength)[1..])
    {
      path.MoveTo(w, 0);
      ghost var v0 := path.verbs;
      path.LineTo(0, h);
      ghost var v1 := path.verbs;
      path.LineTo(0, h - slantedLength);
      ghost var v2 := path.verbs;
      path.LineTo(w - slantedLength, 0);
      assert Traced(v2, [Point(w - slantedLength, 0)]) == path.verbs;
      assert Traced(v1, [Point(0, h - slantedLength), Point(w - slantedLength, 0)]) == path.verbs;
      assert Traced(v0, [Point(0, h), Point(0, h - slantedLength), Point(w - slantedLength, 0)]) == path.verbs;
      assert LeftOutline(w, h, slantedLength)[1..] == [Point(0, h), Point(0, h - slantedLength), Point(w - slantedLength, 0)];
    }

    method ModeRightPath(path: Path, w: int, h: int)
      modifies path
      ensures path.verbs == Traced(old(path.verbs), RightOutline(w, h, slantedLength)[1..])
    {
      ghost var v0 := path.verbs;
      path.LineTo(w, h);
      ghost var v1 := path.verbs;
      path.LineTo(w, h - slantedLength);
      ghost var v2 := path.verbs;
      path.LineTo(slantedLength, 0);
      assert Traced(v2, [Point(slantedLength, 0)]) == path.verbs;
      assert Traced(v1, [Point(w, h - slantedLength), Point(slantedLength, 0)]) == path.verbs;
      assert Traced(v0, [Point(w, h), Point(w, h - slantedLength), Point(slantedLength, 0)]) == path.verbs;
      assert RightOutline(w, h, slantedLength)[1..] == [Point(w, h), Point(w, h - slantedLength), Point(slantedLength, 0)];
    }

    method ModeLeftBottomPath(path: Path, w: int, h: int)
      modifies path
      ensures path.verbs == Traced(old(path.verbs), LeftBottomOutline(w, h, slantedLength)[1..])
    {
      ghost var v0 := path.verbs;
      path.LineTo(w, h);
      ghost var v1 := path.verbs;
      path.LineTo(w - slantedLength, h);
      ghost var v2 := path.verbs;
      path.LineTo(0, slantedLength);
      assert Traced(v2, [Point(0, slantedLength)]) == path.verbs;
      assert Traced(v1, [Point(w - slantedLength, h), Point(0, slantedLength)]) == path.verbs;
      assert Traced(v0, [Point(w, h), Point(w - slantedLength, h), Point(0, slantedLength)]) == path.verbs;
      assert LeftBottomOutline(w, h, slantedLength)[1..] == [Point(w, h), Point(w - slantedLength, h), Point(0, slantedLength)];
    }

    method ModeRightBottomPath(path: Path, w: int, h: int)
      modifies path
      ensures path.verbs == Traced(old(path.verbs) + [Move(Point(0, h))], RightBottomOutline(w, h, slantedLength)[1..])
    {
      path.MoveTo(0, h);
      ghost var v0 := path.verbs;
      path.LineTo(slantedLength, h);
      ghost var v1 := path.verbs;
      path.LineTo(w, slantedLength);
      ghost var v2 := path.verbs;
      path.LineTo(w, 0);
      assert Traced(v2, [Point(w, 0)]) == path.verbs;
      assert Traced(v1, [Point(w, slantedLength), Point(w, 0)]) == path.verbs;
      assert Traced(v0, [Point(slantedLength, h), Point(w, slantedLength), Point(w, 0)]) == path.verbs;
      assert RightBottomOutline(w, h, slantedLength)[1..] == [Point(slantedLength, h), Point(w, slantedLength), Point(w, 0)];
    }

    method ModeLeftTrianglePath(path: Path, w: int, h: int)
      modifies path
      ensures path.verbs == Traced(old(path.verbs), LeftTriangleOutline(w, h)[1..])
    {
      ghost var v0 := path.verbs;
      path.LineTo(0, h);
      ghost var v1 := path.verbs;
      path.LineTo(w, 0);
      assert Traced(v1, [Point(w, 0)]) == path.verbs;
      assert Traced(v0, [Point(0, h), Point(w, 0)]) == path.verbs;
      assert LeftTriangleOutline(w, h)[1..] == [Point(0, h), Point(w, 0)];
    }

    method ModeRightTrianglePath(path: Path, w: int, h: int)
      modifies path
      ensures path.verbs == Traced(old(path.verbs), RightTriangleOutline(w, h)[1..])
    {
      ghost var v0 := path.verbs;
      path.LineTo(w, 0);
      ghost var v1 := path.verbs;
      path.LineTo(w, h);
      assert Traced(v1, [Point(w, h)]) == path.verbs;
      assert Traced(v0, [Point(w, 0), Point(w, h)]) == path.verbs;
      assert RightTriangleOutline(w, h)[1..] == [Point(w, 0), Point(w, h)];
    }

    method ModeLeftBottomTrianglePath(path: Path, w: int, h: int)
      modifies path
      ensures path.verbs == Traced(old(path.verbs), LeftBottomTriangleOutline(w, h)[1..])
    {
      ghost var v0 := path.verbs;
      path.LineTo(w, h);
      ghost var v1 := path.verbs;
      path.LineTo(0, h);
      assert Traced(v1, [Point(0, h)]) == path.verbs;
      assert Traced(v0, [Point(w, h), Point(0, h)]) == path.verbs;
      assert LeftBottomTriangleOutline(w, h)[1..] == [Point(w, h), Point(0, h)];
    }

    method ModeRightBottomTrianglePath(path: Path, w: int, h: int)
      modifies path
      ensures path.verbs == Traced(old(path.verbs) + [Move(Point(0, h))], RightBottomTriangleOutline(w, h)[1..])
    {
      path.MoveTo(0, h);
      ghost var v0 := path.verbs;
      path.LineTo(w, h);
      ghost var v1 := path.verbs;
      path.LineTo(w, 0);
      assert Traced(v1, [Point(w, 0)]) == path.verbs;
      assert Traced(v0, [Point(w, h), Point(w, 0)]) == path.verbs;
      assert RightBottomTriangleOutline(w, h)[1..] == [Point(w, h), Point(w, 0)];
    }

    /**
     * The switch of `drawBackground`: the builder the stored mode selects
     * traces its outline on the new path; no builder for any other mode.
     */
    method TraceOutline(path: Path, w: int, h: int) returns (pts: Option<seq<Point>>)
      requires path.verbs == []
      modifies path
      ensures pts == Outline(mode, w, h, slantedLength)
      ensures pts.Some? ==> path.verbs == OpenPolygon(pts.value)
    {
      var outline: seq<Point>;
      if mode == MODE_LEFT {
        ModeLeftPath(path, w, h);
        outline := LeftOutline(w, h, slantedLength);
      } else if mode == MODE_RIGHT {
        ModeRightPath(path, w, h);
        outline := RightOutline(w, h, slantedLength);
      } else if mode == MODE_LEFT_BOTTOM {
        ModeLeftBottomPath(path, w, h);
        outline := LeftBottomOutline(w, h, slantedLength);
      } else if mode == MODE_RIGHT_BOTTOM {
        ModeRightBottomPath(path, w, h);
        outline := RightBottomOutline(w, h, slantedLength);
      } else if mode == MODE_LEFT_TRIANGLE {
        ModeLeftTrianglePath(path, w, h);
        outline := LeftTriangleOutline(w, h);
      } else if mode == MODE_RIGHT_TRIANGLE {
        ModeRightTrianglePath(path, w, h);
        outline := RightTriangleOutline(w, h);
      } else if mode == MODE_LEFT_BOTTOM_TRIANGLE {
        ModeLeftBottomTrianglePath(path, w, h);
        outline := LeftBottomTriangleOutline(w, h);
      } else if mode == MODE_RIGHT_BOTTOM_TRIANGLE {
        ModeRightBottomTrianglePath(path, w, h);
        outline := RightBottomTriangleOutline(w, h);
      } else {
        return None;
      }
      if mode != MODE_LEFT && mode != MODE_RIGHT_BOTTOM && mode != MODE_RIGHT_BOTTOM_TRIANGLE {
        TracedFromEmpty(outline[1..]);
        assert [Origin] + outline[1..] == outline;
      } else {
        assert [] + [Move(outline[0])] == [Move(outline[0])];
        TracedAfterMove(outline[0], outline[1..]);
        assert [outline[0]] + outline[1..] == outline;
      }
      return Some(outline);
    }

    /** `drawBackground` for a view of width w and height h: the verbs of the path it fills. */
    method DrawBackground(w: int, h: int) returns (r: Result<seq<Verb>, Exception>)
      ensures r == Background(mode, w, h, slantedLength)
    {
      var path := new Path();
      if w != h {
        return Err(NotSquare);
      }
      var pts := TraceOutline(path, w, h);
      if pts.None? {
        return Err(UnknownMode);
      }
      path.Close();
      return Ok(path.verbs);
    }

    /** `onDraw` on a canvas the size of the view: the background, then the label. */
    method OnDraw(w: int, h: int) returns (r: Result<Drawing, Exception>)
      ensures r == Render(mode, w, h, slantedLength, text)
    {
      var background := DrawBackground(w, h);
      if background.Err? {
        return Err(background.error);
      }
      if text.None? {
        return Err(NullText);
      }
      var placement := LabelLayout(mode, w, h, slantedLength);
      return Ok(Drawing(background.value, placement.value, text.value));
    }
  }
}
