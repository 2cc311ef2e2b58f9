/**
 * The part of the platform's 2-D path that the slanted view uses: a path is
 * a list of verbs, built by `moveTo`, `lineTo` and `close`.
 *
 * The rule that matters is the one for `lineTo` on a path that has no open
 * contour: the path first injects a `moveTo` to the start of the last contour,
 * or to the origin (0, 0) when there has been no `moveTo` at all.
 */
module Graphics {

  datatype Point = Point(x: int, y: int)

  const Origin := Point(0, 0)

  datatype Verb = Move(to: Point) | Line(to: Point) | Close

  /** A `lineTo` on these verbs must first inject a `moveTo`. */
  predicate NeedsMove(verbs: seq<Verb>) {
    verbs == [] || verbs[|verbs| - 1] == Close
  }

  /** Where an injected `moveTo` goes: the last `moveTo` point, else the origin. */
  function ContourStart(verbs: seq<Verb>): (p: Point)
    ensures (forall i | 0 <= i < |verbs| :: !verbs[i].Move?) ==> p == Origin
    ensures verbs != [] && verbs[|verbs| - 1].Move? ==> p == verbs[|verbs| - 1].to
  {
    if verbs == [] then Origin
    else if verbs[|verbs| - 1].Move? then verbs[|verbs| - 1].to
    else ContourStart(verbs[..|verbs| - 1])
  }

  /** The verbs `lineTo(q)` appends to `verbs`. */
  function LineToVerbs(verbs: seq<Verb>, q: Point): seq<Verb> {
    (if NeedsMove(verbs) then [Move(ContourStart(verbs))] else []) + [Line(q)]
  }

  /** One `Line` verb per point, in order. */
  function Lines(pts: seq<Point>): (r: seq<Verb>)
    ensures |r| == |pts| && forall i | 0 <= i < |r| :: r[i] == Line(pts[i])
  {
    seq(|pts|, i requires 0 <= i < |pts| => Line(pts[i]))
  }

  /** The verbs of one contour through `pts`, in order, left open. */
  function OpenPolygon(pts: seq<Point>): (r: seq<Verb>)
    requires pts != []
    ensures |r| == |pts| && r[0] == Move(pts[0])
    ensures forall i | 0 < i < |r| :: r[i] == Line(pts[i])
  {
    [Move(pts[0])] + Lines(pts[1..])
  }

  /** A single closed contour: a `moveTo`, then only `lineTo`s, then a `close`. */
  predicate OneContour(verbs: seq<Verb>) {
    && |verbs| >= 2 && verbs[0].Move? && verbs[|verbs| - 1] == Close
    && forall i | 0 < i < |verbs| - 1 :: verbs[i].Line?
  }

  /** The verbs of a path after successive `lineTo` calls through `pts`. */
  function Traced(verbs: seq<Verb>, pts: seq<Point>): seq<Verb>
    decreases |pts|
  {
    if pts == [] then verbs else Traced(verbs + LineToVerbs(verbs, pts[0]), pts[1..])
  }

  /** Inside an open contour, `lineTo` calls add plain segments. */
  lemma {:induction false} TracedInContour(verbs: seq<Verb>, pts: seq<Point>)
    requires !NeedsMove(verbs)
    ensures Traced(verbs, pts) == verbs + Lines(pts)
    decreases |pts|
  {
    if pts != [] {
      assert LineToVerbs(verbs, pts[0]) == [Line(pts[0])];
      var next := verbs + [Line(pts[0])];
      assert next[|next| - 1] == Line(pts[0]);
      TracedInContour(next, pts[1..]);
      assert Lines(pts) == [Line(pts[0])] + Lines(pts[1..]);
    }
  }

  /** On an empty path, the first `lineTo` starts the contour at the origin. */
  lemma TracedFromEmpty(pts: seq<Point>)
    requires pts != []
    ensures Traced([], pts) == OpenPolygon([Origin] + pts)
  {
    var first := [Move(Origin), Line(pts[0])];
    assert LineToVerbs([], pts[0]) == first;
    assert first[|first| - 1] == Line(pts[0]);
    assert [] + first == first;
    TracedInContour(first, pts[1..]);
    assert ([Origin] + pts)[1..] == pts;
    assert Lines(pts) == [Line(pts[0])] + Lines(pts[1..]);
  }

  /** After a `moveTo(p)` on an empty path, `lineTo` calls trace a polygon from p. */
  lemma TracedAfterMove(p: Point, pts: seq<Point>)
    ensures Traced([Move(p)], pts) == OpenPolygon([p] + pts)
  {
    TracedInContour([Move(p)], pts);
    assert ([p] + pts)[1..] == pts;
  }

  /** The vertices a list of verbs passes through, in order. */
  function Vertices(verbs: seq<Verb>): seq<Point>
  {
    if verbs == [] then []
    else (match verbs[0] case Move(p) => [p] case Line(p) => [p] case Close => [])
         + Vertices(verbs[1..])
  }

  lemma VerticesOfOpenPolygon(pts: seq<Point>)
    requires pts != []
    ensures Vertices(OpenPolygon(pts)) == pts
  {
    VerticesAppend([Move(pts[0])], Lines(pts[1..]));
    VerticesOfLines(pts[1..]);
    assert Vertices([Move(pts[0])]) == [pts[0]] by {
      assert [Move(pts[0])][1..] == [];
    }
    assert [pts[0]] + pts[1..] == pts;
  }

  lemma {:induction false} VerticesAppend(a: seq<Verb>, b: seq<Verb>)
    ensures Vertices(a + b) == Vertices(a) + Vertices(b)
    decreases |a|
  {
    if a != [] {
      VerticesAppend(a[1..], b);
      assert (a + b)[1..] == a[1..] + b;
    } else {
      assert a + b == b;
    }
  }

  lemma {:induction false} VerticesOfLines(pts: seq<Point>)
    ensures Vertices(Lines(pts)) == pts
    decreases |pts|
  {
    if pts != [] {
      VerticesOfLines(pts[1..]);
      assert Lines(pts)[1..] == Lines(pts[1..]);
      assert pts == [pts[0]] + pts[1..];
    }
  }

  /** A path under construction; `verbs` is its whole content. */
  class Path {
    var verbs: seq<Verb>

    constructor ()
      ensures verbs == []
    {
      verbs := [];
    }

    /** Starts a new contour at (x, y). */
    method MoveTo(x: int, y: int)
      modifies this
      ensures verbs == old(verbs) + [Move(Point(x, y))]
    {
      verbs := verbs + [Move(Point(x, y))];
    }

    /** Adds a segment to (x, y), injecting a `moveTo` first when no contour is open. */
    method LineTo(x: int, y: int)
      modifies this
      ensures verbs == old(verbs) + LineToVerbs(old(verbs), Point(x, y))
    {
      if NeedsMove(verbs) {
        verbs := verbs + [Move(ContourStart(verbs))];
      }
      verbs := verbs + [Line(Point(x, y))];
    }

    /** Closes the current contour; a path that is empty or already closed is left as it is. */
    method Close()
      modifies this
      ensures verbs == if NeedsMove(old(verbs)) then old(verbs) else old(verbs) + [Verb.Close]
    {
      if !NeedsMove(verbs) {
        verbs := verbs + [Verb.Close];
      }
    }
  }
}
