/** The winding test of set_layer_pattern_polygon: a shoelace sum over the
    vertex loop closed with vertex 0, negative for clockwise input. */
module Geometry {
  import opened Wrappers
  import opened Errors

  datatype Point = Point(x: real, y: real)

  /** The z component of the cross product of two position vectors. */
  function Cross(a: Point, b: Point): real {
    a.x * b.y - b.x * a.y
  }

  /** Sum of Cross over each pair of consecutive points of an open path. */
  function PathSum(vs: seq<Point>): real {
    if |vs| < 2 then 0.0 else Cross(vs[0], vs[1]) + PathSum(vs[1..])
  }

  /** Twice the signed area: the path closed by appending vertex 0. */
  function LoopSum(vs: seq<Point>): real
    requires |vs| > 0
  {
    PathSum(vs + [vs[0]])
  }

  function Reverse<T>(s: seq<T>): (r: seq<T>)
    ensures |r| == |s|
    ensures forall i :: 0 <= i < |s| ==> r[i] == s[|s| - 1 - i]
  {
    if |s| == 0 then [] else Reverse(s[1..]) + [s[0]]
  }

  /** The polygon check: the vertex array must not be empty (indexing its
      first row fails otherwise) and the loop sum must not be negative. */
  function CheckWinding(vs: seq<Point>): (r: Result<(), Error>)
    ensures r.Ok? <==> |vs| > 0 && LoopSum(vs) >= 0.0
    ensures r.Err? ==> r.error == (if |vs| == 0 then EmptyPolygon else NotCounterClockwise)
  {
    if |vs| == 0 then Err(EmptyPolygon)
    else if LoopSum(vs) < 0.0 then Err(NotCounterClockwise)
    else Ok(())
  }

  lemma {:induction false} PathSumSnoc(vs: seq<Point>, p: Point)
    requires |vs| > 0
    ensures PathSum(vs + [p]) == PathSum(vs) + Cross(vs[|vs| - 1], p)
  {
    if |vs| == 1 {
      assert vs + [p] == [vs[0], p];
    } else {
      assert (vs + [p])[1..] == vs[1..] + [p];
      PathSumSnoc(vs[1..], p);
    }
  }

  /** The loop sum is the open path sum plus the closing edge. */
  lemma {:induction false} LoopSumSplit(vs: seq<Point>)
    requires |vs| > 0
    ensures LoopSum(vs) == PathSum(vs) + Cross(vs[|vs| - 1], vs[0])
  {
    PathSumSnoc(vs, vs[0]);
  }

  lemma {:induction false} PathSumReverse(vs: seq<Point>)
    ensures PathSum(Reverse(vs)) == -PathSum(vs)
  {
    if |vs| >= 2 {
      var rest := vs[1..];
      PathSumReverse(rest);
      assert Reverse(vs) == Reverse(rest) + [vs[0]];
      PathSumSnoc(Reverse(rest), vs[0]);
      assert Reverse(rest)[|rest| - 1] == rest[0] == vs[1];
    } else if |vs| == 1 {
      assert Reverse(vs) == vs;
    }
  }

  lemma CrossAntisymmetric(a: Point, b: Point)
    ensures Cross(b, a) == -Cross(a, b)
  {
  }

  /** Reversing the vertex order negates the loop sum. */
  lemma {:induction false} LoopSumReverse(vs: seq<Point>)
    requires |vs| > 0
    ensures LoopSum(Reverse(vs)) == -LoopSum(vs)
  {
    var rv := Reverse(vs);
    var n := |vs|;
    LoopSumSplit(vs);
    LoopSumSplit(rv);
    PathSumReverse(vs);
    assert rv[n - 1] == vs[0] && rv[0] == vs[n - 1];
    CrossAntisymmetric(vs[n - 1], vs[0]);
  }

  /** A polygon entered counter-clockwise with non-zero area is rejected
      once its vertex order is reversed. */
  lemma {:induction false} ReversedPolygonRejected(vs: seq<Point>)
    requires |vs| > 0 && LoopSum(vs) > 0.0
    ensures CheckWinding(vs).Ok?
    ensures CheckWinding(Reverse(vs)) == Err(NotCounterClockwise)
  {
    LoopSumReverse(vs);
  }

  /** Starting the loop at another vertex does not change the sum. */
  lemma LoopSumRotate(vs: seq<Point>)
    requires |vs| > 0
    ensures LoopSum(vs[1..] + [vs[0]]) == LoopSum(vs)
  {
    var rot := vs[1..] + [vs[0]];
    LoopSumSplit(vs);
    LoopSumSplit(rot);
    if |vs| > 1 {
      PathSumSnoc(vs[1..], vs[0]);
    }
  }

  /** Polygons of zero area, such as one vertex or a segment traversed
      back and forth, pass the check; an empty vertex array does not. */
  lemma DegenerateAccepted(p: Point, q: Point)
    ensures CheckWinding([p]).Ok?
    ensures CheckWinding([p, q]).Ok?
    ensures CheckWinding([]) == Err(EmptyPolygon)
  {
    LoopSumSplit([p]);
    assert PathSum([p]) == 0.0;
    LoopSumSplit([p, q]);
    assert [p, q][1..] == [q];
    assert PathSum([p, q]) == Cross(p, q);
    CrossAntisymmetric(p, q);
  }

  lemma {:induction false} LoopSumQuad(a: Point, b: Point, c: Point, d: Point)
    ensures LoopSum([a, b, c, d]) == Cross(a, b) + Cross(b, c) + Cross(c, d) + Cross(d, a)
  {
    var q := [a, b, c, d];
    assert q[1..] == [b, c, d];
    assert [b, c, d][1..] == [c, d];
    assert [c, d][1..] == [d];
    assert PathSum([c, d]) == Cross(c, d);
    assert PathSum([b, c, d]) == Cross(b, c) + PathSum([c, d]);
    assert PathSum(q) == Cross(a, b) + PathSum([b, c, d]);
    LoopSumSplit(q);
  }

  /** The axis-aligned square of half side h listed counter-clockwise from
      its upper right corner; the repository's polygon test uses h = 0.5. */
  function Square(h: real): seq<Point> {
    [Point(h, h), Point(-h, h), Point(-h, -h), Point(h, -h)]
  }

  lemma SquareAccepted(h: real)
    requires h > 0.0
    ensures LoopSum(Square(h)) == 8.0 * h * h
    ensures CheckWinding(Square(h)).Ok?
    ensures CheckWinding(Reverse(Square(h))) == Err(NotCounterClockwise)
  {
    var a, b, c, d := Point(h, h), Point(-h, h), Point(-h, -h), Point(h, -h);
    assert Cross(a, b) == 2.0 * h * h;
    assert Cross(b, c) == 2.0 * h * h;
    assert Cross(c, d) == 2.0 * h * h;
    assert Cross(d, a) == 2.0 * h * h;
    LoopSumQuad(a, b, c, d);
    assert h * h > 0.0;
    ReversedPolygonRejected(Square(h));
  }
}
