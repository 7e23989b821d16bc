/** Points of the 2D pixel plane, the flat position lists the samples upload
    (x0, y0, x1, y1, ...), and the "F" shape that three of the samples draw. */
module Geometry {

  /** A 2D position; the samples' `vec2`. */
  datatype Point = Point(x: real, y: real)

  /** Moves a point by (dx, dy). */
  function Translate(p: Point, dx: real, dy: real): Point {
    Point(p.x + dx, p.y + dy)
  }

  /** Scales each axis separately. */
  function ScalePoint(p: Point, sx: real, sy: real): Point {
    Point(p.x * sx, p.y * sy)
  }

  /** The rotation the samples actually compute, with c and s standing for the
      cosine and sine of the angle: (x, y) goes to (x c + y s, -x s + y c).
      In a Y-up frame this turns clockwise; the pixel frame has Y pointing down. */
  function Rotate(p: Point, c: real, s: real): Point {
    Point(p.x * c + p.y * s, -p.x * s + p.y * c)
  }

  function SquaredLength(p: Point): real {
    p.x * p.x + p.y * p.y
  }

  /** When (c, s) is a unit vector, as cosine and sine are, the rotation keeps
      the distance to the origin. */
  lemma RotatePreservesLength(p: Point, c: real, s: real)
    requires c * c + s * s == 1.0
    ensures SquaredLength(Rotate(p, c, s)) == SquaredLength(p)
  {
    var q := Rotate(p, c, s);
    calc {
      q.x * q.x + q.y * q.y;
      (p.x * c + p.y * s) * (p.x * c + p.y * s) + (-p.x * s + p.y * c) * (-p.x * s + p.y * c);
      p.x * p.x * (c * c + s * s) + p.y * p.y * (c * c + s * s);
      p.x * p.x + p.y * p.y;
    }
  }

  /** Number of two-component vertices in a flat position list; the `count`
      handed to drawArrays must equal it. */
  function VertexCount(positions: seq<real>): nat {
    |positions| / 2
  }

  /** Vertex k of a flat position list. */
  function Vertex(positions: seq<real>, k: nat): Point
    requires 2 * k + 1 < |positions|
  {
    Point(positions[2 * k], positions[2 * k + 1])
  }

  /** The list with every x component moved by dx and every y component by dy. */
  function Shift(positions: seq<real>, dx: real, dy: real): (r: seq<real>)
    ensures |r| == |positions|
    ensures forall k: nat :: 2 * k + 1 < |positions| ==>
              Vertex(r, k) == Translate(Vertex(positions, k), dx, dy)
  {
    seq(|positions|, i requires 0 <= i < |positions| =>
      positions[i] + (if i % 2 == 0 then dx else dy))
  }

  /** Every vertex lies in the closed box [x1, x2] x [y1, y2]. */
  ghost predicate AllVerticesIn(positions: seq<real>, x1: real, y1: real, x2: real, y2: real) {
    forall k: nat :: 2 * k + 1 < |positions| ==>
      x1 <= Vertex(positions, k).x <= x2 && y1 <= Vertex(positions, k).y <= y2
  }

  /** The vertices with index in [from, to). */
  ghost function VertexSet(positions: seq<real>, from: nat, to: nat): set<Point>
    requires from <= to && 2 * to <= |positions|
  {
    set k: nat | from <= k < to :: Vertex(positions, k)
  }

  /** The four corners of the box [x1, x2] x [y1, y2]. */
  function Corners(x1: real, y1: real, x2: real, y2: real): set<Point> {
    {Point(x1, y1), Point(x2, y1), Point(x1, y2), Point(x2, y2)}
  }

  /** The six vertices of two triangles covering [x1, x2] x [y1, y2], in the
      order every sample lists them: (x1,y1) (x2,y1) (x1,y2), then
      (x1,y2) (x2,y1) (x2,y2). */
  function Quad(x1: real, y1: real, x2: real, y2: real): (positions: seq<real>)
    ensures |positions| == 12
  {
    [ x1, y1,
      x2, y1,
      x1, y2,
      x1, y2,
      x2, y1,
      x2, y2 ]
  }

  /** The six vertices of Quad are exactly the box's four corners, and the two
      triangles share the diagonal from (x2, y1) to (x1, y2). */
  lemma QuadCorners(x1: real, y1: real, x2: real, y2: real)
    ensures VertexSet(Quad(x1, y1, x2, y2), 0, 6) == Corners(x1, y1, x2, y2)
    ensures Vertex(Quad(x1, y1, x2, y2), 1) == Vertex(Quad(x1, y1, x2, y2), 4) == Point(x2, y1)
    ensures Vertex(Quad(x1, y1, x2, y2), 2) == Vertex(Quad(x1, y1, x2, y2), 3) == Point(x1, y2)
  {
    var q := Quad(x1, y1, x2, y2);
    assert Vertex(q, 0) == Point(x1, y1);
    assert Vertex(q, 1) == Point(x2, y1);
    assert Vertex(q, 2) == Point(x1, y2);
    assert Vertex(q, 5) == Point(x2, y2);
    QuadVertices(x1, y1, x2, y2);
  }

  lemma QuadVertices(x1: real, y1: real, x2: real, y2: real)
    ensures forall k: nat :: k < 6 ==> Vertex(Quad(x1, y1, x2, y2), k) in Corners(x1, y1, x2, y2)
  {
    var q := Quad(x1, y1, x2, y2);
    forall k: nat | k < 6 ensures Vertex(q, k) in Corners(x1, y1, x2, y2) {
      if k == 0 { assert Vertex(q, 0) == Point(x1, y1); }
      else if k == 1 { assert Vertex(q, 1) == Point(x2, y1); }
      else if k == 2 { assert Vertex(q, 2) == Point(x1, y2); }
      else if k == 3 { assert Vertex(q, 3) == Point(x1, y2); }
      else if k == 4 { assert Vertex(q, 4) == Point(x2, y1); }
      else { assert Vertex(q, 5) == Point(x2, y2); }
    }
  }

  /** The letter "F" as 18 vertices (three quads): the left column, the top
      rung and the middle rung, drawn from the top-left corner (x, y) with
      stroke thickness t. */
  function FLetter(x: real, y: real, width: real, height: real, t: real): (positions: seq<real>)
    ensures |positions| == 36
  {
    Quad(x, y, x + t, y + height)                                   // left column
    + Quad(x + t, y, x + width, y + t)                              // top rung
    + Quad(x + t, y + 2.0 * t, x + 2.0 / 3.0 * width, y + 3.0 * t)  // middle rung
  }

  /** Moving the origin (x, y) of the F moves every vertex by (x, y): vertex k
      of FLetter(x, y, ...) is vertex k of FLetter(0, 0, ...) plus (x, y). */
  lemma FLetterTranslates(x: real, y: real, width: real, height: real, t: real)
    ensures FLetter(x, y, width, height, t) == Shift(FLetter(0.0, 0.0, width, height, t), x, y)
  {
    var q1 := Quad(0.0, 0.0, t, height);
    var q2 := Quad(t, 0.0, width, t);
    var q3 := Quad(t, 2.0 * t, 2.0 / 3.0 * width, 3.0 * t);
    assert FLetter(0.0, 0.0, width, height, t) == q1 + q2 + q3;
    ShiftConcat(q1 + q2, q3, x, y);
    ShiftConcat(q1, q2, x, y);
    QuadShift(0.0, 0.0, t, height, x, y);
    QuadShift(t, 0.0, width, t, x, y);
    QuadShift(t, 2.0 * t, 2.0 / 3.0 * width, 3.0 * t, x, y);
  }

  /** The three groups of six vertices are the left column
      [x, x+t] x [y, y+height], the top rung [x+t, x+width] x [y, y+t] and the
      middle rung [x+t, x+2/3 width] x [y+2t, y+3t], each using exactly the
      four corners of its box. */
  lemma FLetterGroups(x: real, y: real, width: real, height: real, t: real)
    ensures VertexSet(FLetter(x, y, width, height, t), 0, 6) == Corners(x, y, x + t, y + height)
    ensures VertexSet(FLetter(x, y, width, height, t), 6, 12) == Corners(x + t, y, x + width, y + t)
    ensures VertexSet(FLetter(x, y, width, height, t), 12, 18)
         == Corners(x + t, y + 2.0 * t, x + 2.0 / 3.0 * width, y + 3.0 * t)
  {
    FLetterGroup(x, y, width, height, t, 0);
    FLetterGroup(x, y, width, height, t, 1);
    FLetterGroup(x, y, width, height, t, 2);
  }

  /** Group g (0, 1 or 2) of the F: its six vertices are the corners of the
      g-th quad. */
  lemma FLetterGroup(x: real, y: real, width: real, height: real, t: real, g: nat)
    requires g < 3
    ensures VertexSet(FLetter(x, y, width, height, t), 6 * g, 6 * g + 6)
         == if g == 0 then Corners(x, y, x + t, y + height)
            else if g == 1 then Corners(x + t, y, x + width, y + t)
            else Corners(x + t, y + 2.0 * t, x + 2.0 / 3.0 * width, y + 3.0 * t)
  {
    var q1 := Quad(x, y, x + t, y + height);
    var q2 := Quad(x + t, y, x + width, y + t);
    var q3 := Quad(x + t, y + 2.0 * t, x + 2.0 / 3.0 * width, y + 3.0 * t);
    ThreeQuadGroups(q1, q2, q3);
    if g == 0 {
      QuadCorners(x, y, x + t, y + height);
    } else if g == 1 {
      QuadCorners(x + t, y, x + width, y + t);
    } else {
      QuadCorners(x + t, y + 2.0 * t, x + 2.0 / 3.0 * width, y + 3.0 * t);
    }
  }

  lemma ThreeQuadGroups(q1: seq<real>, q2: seq<real>, q3: seq<real>)
    requires |q1| == |q2| == |q3| == 12
    ensures VertexSet(q1 + q2 + q3, 0, 6) == VertexSet(q1, 0, 6)
    ensures VertexSet(q1 + q2 + q3, 6, 12) == VertexSet(q2, 0, 6)
    ensures VertexSet(q1 + q2 + q3, 12, 18) == VertexSet(q3, 0, 6)
  {
    VertexSetPrefix(q1 + q2, q3, 0, 6);
    VertexSetPrefix(q1, q2, 0, 6);
    VertexSetPrefix(q1 + q2, q3, 6, 12);
    VertexSetSuffix(q1, q2, 0, 6);
    VertexSetSuffix(q1 + q2, q3, 0, 6);
  }

  /** With a thickness that fits (0 <= t, t <= 2/3 width, 3t <= height) the F
      stays inside its bounding box [x, x+width] x [y, y+height]. */
  lemma FLetterBounds(x: real, y: real, width: real, height: real, t: real)
    requires 0.0 <= t <= 2.0 / 3.0 * width && 3.0 * t <= height
    ensures AllVerticesIn(FLetter(x, y, width, height, t), x, y, x + width, y + height)
  {
    LeftColumnWithin(x, y, width, height, t);
    TopRungWithin(x, y, width, height, t);
    MiddleRungWithin(x, y, width, height, t);
    ThreeWithin(FLetterQuad(x, y, width, height, t, 0),
                FLetterQuad(x, y, width, height, t, 1),
                FLetterQuad(x, y, width, height, t, 2),
                x, y, x + width, y + height);
  }

  /** Quad g (0, 1 or 2) of the F. */
  function FLetterQuad(x: real, y: real, width: real, height: real, t: real, g: nat): (q: seq<real>)
    requires g < 3
    ensures |q| == 12
  {
    if g == 0 then Quad(x, y, x + t, y + height)
    else if g == 1 then Quad(x + t, y, x + width, y + t)
    else Quad(x + t, y + 2.0 * t, x + 2.0 / 3.0 * width, y + 3.0 * t)
  }

  lemma LeftColumnWithin(x: real, y: real, width: real, height: real, t: real)
    requires 0.0 <= t <= 2.0 / 3.0 * width && 3.0 * t <= height
    ensures AllVerticesIn(FLetterQuad(x, y, width, height, t, 0), x, y, x + width, y + height)
  {
    QuadWithin(x, y, x + t, y + height, x, y, x + width, y + height);
  }

  lemma TopRungWithin(x: real, y: real, width: real, height: real, t: real)
    requires 0.0 <= t <= 2.0 / 3.0 * width && 3.0 * t <= height
    ensures AllVerticesIn(FLetterQuad(x, y, width, height, t, 1), x, y, x + width, y + height)
  {
    QuadWithin(x + t, y, x + width, y + t, x, y, x + width, y + height);
  }

  lemma MiddleRungWithin(x: real, y: real, width: real, height: real, t: real)
    requires 0.0 <= t <= 2.0 / 3.0 * width && 3.0 * t <= height
    ensures AllVerticesIn(FLetterQuad(x, y, width, height, t, 2), x, y, x + width, y + height)
  {
    QuadWithin(x + t, y + 2.0 * t, x + 2.0 / 3.0 * width, y + 3.0 * t, x, y, x + width, y + height);
  }

  lemma ThreeWithin(q1: seq<real>, q2: seq<real>, q3: seq<real>, x1: real, y1: real, x2: real, y2: real)
    requires |q1| == |q2| == 12
    requires AllVerticesIn(q1, x1, y1, x2, y2) && AllVerticesIn(q2, x1, y1, x2, y2)
    requires AllVerticesIn(q3, x1, y1, x2, y2)
    ensures AllVerticesIn(q1 + q2 + q3, x1, y1, x2, y2)
  {
    WithinConcat(q1, q2, x1, y1, x2, y2);
    WithinConcat(q1 + q2, q3, x1, y1, x2, y2);
  }

  lemma QuadShift(x1: real, y1: real, x2: real, y2: real, dx: real, dy: real)
    ensures Shift(Quad(x1, y1, x2, y2), dx, dy) == Quad(x1 + dx, y1 + dy, x2 + dx, y2 + dy)
  {
    var s := Shift(Quad(x1, y1, x2, y2), dx, dy);
    var q := Quad(x1 + dx, y1 + dy, x2 + dx, y2 + dy);
    forall i | 0 <= i < 12 ensures s[i] == q[i] {
      assert Vertex(s, i / 2) == Translate(Vertex(Quad(x1, y1, x2, y2), i / 2), dx, dy);
    }
  }

  lemma ShiftConcat(a: seq<real>, b: seq<real>, dx: real, dy: real)
    requires |a| % 2 == 0
    ensures Shift(a + b, dx, dy) == Shift(a, dx, dy) + Shift(b, dx, dy)
  {
    var l := Shift(a + b, dx, dy);
    var r := Shift(a, dx, dy) + Shift(b, dx, dy);
    forall i | 0 <= i < |l| ensures l[i] == r[i] {
      if i >= |a| {
        assert (i - |a|) % 2 == i % 2;
      }
    }
  }

  lemma VertexSetPrefix(a: seq<real>, b: seq<real>, from: nat, to: nat)
    requires from <= to && 2 * to <= |a|
    ensures VertexSet(a + b, from, to) == VertexSet(a, from, to)
  {
    forall k: nat | from <= k < to ensures Vertex(a + b, k) == Vertex(a, k) {
    }
  }

  lemma VertexSetSuffix(a: seq<real>, b: seq<real>, from: nat, to: nat)
    requires |a| % 2 == 0 && from <= to && 2 * to <= |b|
    ensures VertexSet(a + b, |a| / 2 + from, |a| / 2 + to) == VertexSet(b, from, to)
  {
    var h := |a| / 2;
    forall p | p in VertexSet(b, from, to) ensures p in VertexSet(a + b, h + from, h + to) {
      var k: nat :| from <= k < to && p == Vertex(b, k);
      assert Vertex(a + b, h + k) == p;
    }
    forall p | p in VertexSet(a + b, h + from, h + to) ensures p in VertexSet(b, from, to) {
      var k: nat :| h + from <= k < h + to && p == Vertex(a + b, k);
      assert Vertex(b, k - h) == p;
    }
  }

  lemma QuadWithin(x1: real, y1: real, x2: real, y2: real, bx1: real, by1: real, bx2: real, by2: real)
    requires bx1 <= x1 <= bx2 && bx1 <= x2 <= bx2
    requires by1 <= y1 <= by2 && by1 <= y2 <= by2
    ensures AllVerticesIn(Quad(x1, y1, x2, y2), bx1, by1, bx2, by2)
  {
    QuadVertices(x1, y1, x2, y2);
  }

  lemma WithinConcat(a: seq<real>, b: seq<real>, x1: real, y1: real, x2: real, y2: real)
    requires |a| % 2 == 0
    requires AllVerticesIn(a, x1, y1, x2, y2) && AllVerticesIn(b, x1, y1, x2, y2)
    ensures AllVerticesIn(a + b, x1, y1, x2, y2)
  {
    forall k: nat | 2 * k + 1 < |a + b|
      ensures x1 <= Vertex(a + b, k).x <= x2 && y1 <= Vertex(a + b, k).y <= y2
    {
      if 2 * k + 1 < |a| {
        assert Vertex(a + b, k) == Vertex(a, k);
      } else {
        assert Vertex(a + b, k) == Vertex(b, k - |a| / 2);
      }
    }
  }
}
