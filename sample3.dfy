/** sample3/main.js: fifty random rectangles, each uploaded into the same
    bound buffer and drawn as two triangles. */
module Sample3 {
  import opened Geometry
  import ClipSpace
  import GlBuffer

  /** Vertices per drawArrays call. */
  const DrawCount: nat := 6
  /** Iterations of the drawing loop. */
  const RectangleCount: nat := 50
  /** The argument of every randomInt call in the loop. */
  const RandomRange: int := 300
  /** Math.random() results one iteration consumes: four for randomInt, three
      for the colour. */
  const RandomPerIteration: nat := 7

  /** `randomInt(range)` = Math.floor(Math.random() * range), with the result
      of Math.random() passed in as r. It is the floor of r * range, and for a
      positive range it lies in [0, range - 1]. */
  function RandomInt(range: int, r: real): (k: int)
    requires 0.0 <= r < 1.0
    ensures k as real <= r * range as real < k as real + 1.0
    ensures range > 0 ==> 0 <= k < range
  {
    ScaledFractionBelow(range, r);
    (r * range as real).Floor
  }

  lemma ScaledFractionBelow(range: int, r: real)
    requires 0.0 <= r < 1.0
    ensures range > 0 ==> 0.0 <= r * range as real < range as real
  {
    if range > 0 {
      var n := range as real;
      assert n - r * n == (1.0 - r) * n;
    }
  }

  /** `setRectangle(gl, x, y, width, height)`: the list it uploads, two
      triangles covering [x, x + width] x [y, y + height]. Its twelve numbers
      are six vertices, the draw count. */
  function SetRectangle(x: real, y: real, width: real, height: real): (positions: seq<real>)
    ensures |positions| == 2 * DrawCount && VertexCount(positions) == DrawCount
  {
    var x1 := x;
    var x2 := x + width;
    var y1 := y;
    var y2 := y + height;
    Quad(x1, y1, x2, y2)
  }

  /** The six vertices are exactly the four corners of the rectangle. */
  lemma SetRectangleCorners(x: real, y: real, width: real, height: real)
    ensures VertexSet(SetRectangle(x, y, width, height), 0, 6) == Corners(x, y, x + width, y + height)
  {
    QuadCorners(x, y, x + width, y + height);
  }

  /** The two triangles share their diagonal: vertices 1 and 4 are both
      (x + width, y), vertices 2 and 3 both (x, y + height). */
  lemma SetRectangleDiagonal(x: real, y: real, width: real, height: real)
    ensures Vertex(SetRectangle(x, y, width, height), 1) == Vertex(SetRectangle(x, y, width, height), 4)
         == Point(x + width, y)
    ensures Vertex(SetRectangle(x, y, width, height), 2) == Vertex(SetRectangle(x, y, width, height), 3)
         == Point(x, y + height)
  {
    QuadCorners(x, y, x + width, y + height);
  }

  /** setRectangle(x, y, w, h) is setRectangle(0, 0, w, h) moved by (x, y). */
  lemma SetRectangleTranslates(x: real, y: real, width: real, height: real)
    ensures SetRectangle(x, y, width, height) == Shift(SetRectangle(0.0, 0.0, width, height), x, y)
  {
    QuadShift(0.0, 0.0, width, height, x, y);
  }

  /** The vertex shader: pixel position to clip space with the Y flip. */
  function VertexShader(aPos: Point, resolution: Point): (clip: Point)
    requires resolution.x != 0.0 && resolution.y != 0.0
    ensures ClipSpace.ClipToPixel(clip, resolution.x, resolution.y) == aPos
  {
    ClipSpace.PixelToClip(aPos, resolution.x, resolution.y)
  }

  /** One drawArrays call: the buffer contents it reads, the u_color value set
      just before it, and the vertex count. */
  datatype Draw = Draw(positions: seq<real>, color: seq<real>, count: nat)

  ghost predicate AreRandoms(random: seq<real>) {
    forall k :: 0 <= k < |random| ==> 0.0 <= random[k] < 1.0
  }

  /** What iteration ii of the loop draws, given the Math.random() results in
      the order the loop asks for them: randomInt(300) four times for x, y,
      width and height, then three colour channels. The draw count covers the
      rectangle's vertices, and the colour is opaque with every channel in
      [0, 1). */
  function Iteration(random: seq<real>, ii: nat): (d: Draw)
    requires RandomPerIteration * ii + RandomPerIteration <= |random| && AreRandoms(random)
    ensures d.count == DrawCount == VertexCount(d.positions)
    ensures |d.color| == 4 && d.color[3] == 1.0
    ensures forall c :: 0 <= c < 3 ==> 0.0 <= d.color[c] < 1.0
  {
    var base := RandomPerIteration * ii;
    Draw(SetRectangle(RandomInt(RandomRange, random[base]) as real,
                      RandomInt(RandomRange, random[base + 1]) as real,
                      RandomInt(RandomRange, random[base + 2]) as real,
                      RandomInt(RandomRange, random[base + 3]) as real),
         [random[base + 4], random[base + 5], random[base + 6], 1.0],
         DrawCount)
  }

  /** Every draw of the loop covers exactly its six vertices, and all of them
      lie in [0, 598] x [0, 598]: a corner is at most 299 + 299. */
  lemma IterationInBounds(random: seq<real>, ii: nat)
    requires RandomPerIteration * ii + RandomPerIteration <= |random| && AreRandoms(random)
    ensures VertexCount(Iteration(random, ii).positions) == Iteration(random, ii).count
    ensures AllVerticesIn(Iteration(random, ii).positions, 0.0, 0.0, 598.0, 598.0)
  {
    var base := RandomPerIteration * ii;
    var x := RandomInt(RandomRange, random[base]) as real;
    var y := RandomInt(RandomRange, random[base + 1]) as real;
    var w := RandomInt(RandomRange, random[base + 2]) as real;
    var h := RandomInt(RandomRange, random[base + 3]) as real;
    QuadWithin(x, y, x + w, y + h, 0.0, 0.0, 598.0, 598.0);
  }

  /** The `for (ii = 0; ii < 50; ++ii)` loop. Each iteration overwrites the
      single bound buffer and then draws from it, so draw ii sees exactly
      rectangle ii, and afterwards the buffer holds the last rectangle's
      twelve numbers. */
  method DrawRandomRectangles(buf: GlBuffer.ArrayBuffer, random: seq<real>) returns (draws: seq<Draw>)
    requires |random| == RandomPerIteration * RectangleCount && AreRandoms(random)
    modifies buf
    ensures |draws| == RectangleCount
    ensures forall ii :: 0 <= ii < RectangleCount ==> draws[ii] == Iteration(random, ii)
    ensures buf.contents == draws[RectangleCount - 1].positions && |buf.contents| == 2 * DrawCount
  {
    draws := [];
    var ii := 0;
    while ii < RectangleCount
      invariant 0 <= ii <= RectangleCount
      invariant |draws| == ii
      invariant forall k :: 0 <= k < ii ==> draws[k] == Iteration(random, k)
      invariant ii > 0 ==> buf.contents == draws[ii - 1].positions
    {
      var base := RandomPerIteration * ii;
      var x := RandomInt(RandomRange, random[base]);
      var y := RandomInt(RandomRange, random[base + 1]);
      var width := RandomInt(RandomRange, random[base + 2]);
      var height := RandomInt(RandomRange, random[base + 3]);
      buf.BufferData(SetRectangle(x as real, y as real, width as real, height as real));
      var color := [random[base + 4], random[base + 5], random[base + 6], 1.0];
      var count := DrawCount;
      var drawn := Draw(buf.contents, color, count);
      ghost var expected := Iteration(random, ii);
      assert drawn.positions == expected.positions && drawn.color == expected.color;
      draws := draws + [drawn];
      ii := ii + 1;
    }
  }
}
