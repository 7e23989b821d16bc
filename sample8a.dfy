/** sample8a/main.js: a static F moved by one matrix, composed on the CPU
    from scale, rotation and translation with the m3 helpers. */
module Sample8a {
  import opened Geometry
  import ClipSpace
  import M3

  /** Vertices per drawArrays call. */
  const DrawCount: nat := 18
  /** Math.PI, as the decimal JavaScript prints for it. */
  const Pi: real := 3.141592653589793

  /** `setGeometry(gl)`: the F at the origin, 100 wide, 150 high, thickness
      30. Its 36 numbers are 18 vertices, the draw count, and every vertex
      lies in [0, 100] x [0, 150]. */
  function SetGeometry(): (positions: seq<real>)
    ensures |positions| == 2 * DrawCount && VertexCount(positions) == DrawCount
    ensures AllVerticesIn(positions, 0.0, 0.0, 100.0, 150.0)
  {
    var x, y, width, height, t := 0.0, 0.0, 100.0, 150.0, 30.0;
    FLetterBounds(x, y, width, height, t);
    FLetter(x, y, width, height, t)
  }

  /** The vertex shader: the position `(u_matrix * vec3(a_pos, 1)).xy`,
      converted to clip space with the Y flip. The clip position lands on the
      pixel the matrix gives. */
  function VertexShader(aPos: Point, resolution: Point, matrix: seq<real>): (clip: Point)
    requires |matrix| == 9 && resolution.x != 0.0 && resolution.y != 0.0
    ensures ClipSpace.ClipToPixel(clip, resolution.x, resolution.y) == M3.Apply(matrix, aPos)
  {
    ClipSpace.PixelToClip(M3.Apply(matrix, aPos), resolution.x, resolution.y)
  }

  /** The composition in drawScene, multiply(multiply(translation,
      rotation), scale), applies the scale first, then the rotation, then the
      translation. */
  lemma SceneMatrixOrder(tx: real, ty: real, c: real, s: real, sx: real, sy: real, p: Point)
    ensures M3.IsAffine(M3.Multiply(M3.Multiply(M3.Translation(tx, ty), M3.Rotation(c, s)), M3.Scale(sx, sy)))
    ensures M3.Apply(M3.Multiply(M3.Multiply(M3.Translation(tx, ty), M3.Rotation(c, s)), M3.Scale(sx, sy)), p)
         == Translate(Rotate(ScalePoint(p, sx, sy), c, s), tx, ty)
  {
    var tr := M3.Multiply(M3.Translation(tx, ty), M3.Rotation(c, s));
    M3.ApplyMultiply(tr, M3.Scale(sx, sy), p);
    M3.ApplyMultiply(M3.Translation(tx, ty), M3.Rotation(c, s), ScalePoint(p, sx, sy));
  }

  /** A quarter turn (cos 0, sin 1) with scale (2, 1) and translation (5, 5)
      takes (1, 0) to (2, 0), then to (0, -2), then to (5, 3). */
  lemma QuarterTurnExample()
    ensures M3.Apply(M3.Multiply(M3.Multiply(M3.Translation(5.0, 5.0), M3.Rotation(0.0, 1.0)), M3.Scale(2.0, 1.0)),
                     Point(1.0, 0.0))
         == Point(5.0, 3.0)
  {
    SceneMatrixOrder(5.0, 5.0, 0.0, 1.0, 2.0, 1.0, Point(1.0, 0.0));
  }

  /** A unit-square vertex (1, 0) under translation (10, 20), no rotation and
      scale (1, 1), on a 100 x 100 canvas, reaches the clip position of pixel
      (11, 20), which is (-0.78, 0.6). */
  lemma TranslatedVertexExample()
    ensures VertexShader(Point(1.0, 0.0), Point(100.0, 100.0),
              M3.Multiply(M3.Multiply(M3.Translation(10.0, 20.0), M3.Rotation(1.0, 0.0)), M3.Scale(1.0, 1.0)))
         == ClipSpace.PixelToClip(Point(11.0, 20.0), 100.0, 100.0)
         == Point(-0.78, 0.6)
  {
    TranslatedVertexPixel();
    PixelElevenTwenty();
  }

  lemma PixelElevenTwenty()
    ensures ClipSpace.PixelToClip(Point(11.0, 20.0), 100.0, 100.0) == Point(-0.78, 0.6)
  {
  }

  lemma TranslatedVertexPixel()
    ensures M3.Apply(M3.Multiply(M3.Multiply(M3.Translation(10.0, 20.0), M3.Rotation(1.0, 0.0)), M3.Scale(1.0, 1.0)),
                     Point(1.0, 0.0))
         == Point(11.0, 20.0)
  {
    SceneMatrixOrder(10.0, 20.0, 1.0, 0.0, 1.0, 1.0, Point(1.0, 0.0));
  }

  /** The variables main() keeps for drawScene and the slider callbacks. */
  class Scene {
    var translation: seq<real>
    var angleRad: real
    var scale: seq<real>
    var color: seq<real>

    ghost predicate Valid()
      reads this
    {
      |translation| == 2 && |scale| == 2 && |color| == 4
    }

    /** The initial values; r0, r1 and r2 are the three Math.random() colour
        channels. */
    constructor (r0: real, r1: real, r2: real)
      ensures Valid()
      ensures translation == [100.0, 150.0] && angleRad == 0.0 && scale == [1.0, 1.0]
      ensures color == [r0, r1, r2, 1.0]
    {
      translation := [100.0, 150.0];
      angleRad := 0.0;
      scale := [1.0, 1.0];
      color := [r0, r1, r2, 1.0];
    }

    /** The callback `updatePosition(index)` returns: the slider value goes
        into translation[index]; everything else stays. */
    method UpdatePosition(index: nat, value: real)
      requires Valid() && index < 2
      modifies this
      ensures Valid()
      ensures translation == old(translation)[index := value]
      ensures angleRad == old(angleRad) && scale == old(scale) && color == old(color)
    {
      translation := translation[index := value];
    }

    /** `updateAngle`: the slider value v in degrees becomes the angle
        (360 - v) degrees, stored in radians; everything else stays. */
    method UpdateAngle(value: real)
      requires Valid()
      modifies this
      ensures Valid()
      ensures angleRad == (360.0 - value) * Pi / 180.0
      ensures translation == old(translation) && scale == old(scale) && color == old(color)
    {
      var angleDeg := 360.0 - value;
      angleRad := angleDeg * Pi / 180.0;
    }

    /** The callback `updateScale(index)` returns: the slider value goes into
        scale[index]; everything else stays. */
    method UpdateScale(index: nat, value: real)
      requires Valid() && index < 2
      modifies this
      ensures Valid()
      ensures scale == old(scale)[index := value]
      ensures translation == old(translation) && angleRad == old(angleRad) && color == old(color)
    {
      scale := scale[index := value];
    }

    /** What `drawScene` computes: the u_matrix uniform and the vertex count.
        c and s are Math.cos(angleRad) and Math.sin(angleRad). The matrix
        scales by `scale`, then rotates, then translates by `translation`, and
        the count covers all of setGeometry's vertices. */
    method DrawScene(c: real, s: real) returns (matrix: seq<real>, count: nat)
      requires Valid()
      ensures M3.IsAffine(matrix)
      ensures forall p :: M3.Apply(matrix, p)
                == Translate(Rotate(ScalePoint(p, scale[0], scale[1]), c, s), translation[0], translation[1])
      ensures count == VertexCount(SetGeometry())
    {
      var transMat := M3.Translation(translation[0], translation[1]);
      var rotMat := M3.Rotation(c, s);
      var scaleMat := M3.Scale(scale[0], scale[1]);
      matrix := M3.Multiply(transMat, rotMat);
      matrix := M3.Multiply(matrix, scaleMat);
      forall p
        ensures M3.Apply(matrix, p)
             == Translate(Rotate(ScalePoint(p, scale[0], scale[1]), c, s), translation[0], translation[1])
      {
        SceneMatrixOrder(translation[0], translation[1], c, s, scale[0], scale[1], p);
      }
      SceneMatrixOrder(translation[0], translation[1], c, s, scale[0], scale[1], Point(0.0, 0.0));
      count := DrawCount;
    }
  }
}
