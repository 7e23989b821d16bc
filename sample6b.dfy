/** sample6b/main.js: a static F rotated by a (cos, sin) vector and then
    translated, both in the vertex shader. */
module Sample6b {
  import opened Geometry
  import ClipSpace

  /** Vertices per drawArrays call. */
  const DrawCount: nat := 18

  /** `setGeometry(gl)`: the F at the origin, 100 wide, 150 high, thickness
      30. Its 36 numbers are 18 vertices, the draw count, and every vertex
      lies in [0, 100] x [0, 150]. */
  function SetGeometry(): (positions: seq<real>)
    ensures |positions| == 2 * DrawCount && VertexCount(positions) == DrawCount
    ensures AllVerticesIn(positions, 0.0, 0.0, 100.0, 150.0)
  {
    var x, y, width, height, t := 0.0, 0.0, 100.0, 150.0, 30.0;
    FLetterBounds(x, y, width, height, t);
    FLetter(x, y, width, height, t)
  }

  /** The shader's `rotatedPos`: (x r.y + y r.x, y r.y - x r.x) for the
      uniform r = u_rotation. It is Geometry.Rotate with cosine r.y and sine
      r.x, and it keeps the distance to the origin when r is a unit vector. */
  function RotatedPosition(aPos: Point, rotation: Point): (p: Point)
    ensures p == Rotate(aPos, rotation.y, rotation.x)
    ensures rotation.x * rotation.x + rotation.y * rotation.y == 1.0
            ==> SquaredLength(p) == SquaredLength(aPos)
  {
    var rotated := Point(aPos.x * rotation.y + aPos.y * rotation.x,
                         aPos.y * rotation.y - aPos.x * rotation.x);
    assert rotation.x * rotation.x + rotation.y * rotation.y == 1.0
           ==> SquaredLength(rotated) == SquaredLength(aPos) by {
      if rotation.x * rotation.x + rotation.y * rotation.y == 1.0 {
        RotatePreservesLength(aPos, rotation.y, rotation.x);
      }
    }
    rotated
  }

  /** The shader's `pos`: rotatedPos + u_translation. */
  function Position(aPos: Point, translation: Point, rotation: Point): (p: Point)
    ensures p == Translate(Rotate(aPos, rotation.y, rotation.x), translation.x, translation.y)
  {
    var rotated := RotatedPosition(aPos, rotation);
    Point(rotated.x + translation.x, rotated.y + translation.y)
  }

  /** The whole vertex shader: rotate, translate, convert to clip space with
      the Y flip. The clip position lands on the pixel Position gives. */
  function VertexShader(aPos: Point, resolution: Point, translation: Point, rotation: Point): (clip: Point)
    requires resolution.x != 0.0 && resolution.y != 0.0
    ensures ClipSpace.ClipToPixel(clip, resolution.x, resolution.y) == Position(aPos, translation, rotation)
  {
    ClipSpace.PixelToClip(Position(aPos, translation, rotation), resolution.x, resolution.y)
  }

  /** With the initial uniforms translation = [0, 0] and rotation = [0, 1]
      the shader leaves every position where it is. */
  lemma InitialPositionIsIdentity(aPos: Point)
    ensures Position(aPos, Point(0.0, 0.0), Point(0.0, 1.0)) == aPos
  {
  }

  /** The variables main() keeps for drawScene and the slider callbacks. */
  class Scene {
    var translation: seq<real>
    var rotation: seq<real>
    var color: seq<real>

    /** rotation always holds a cosine and a sine of one angle. */
    ghost predicate Valid()
      reads this
    {
      |translation| == 2 && |rotation| == 2 && |color| == 4
      && rotation[0] * rotation[0] + rotation[1] * rotation[1] == 1.0
    }

    /** The initial values; r0, r1 and r2 are the three Math.random() colour
        channels. */
    constructor (r0: real, r1: real, r2: real)
      ensures Valid()
      ensures translation == [0.0, 0.0] && rotation == [0.0, 1.0]
      ensures color == [r0, r1, r2, 1.0]
    {
      translation := [0.0, 0.0];
      rotation := [0.0, 1.0];
      color := [r0, r1, r2, 1.0];
    }

    /** The callback `updatePosition(index)` returns: the slider value goes
        into translation[index]; the other component, rotation and colour stay. */
    method UpdatePosition(index: nat, value: real)
      requires Valid() && index < 2
      modifies this
      ensures Valid()
      ensures translation == old(translation)[index := value]
      ensures rotation == old(rotation) && color == old(color)
    {
      translation := translation[index := value];
    }

    /** `updateAngle`: the slider value v gives the angle (90 + v) degrees, and
        c and s are Math.cos and Math.sin of it in radians, so c * c + s * s = 1.
        Both components of rotation are overwritten; translation and colour
        stay. */
    method UpdateAngle(c: real, s: real)
      requires Valid() && c * c + s * s == 1.0
      modifies this
      ensures Valid()
      ensures rotation == [c, s]
      ensures translation == old(translation) && color == old(color)
    {
      rotation := rotation[0 := c];
      rotation := rotation[1 := s];
    }

    /** What `drawScene` hands to the shader: the u_translation and
        u_rotation uniforms, read from the current state, and the vertex
        count. The rotation uniform is a unit vector, so the rotation step
        keeps every vertex's distance to the origin. */
    method DrawScene() returns (translationUniform: Point, rotationUniform: Point, count: nat)
      requires Valid()
      ensures translationUniform == Point(translation[0], translation[1])
      ensures rotationUniform == Point(rotation[0], rotation[1])
      ensures forall p :: SquaredLength(RotatedPosition(p, rotationUniform)) == SquaredLength(p)
      ensures count == VertexCount(SetGeometry())
    {
      translationUniform := Point(translation[0], translation[1]);
      rotationUniform := Point(rotation[0], rotation[1]);
      count := DrawCount;
    }
  }
}
