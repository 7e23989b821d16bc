/** sample5a/main.js: the "F" is rebuilt on the CPU at the current
    translation and re-uploaded on every frame. */
module Sample5a {
  import opened Geometry
  import ClipSpace
  import GlBuffer

  /** The stroke thickness `t` inside setRectangle. */
  const Thickness: real := 30.0
  /** Vertices per drawArrays call. */
  const DrawCount: nat := 18

  /** `setRectangle(gl, x, y, width, height)`: the list it uploads, the F with
      thickness 30 whose top-left corner is (x, y). Its 36 numbers are 18
      vertices, the draw count. */
  function SetRectangle(x: real, y: real, width: real, height: real): (positions: seq<real>)
    ensures |positions| == 2 * DrawCount && VertexCount(positions) == DrawCount
  {
    FLetter(x, y, width, height, Thickness)
  }

  /** Vertex k of setRectangle(x, y, w, h) is vertex k of
      setRectangle(0, 0, w, h) plus (x, y). */
  lemma SetRectangleTranslates(x: real, y: real, width: real, height: real)
    ensures SetRectangle(x, y, width, height) == Shift(SetRectangle(0.0, 0.0, width, height), x, y)
  {
    FLetterTranslates(x, y, width, height, Thickness);
  }

  /** The three groups of six vertices use exactly the corners of the left
      column, the top rung and the middle rung. */
  lemma SetRectangleGroups(x: real, y: real, width: real, height: real)
    ensures VertexSet(SetRectangle(x, y, width, height), 0, 6) == Corners(x, y, x + 30.0, y + height)
    ensures VertexSet(SetRectangle(x, y, width, height), 6, 12) == Corners(x + 30.0, y, x + width, y + 30.0)
    ensures VertexSet(SetRectangle(x, y, width, height), 12, 18)
         == Corners(x + 30.0, y + 60.0, x + 2.0 / 3.0 * width, y + 90.0)
  {
    FLetterGroups(x, y, width, height, Thickness);
  }

  /** With the width 100 and height 150 the sample uses, every vertex lies in
      [x, x + 100] x [y, y + 150]. */
  lemma SetRectangleBounds(x: real, y: real)
    ensures AllVerticesIn(SetRectangle(x, y, 100.0, 150.0), x, y, x + 100.0, y + 150.0)
  {
    FLetterBounds(x, y, 100.0, 150.0, Thickness);
  }

  /** The vertex shader: pixel position to clip space with the Y flip. */
  function VertexShader(aPos: Point, resolution: Point): (clip: Point)
    requires resolution.x != 0.0 && resolution.y != 0.0
    ensures ClipSpace.ClipToPixel(clip, resolution.x, resolution.y) == aPos
  {
    ClipSpace.PixelToClip(aPos, resolution.x, resolution.y)
  }

  /** The variables main() keeps for drawScene and the slider callback. */
  class Scene {
    var translation: seq<real>
    var width: real
    var height: real
    var color: seq<real>

    ghost predicate Valid()
      reads this
    {
      |translation| == 2 && |color| == 4
    }

    /** The initial values; r0, r1 and r2 are the three Math.random() colour
        channels. */
    constructor (r0: real, r1: real, r2: real)
      ensures Valid()
      ensures translation == [0.0, 0.0] && width == 100.0 && height == 150.0
      ensures color == [r0, r1, r2, 1.0]
    {
      translation := [0.0, 0.0];
      width := 100.0;
      height := 150.0;
      color := [r0, r1, r2, 1.0];
    }

    /** The callback `updatePosition(index)` returns: the slider value goes
        into translation[index] and nothing else changes (drawScene then runs
        again, see DrawScene). */
    method UpdatePosition(index: nat, value: real)
      requires Valid() && index < 2
      modifies this
      ensures Valid()
      ensures translation == old(translation)[index := value]
      ensures width == old(width) && height == old(height) && color == old(color)
    {
      translation := translation[index := value];
    }

    /** What `drawScene` does to the geometry: it rebuilds the F at the current
        translation in the bound buffer and draws all of its vertices. */
    method DrawScene(buf: GlBuffer.ArrayBuffer) returns (count: nat)
      requires Valid()
      modifies buf
      ensures buf.contents == SetRectangle(translation[0], translation[1], width, height)
      ensures count == DrawCount && VertexCount(buf.contents) == count
    {
      buf.BufferData(SetRectangle(translation[0], translation[1], width, height));
      count := DrawCount;
    }
  }
}
