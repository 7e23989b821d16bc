/** fundamental2/main.js: one rectangle given as a literal list of six
    vertices, drawn with a shader that does not flip the Y axis. */
module Fundamental2 {
  import opened Geometry
  import ClipSpace
  import Sample3

  /** Vertices per drawArrays call. */
  const DrawCount: nat := 6

  /** The literal `positions` array. */
  const Positions: seq<real> := [10.0, 20.0,
                                 80.0, 20.0,
                                 10.0, 30.0,
                                 10.0, 30.0,
                                 80.0, 20.0,
                                 80.0, 30.0]

  /** Twelve numbers, six vertices: the draw count. */
  lemma PositionsMatchDrawCount()
    ensures |Positions| == 2 * DrawCount && VertexCount(Positions) == DrawCount
  {
  }

  /** The literal list is exactly what sample3's setRectangle(10, 20, 70, 10)
      builds. */
  lemma PositionsAreSample3Rectangle()
    ensures Positions == Sample3.SetRectangle(10.0, 20.0, 70.0, 10.0)
  {
  }

  /** The vertex shader: pixel position to clip space without the Y flip,
      so (0, 0) is the bottom-left corner of the clip square. */
  function VertexShader(aPos: Point, resolution: Point): (clip: Point)
    requires resolution.x != 0.0 && resolution.y != 0.0
    ensures clip == Point(Sample3.VertexShader(aPos, resolution).x, -Sample3.VertexShader(aPos, resolution).y)
    ensures aPos == Point(0.0, 0.0) ==> clip == Point(-1.0, -1.0)
    ensures aPos == resolution ==> clip == Point(1.0, 1.0)
  {
    ClipSpace.UnflippedIsFlippedMirrored(aPos, resolution.x, resolution.y);
    ClipSpace.PixelToClipUnflippedCorners(resolution.x, resolution.y);
    ClipSpace.PixelToClipUnflipped(aPos, resolution.x, resolution.y)
  }

  /** For a positive resolution the shader is strictly increasing in each
      axis. */
  lemma VertexShaderIncreasing(p: Point, q: Point, resolution: Point)
    requires resolution.x > 0.0 && resolution.y > 0.0
    ensures p.x < q.x ==> VertexShader(p, resolution).x < VertexShader(q, resolution).x
    ensures p.y < q.y ==> VertexShader(p, resolution).y < VertexShader(q, resolution).y
  {
    ClipSpace.ClipMonotone(p, q, resolution.x, resolution.y);
  }
}
