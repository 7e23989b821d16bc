/** The pixel-to-clip-space conversion that every vertex shader of the samples
    performs: divide by the resolution, double, subtract one, and (in all
    samples but fundamental2) flip the Y axis so that pixel Y points down. */
module ClipSpace {
  import opened Geometry

  /** `clipspace * vec2(1, -1)` where clipspace = (pos / u_resolution) * 2.0 - 1.0.
      GLSL leaves division by zero undefined, so a zero-sized resolution is
      excluded. */
  function PixelToClip(p: Point, width: real, height: real): (c: Point)
    requires width != 0.0 && height != 0.0
    ensures ClipToPixel(c, width, height) == p
  {
    var zero2one := Point(p.x / width, p.y / height);
    var zero2two := Point(zero2one.x * 2.0, zero2one.y * 2.0);
    var clipspace := Point(zero2two.x - 1.0, zero2two.y - 1.0);
    Point(clipspace.x * 1.0, clipspace.y * -1.0)
  }

  /** The same conversion without the Y flip (fundamental2's shader). */
  function PixelToClipUnflipped(p: Point, width: real, height: real): (c: Point)
    requires width != 0.0 && height != 0.0
    ensures ClipToPixel(Point(c.x, -c.y), width, height) == p
  {
    var zero2one := Point(p.x / width, p.y / height);
    var zero2two := Point(zero2one.x * 2.0, zero2one.y * 2.0);
    Point(zero2two.x - 1.0, zero2two.y - 1.0)
  }

  /** The pixel a clip-space position lands on in a width x height target with
      the origin at the top-left corner: the inverse of PixelToClip. */
  function ClipToPixel(c: Point, width: real, height: real): Point {
    Point((c.x + 1.0) / 2.0 * width, (1.0 - c.y) / 2.0 * height)
  }

  /** PixelToClip is a bijection: it also undoes ClipToPixel. */
  lemma ClipRoundTrip(c: Point, width: real, height: real)
    requires width != 0.0 && height != 0.0
    ensures PixelToClip(ClipToPixel(c, width, height), width, height) == c
  {
    MulDivCancel((c.x + 1.0) / 2.0, width);
    MulDivCancel((1.0 - c.y) / 2.0, height);
  }

  lemma MulDivCancel(a: real, d: real)
    requires d != 0.0
    ensures a * d / d == a
  {
  }

  /** The top-left pixel (0, 0) goes to clip (-1, 1) and the bottom-right
      pixel (width, height) to clip (1, -1). */
  lemma PixelToClipCorners(width: real, height: real)
    requires width != 0.0 && height != 0.0
    ensures PixelToClip(Point(0.0, 0.0), width, height) == Point(-1.0, 1.0)
    ensures PixelToClip(Point(width, height), width, height) == Point(1.0, -1.0)
  {
  }

  /** Without the flip, (0, 0) goes to (-1, -1) and (width, height) to (1, 1). */
  lemma PixelToClipUnflippedCorners(width: real, height: real)
    requires width != 0.0 && height != 0.0
    ensures PixelToClipUnflipped(Point(0.0, 0.0), width, height) == Point(-1.0, -1.0)
    ensures PixelToClipUnflipped(Point(width, height), width, height) == Point(1.0, 1.0)
  {
  }

  /** The unflipped conversion is the flipped one with the Y component negated. */
  lemma UnflippedIsFlippedMirrored(p: Point, width: real, height: real)
    requires width != 0.0 && height != 0.0
    ensures PixelToClipUnflipped(p, width, height)
         == Point(PixelToClip(p, width, height).x, -PixelToClip(p, width, height).y)
  {
  }

  /** For a positive resolution the unflipped conversion is strictly
      increasing in each axis, and the flipped one increasing in X and
      decreasing in Y. */
  lemma ClipMonotone(p: Point, q: Point, width: real, height: real)
    requires width > 0.0 && height > 0.0
    ensures p.x < q.x ==> PixelToClipUnflipped(p, width, height).x < PixelToClipUnflipped(q, width, height).x
    ensures p.y < q.y ==> PixelToClipUnflipped(p, width, height).y < PixelToClipUnflipped(q, width, height).y
    ensures p.x < q.x ==> PixelToClip(p, width, height).x < PixelToClip(q, width, height).x
    ensures p.y < q.y ==> PixelToClip(p, width, height).y > PixelToClip(q, width, height).y
  {
    if p.x < q.x {
      DivideMonotone(p.x, q.x, width);
    }
    if p.y < q.y {
      DivideMonotone(p.y, q.y, height);
    }
  }

  lemma DivideMonotone(a: real, b: real, d: real)
    requires a < b && d > 0.0
    ensures a / d < b / d
  {
    assert b / d - a / d == (b - a) / d;
  }
}
