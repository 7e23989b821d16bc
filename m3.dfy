/** The `m3` helper object of sample8a: 3x3 matrices for 2D affine transforms,
    kept as the nine numbers of a JavaScript array in row-major order, and the
    way the vertex shader applies such an array to a position. */
module M3 {
  import opened Geometry

  /** A homogeneous 2D coordinate, the shader's `vec3`. */
  datatype Vec3 = Vec3(x: real, y: real, w: real)

  /** Entries 2, 5 and 8 are 0, 0 and 1: the matrix is a pure affine map and
      keeps the homogeneous coordinate at 1. */
  predicate IsAffine(m: seq<real>) {
    |m| == 9 && m[2] == 0.0 && m[5] == 0.0 && m[8] == 1.0
  }

  /** Entry (row, col) of the mat3 the shader sees. gl.uniformMatrix3fv(loc,
      false, m) fills the mat3 column by column, so column col holds
      m[3 col], m[3 col + 1] and m[3 col + 2]. */
  function MatEntry(m: seq<real>, row: nat, col: nat): real
    requires |m| == 9 && row < 3 && col < 3
  {
    m[3 * col + row]
  }

  /** `u_matrix * v` in the shader: each component is the matrix row, read
      through the column-major upload, times v. */
  function Transform(m: seq<real>, v: Vec3): (r: Vec3)
    requires |m| == 9
    ensures r.x == MatEntry(m, 0, 0) * v.x + MatEntry(m, 0, 1) * v.y + MatEntry(m, 0, 2) * v.w
    ensures r.y == MatEntry(m, 1, 0) * v.x + MatEntry(m, 1, 1) * v.y + MatEntry(m, 1, 2) * v.w
    ensures r.w == MatEntry(m, 2, 0) * v.x + MatEntry(m, 2, 1) * v.y + MatEntry(m, 2, 2) * v.w
  {
    Vec3(v.x * m[0] + v.y * m[3] + v.w * m[6],
         v.x * m[1] + v.y * m[4] + v.w * m[7],
         v.x * m[2] + v.y * m[5] + v.w * m[8])
  }

  /** `(u_matrix * vec3(a_pos, 1)).xy`: the position the shader takes from the
      matrix. Entries 6 and 7, the third column, are the translation part. */
  function Apply(m: seq<real>, p: Point): (r: Point)
    requires |m| == 9
    ensures r == Point(p.x * m[0] + p.y * m[3] + m[6], p.x * m[1] + p.y * m[4] + m[7])
  {
    var v := Transform(m, Vec3(p.x, p.y, 1.0));
    Point(v.x, v.y)
  }

  /** For an affine matrix the homogeneous coordinate of a point stays 1, so
      Transform on (x, y, 1) is Apply followed by appending 1. */
  lemma TransformAffine(m: seq<real>, p: Point)
    requires IsAffine(m)
    ensures Transform(m, Vec3(p.x, p.y, 1.0)) == Vec3(Apply(m, p).x, Apply(m, p).y, 1.0)
  {
  }

  const Identity: seq<real> := [1.0, 0.0, 0.0,
                                0.0, 1.0, 0.0,
                                0.0, 0.0, 1.0]

  /** `m3.translation(tx, ty)`: the matrix that moves every point by (tx, ty). */
  function Translation(tx: real, ty: real): (m: seq<real>)
    ensures IsAffine(m)
    ensures forall p :: Apply(m, p) == Translate(p, tx, ty)
  {
    [1.0, 0.0, 0.0,
     0.0, 1.0, 0.0,
     tx,  ty,  1.0]
  }

  /** `m3.rotation(angleRad)`, where c and s are Math.cos(angleRad) and
      Math.sin(angleRad): the matrix that applies Geometry.Rotate. */
  function Rotation(c: real, s: real): (m: seq<real>)
    ensures IsAffine(m)
    ensures forall p :: Apply(m, p) == Rotate(p, c, s)
  {
    [c,   -s,  0.0,
     s,   c,   0.0,
     0.0, 0.0, 1.0]
  }

  /** `m3.scale(sx, sy)`: the matrix that scales X by sx and Y by sy. */
  function Scale(sx: real, sy: real): (m: seq<real>)
    ensures IsAffine(m)
    ensures forall p :: Apply(m, p) == ScalePoint(p, sx, sy)
  {
    [sx,  0.0, 0.0,
     0.0, sy,  0.0,
     0.0, 0.0, 1.0]
  }

  /** `m3.multiply(a, b)`: a fresh nine-entry array; the inputs are values and
      stay as they were. Affine inputs give an affine result. */
  function Multiply(a: seq<real>, b: seq<real>): (m: seq<real>)
    requires |a| == 9 && |b| == 9
    ensures |m| == 9
    ensures IsAffine(a) && IsAffine(b) ==> IsAffine(m)
  {
    var a00, a01, a02 := a[0 * 3 + 0], a[0 * 3 + 1], a[0 * 3 + 2];
    var a10, a11, a12 := a[1 * 3 + 0], a[1 * 3 + 1], a[1 * 3 + 2];
    var a20, a21, a22 := a[2 * 3 + 0], a[2 * 3 + 1], a[2 * 3 + 2];
    var b00, b01, b02 := b[0 * 3 + 0], b[0 * 3 + 1], b[0 * 3 + 2];
    var b10, b11, b12 := b[1 * 3 + 0], b[1 * 3 + 1], b[1 * 3 + 2];
    var b20, b21, b22 := b[2 * 3 + 0], b[2 * 3 + 1], b[2 * 3 + 2];
    [b00 * a00 + b01 * a10 + b02 * a20,
     b00 * a01 + b01 * a11 + b02 * a21,
     b00 * a02 + b01 * a12 + b02 * a22,
     b10 * a00 + b11 * a10 + b12 * a20,
     b10 * a01 + b11 * a11 + b12 * a21,
     b10 * a02 + b11 * a12 + b12 * a22,
     b20 * a00 + b21 * a10 + b22 * a20,
     b20 * a01 + b21 * a11 + b22 * a21,
     b20 * a02 + b21 * a12 + b22 * a22]
  }

  /** Entry (i, j) of the textbook row-major product x . y: the sum over k
      of x[3i + k] * y[3k + j]. */
  function ProductEntry(x: seq<real>, y: seq<real>, i: nat, j: nat): real
    requires |x| == 9 && |y| == 9 && i < 3 && j < 3
  {
    x[3 * i + 0] * y[3 * 0 + j] + x[3 * i + 1] * y[3 * 1 + j] + x[3 * i + 2] * y[3 * 2 + j]
  }

  /** multiply(a, b) is the row-major product b . a, with the operands the
      other way round from their order in the call. */
  lemma MultiplyIsProductBA(a: seq<real>, b: seq<real>)
    requires |a| == 9 && |b| == 9
    ensures forall i: nat, j: nat :: i < 3 && j < 3 ==> Multiply(a, b)[3 * i + j] == ProductEntry(b, a, i, j)
  {
    var m := Multiply(a, b);
    MultiplyEntries(a, b);
    forall i: nat, j: nat | i < 3 && j < 3 ensures m[3 * i + j] == ProductEntry(b, a, i, j) {
      var n := 3 * i + j;
      if n == 0 { assert i == 0 && j == 0; }
      else if n == 1 { assert i == 0 && j == 1; }
      else if n == 2 { assert i == 0 && j == 2; }
      else if n == 3 { assert i == 1 && j == 0; }
      else if n == 4 { assert i == 1 && j == 1; }
      else if n == 5 { assert i == 1 && j == 2; }
      else if n == 6 { assert i == 2 && j == 0; }
      else if n == 7 { assert i == 2 && j == 1; }
      else { assert i == 2 && j == 2; }
    }
  }

  /** The nine entries of multiply(a, b), each one a row-major product entry. */
  lemma MultiplyEntries(a: seq<real>, b: seq<real>)
    requires |a| == 9 && |b| == 9
    ensures Multiply(a, b)
         == [ProductEntry(b, a, 0, 0), ProductEntry(b, a, 0, 1), ProductEntry(b, a, 0, 2),
             ProductEntry(b, a, 1, 0), ProductEntry(b, a, 1, 1), ProductEntry(b, a, 1, 2),
             ProductEntry(b, a, 2, 0), ProductEntry(b, a, 2, 1), ProductEntry(b, a, 2, 2)]
  {
    MultiplyTopRow(a, b);
    MultiplyMiddleRow(a, b);
    MultiplyBottomRow(a, b);
  }

  /** Entries 0-2, 3-5 and 6-8 of multiply(a, b): one row of b . a each. */
  lemma MultiplyTopRow(a: seq<real>, b: seq<real>)
    requires |a| == 9 && |b| == 9
    ensures Multiply(a, b)[0] == ProductEntry(b, a, 0, 0)
    ensures Multiply(a, b)[1] == ProductEntry(b, a, 0, 1)
    ensures Multiply(a, b)[2] == ProductEntry(b, a, 0, 2)
  {
    var m := Multiply(a, b);
    assert m[0] == ProductEntry(b, a, 0, 0);
    assert m[1] == ProductEntry(b, a, 0, 1);
  }

  lemma MultiplyMiddleRow(a: seq<real>, b: seq<real>)
    requires |a| == 9 && |b| == 9
    ensures Multiply(a, b)[3] == ProductEntry(b, a, 1, 0)
    ensures Multiply(a, b)[4] == ProductEntry(b, a, 1, 1)
    ensures Multiply(a, b)[5] == ProductEntry(b, a, 1, 2)
  {
    var m := Multiply(a, b);
    assert m[3] == ProductEntry(b, a, 1, 0);
    assert m[4] == ProductEntry(b, a, 1, 1);
  }

  lemma MultiplyBottomRow(a: seq<real>, b: seq<real>)
    requires |a| == 9 && |b| == 9
    ensures Multiply(a, b)[6] == ProductEntry(b, a, 2, 0)
    ensures Multiply(a, b)[7] == ProductEntry(b, a, 2, 1)
    ensures Multiply(a, b)[8] == ProductEntry(b, a, 2, 2)
  {
    var m := Multiply(a, b);
    assert m[6] == ProductEntry(b, a, 2, 0);
    assert m[7] == ProductEntry(b, a, 2, 1);
  }

  /** Applying multiply(a, b) in the shader applies b first and then a. */
  lemma MultiplyComposes(a: seq<real>, b: seq<real>, v: Vec3)
    requires |a| == 9 && |b| == 9
    ensures Transform(Multiply(a, b), v) == Transform(a, Transform(b, v))
  {
    MultiplyEntries(a, b);
    RowComposes(v, b, a[0], a[3], a[6]);
    RowComposes(v, b, a[1], a[4], a[7]);
    RowComposes(v, b, a[2], a[5], a[8]);
  }

  /** One output component: weighting v by the combined column equals
      weighting b's image of v by (c0, c1, c2). */
  lemma RowComposes(v: Vec3, b: seq<real>, c0: real, c1: real, c2: real)
    requires |b| == 9
    ensures v.x * (b[0] * c0 + b[1] * c1 + b[2] * c2)
          + v.y * (b[3] * c0 + b[4] * c1 + b[5] * c2)
          + v.w * (b[6] * c0 + b[7] * c1 + b[8] * c2)
         == Transform(b, v).x * c0 + Transform(b, v).y * c1 + Transform(b, v).w * c2
  {
  }

  /** On positions: when b is affine, the shader's position for
      multiply(a, b) is a's position of b's position, so b acts first. */
  lemma ApplyMultiply(a: seq<real>, b: seq<real>, p: Point)
    requires |a| == 9 && IsAffine(b)
    ensures Apply(Multiply(a, b), p) == Apply(a, Apply(b, p))
  {
    MultiplyComposes(a, b, Vec3(p.x, p.y, 1.0));
    TransformAffine(b, p);
  }

  /** translation(0, 0), scale(1, 1) and the rotation with cos 1 and sin 0
      are the identity matrix. */
  lemma IdentityConstructors()
    ensures Translation(0.0, 0.0) == Identity
    ensures Scale(1.0, 1.0) == Identity
    ensures Rotation(1.0, 0.0) == Identity
  {
  }

  /** The identity is neutral for multiply on either side. */
  lemma MultiplyIdentity(m: seq<real>)
    requires |m| == 9
    ensures Multiply(Identity, m) == m
    ensures Multiply(m, Identity) == m
  {
  }
}
