/** Equalities between samples: the same F, the CPU-side translation of
    sample5a against the matrix of sample8a, and the rotation vector of
    sample6b against the m3 rotation. */
module CrossSample {
  import opened Geometry
  import M3
  import Sample5a
  import Sample6b
  import Sample8a

  /** sample8a's and sample6b's setGeometry upload the F that sample5a's
      setRectangle(0, 0, 100, 150) uploads. */
  lemma SameFShape()
    ensures Sample8a.SetGeometry() == Sample5a.SetRectangle(0.0, 0.0, 100.0, 150.0)
    ensures Sample6b.SetGeometry() == Sample8a.SetGeometry()
  {
  }

  /** sample8a's matrix with no rotation (cos 1, sin 0), scale (1, 1) and
      translation (tx, ty) puts vertex k of its F exactly where sample5a puts
      vertex k of setRectangle(tx, ty, 100, 150), and so both shaders output
      the same clip position. */
  lemma MatrixPipelineMatchesCpuTranslation(tx: real, ty: real, k: nat, resolution: Point)
    requires k < 18 && resolution.x != 0.0 && resolution.y != 0.0
    ensures M3.Apply(M3.Multiply(M3.Multiply(M3.Translation(tx, ty), M3.Rotation(1.0, 0.0)), M3.Scale(1.0, 1.0)),
                     Vertex(Sample8a.SetGeometry(), k))
         == Vertex(Sample5a.SetRectangle(tx, ty, 100.0, 150.0), k)
    ensures Sample8a.VertexShader(Vertex(Sample8a.SetGeometry(), k), resolution,
              M3.Multiply(M3.Multiply(M3.Translation(tx, ty), M3.Rotation(1.0, 0.0)), M3.Scale(1.0, 1.0)))
         == Sample5a.VertexShader(Vertex(Sample5a.SetRectangle(tx, ty, 100.0, 150.0), k), resolution)
  {
    var p := Vertex(Sample8a.SetGeometry(), k);
    Sample8a.SceneMatrixOrder(tx, ty, 1.0, 0.0, 1.0, 1.0, p);
    SameFShape();
    Sample5a.SetRectangleTranslates(tx, ty, 100.0, 150.0);
  }

  /** sample6b's shader position is the m3 pipeline with rotation
      (cos, sin) = (u_rotation.y, u_rotation.x) followed by translation by
      u_translation: the rotation vector is a rotation matrix in disguise. */
  lemma RotationVectorIsMatrix(aPos: Point, translation: Point, rotation: Point)
    ensures Sample6b.Position(aPos, translation, rotation)
         == M3.Apply(M3.Multiply(M3.Translation(translation.x, translation.y), M3.Rotation(rotation.y, rotation.x)), aPos)
  {
    M3.ApplyMultiply(M3.Translation(translation.x, translation.y), M3.Rotation(rotation.y, rotation.x), aPos);
  }
}
