# WebGL 2D tutorial samples: transforms and geometry in Dafny

This project models the arithmetic at the heart of a series of WebGL tutorial
steps. Each step computes it in JavaScript or embeds it in GLSL, and the rest
of the step is calls into the browser's WebGL API. The model covers:

- **Vertex lists.** Every sample uploads a flat list `x0, y0, x1, y1, ...`.
  The model covers sample3's two-triangle rectangle, the 18-vertex "F" of
  sample5a/sample6b/sample8a, and fundamental2's literal array. It proves the
  vertex count that `drawArrays` is told, the corners used, the bounding
  boxes, and translation invariance (`Geometry`, `Sample3`, `Sample5a`,
  `Sample6b`, `Sample8a`, `Fundamental2`).
- **Pixel to clip space.** This is the shader conversion
  `((p / resolution) * 2 - 1) * (1, -1)`. fundamental2 omits the Y flip. The
  model gives the inverse conversion, the corner mappings and monotonicity
  (`ClipSpace`).
- **The `m3` matrix helpers of sample8a.**
  - `translation`, `rotation`, `scale` and `multiply` work on nine-number arrays.
  - The shader's `u_matrix * vec3(a_pos, 1)` reads such an array column by
    column, because it is uploaded untransposed.
  - `multiply(a, b)` is the row-major product b·a, which means b acts first.
    drawScene's matrix therefore scales, then rotates, then translates (`M3`,
    `Sample8a`).
- **sample6b's rotation vector.** The shader rotates by `u_rotation` and
  then translates. This is the `m3` rotation in another form, and it keeps
  lengths when `u_rotation` is a unit vector (`Sample6b`, `CrossSample`).
- **Scene state.** The slider callbacks each write one captured variable.
  drawScene reads the state again. Each sample's state is a `class` with
  `seq` fields (`Sample5a.Scene`, `Sample6b.Scene`, `Sample8a.Scene`).
- **The bound buffer.** `gl.bufferData` replaces its contents. sample3's
  50-iteration loop overwrites the same buffer before every draw
  (`GlBuffer.ArrayBuffer`, `Sample3.DrawRandomRectangles`).

**Numbers and angles.**
- All JavaScript numbers are Dafny `real`s.
- `Math.cos(angle)` and `Math.sin(angle)` are parameters `c` and `s`. Where
  the proof needs it, they are required to satisfy `c * c + s * s == 1`.
- `Math.random()` results are parameters in `[0, 1)`.

**Rotation direction.** The rotation the code computes sends `(x, y)` to
`(x c + y s, -x s + y c)`, and the model follows the code. For a quarter turn
(cos 0, sin 1) with scale (2, 1) and translation (5, 5), a counter-clockwise
rotation would take (1, 0) to (5, 7); the code's rotation takes it to (5, 3)
(`Sample8a.QuarterTurnExample`).

**Checks the code does not make.** The code checks neither the length of the
list it hands to `bufferData` nor the result of `getUniformLocation`, so the
model has no error values for them. The model's preconditions are these:
- A nonzero resolution for every pixel-to-clip conversion, because GLSL
  leaves division by zero undefined.
- Nine entries for every `m3` array (`M3.Transform`, `M3.Apply`,
  `M3.Multiply`), which is the length every `m3` constructor returns.
- `index < 2` for the `updatePosition` and `updateScale` callbacks, whose
  only call sites pass 0 and 1.
- `0 <= r < 1` for `Sample3.RandomInt`, which is the range `Math.random()`
  returns.
- A unit vector `(c, s)` for `Sample6b.Scene.UpdateAngle`, because the code
  stores a cosine and a sine of one angle there.

## Model

| member | source | states |
|---|---|---|
| Geometry.RotatePreservesLength | sample8a/main.js:241-249 | for a unit (c, s), the rotation the samples compute keeps x² + y² |
| Geometry.Shift | sample5a/main.js:68-97 | shifting a position list keeps its length and moves every vertex by (dx, dy) |
| Geometry.QuadCorners | sample3/main.js:68-86 | the six vertices of the two-triangle list are exactly the four corners of the box, and vertices 1 = 4 = (x2, y1) and 2 = 3 = (x1, y2) form the shared diagonal |
| Geometry.QuadVertices | sample3/main.js:79-86 | every one of the six vertices is a corner of the box |
| Geometry.QuadShift | sample3/main.js:68-86 | the two-triangle list at (x1 + dx, y1 + dy)-(x2 + dx, y2 + dy) is the list at (x1, y1)-(x2, y2) shifted by (dx, dy) |
| Geometry.QuadWithin | sample3/main.js:79-86 | if the box lies inside a larger box, so do all six vertices |
| Geometry.FLetter | sample5a/main.js:68-95 | the F is 36 numbers (18 vertices) |
| Geometry.FLetterTranslates | sample5a/main.js:68-97 | the F at (x, y) is the F at (0, 0) with every vertex moved by (x, y) |
| Geometry.FLetterGroups | sample5a/main.js:69-95 | vertices 0-5, 6-11 and 12-17 use exactly the corners of the left column [x, x+t]×[y, y+h], the top rung [x+t, x+w]×[y, y+t] and the middle rung [x+t, x+2/3·w]×[y+2t, y+3t] |
| Geometry.FLetterBounds | sample5a/main.js:68-95 | when 0 ≤ t ≤ 2/3·w and 3t ≤ h, every vertex of the F lies in [x, x+w]×[y, y+h] |
| ClipSpace.PixelToClip | sample3/main.js:11-19 | the shader's flipped conversion is undone by ClipToPixel: the clip position lands back on the input pixel |
| ClipSpace.PixelToClipUnflipped | fundamental2/main.js:11-19 | the unflipped conversion is undone by ClipToPixel after negating Y |
| ClipSpace.ClipRoundTrip | sample3/main.js:11-19 | the conversion also undoes ClipToPixel, so it is a bijection between pixels and clip positions |
| ClipSpace.PixelToClipCorners | sample8a/main.js:15-23 | pixel (0, 0) goes to (-1, 1) and pixel (W, H) to (1, -1) |
| ClipSpace.PixelToClipUnflippedCorners | fundamental2/main.js:11-19 | without the flip, (0, 0) goes to (-1, -1) and (W, H) to (1, 1) |
| ClipSpace.UnflippedIsFlippedMirrored | fundamental2/main.js:19 | the unflipped conversion is the flipped one with Y negated |
| ClipSpace.ClipMonotone | fundamental2/main.js:11-17 | for positive W, H, the unflipped conversion is strictly increasing in each axis; the flipped one is increasing in X and decreasing in Y |
| M3.Transform | sample8a/main.js:12 | `u_matrix * v` with the array uploaded untransposed: entry m[3i + j] is column i, row j of the mat3, and each component is that matrix's row times v |
| M3.Apply | sample8a/main.js:12 | the shader's position for (x, y) is (x m0 + y m3 + m6, x m1 + y m4 + m7) |
| M3.TransformAffine | sample8a/main.js:12 | an affine matrix keeps the homogeneous coordinate at 1 |
| M3.Translation | sample8a/main.js:234-240 | nine entries, affine (entries 2, 5, 8 are 0, 0, 1), and it moves every point by (tx, ty) in the shader |
| M3.Rotation | sample8a/main.js:241-249 | nine entries, affine, and it applies (x c + y s, -x s + y c) in the shader |
| M3.Scale | sample8a/main.js:250-256 | nine entries, affine, and it scales X by sx and Y by sy in the shader |
| M3.Multiply | sample8a/main.js:257-289 | a nine-entry result; affine inputs give an affine result |
| M3.MultiplyEntries | sample8a/main.js:277-289 | the nine entries are the row-major product entries of b·a |
| M3.MultiplyIsProductBA | sample8a/main.js:257-289 | multiply(a, b)[3i + j] = Σ_k b[3i + k]·a[3k + j] for all i, j < 3 |
| M3.MultiplyComposes | sample8a/main.js:257-289 | applying multiply(a, b) to a homogeneous vector applies b first, then a |
| M3.ApplyMultiply | sample8a/main.js:10-12 | for an affine b, the shader's position for multiply(a, b) is a's position of b's position |
| M3.IdentityConstructors | sample8a/main.js:234-256 | translation(0, 0), scale(1, 1) and the rotation with cos 1, sin 0 are the identity |
| M3.MultiplyIdentity | sample8a/main.js:257-289 | multiplying by the identity on either side returns the other operand |
| GlBuffer.ArrayBuffer.constructor | sample5a/main.js:121-123 | a new buffer holds no data |
| GlBuffer.ArrayBuffer.BufferData | sample3/main.js:87 | an upload replaces the whole contents |
| Sample3.RandomInt | sample3/main.js:62-65 | the result is the floor of r·range, and for a positive range it lies in [0, range - 1] |
| Sample3.SetRectangle | sample3/main.js:68-88 | 12 numbers: 6 vertices, the draw count 6 |
| Sample3.SetRectangleCorners | sample3/main.js:68-86 | the six vertices are exactly the four corners of [x, x+w]×[y, y+h] |
| Sample3.SetRectangleDiagonal | sample3/main.js:80-85 | vertices 1 and 4 are (x + w, y); vertices 2 and 3 are (x, y + h) |
| Sample3.SetRectangleTranslates | sample3/main.js:68-86 | setRectangle(x, y, w, h) is setRectangle(0, 0, w, h) shifted by (x, y) |
| Sample3.VertexShader | sample3/main.js:9-20 | the clip position lands on the input pixel |
| Sample3.Iteration | sample3/main.js:163-171 | one pass of the loop: the draw count 6 is the rectangle's vertex count, and the colour is opaque with every channel in [0, 1) |
| Sample3.IterationInBounds | sample3/main.js:162-172 | each draw's count equals its vertex count, and all its vertices lie in [0, 598]² because every randomInt(300) is at most 299 |
| Sample3.DrawRandomRectangles | sample3/main.js:161-172 | 50 draws; draw ii sees exactly the rectangle and colour built from iteration ii's random numbers; afterwards the buffer holds the last rectangle's 12 numbers |
| Sample5a.SetRectangle | sample5a/main.js:68-97 | 36 numbers: 18 vertices, the draw count 18 |
| Sample5a.SetRectangleTranslates | sample5a/main.js:68-97 | vertex k of setRectangle(x, y, w, h) is vertex k of setRectangle(0, 0, w, h) plus (x, y) |
| Sample5a.SetRectangleGroups | sample5a/main.js:69-95 | the three groups of six vertices use exactly the corners of the column, the top rung and the middle rung with t = 30 |
| Sample5a.SetRectangleBounds | sample5a/main.js:126-169 | with width 100 and height 150 every vertex lies in [x, x+100]×[y, y+150] |
| Sample5a.VertexShader | sample5a/main.js:9-20 | the clip position lands on the input pixel |
| Sample5a.Scene.constructor | sample5a/main.js:126-129 | translation [0, 0], width 100, height 150, colour [r0, r1, r2, 1] |
| Sample5a.Scene.UpdatePosition | sample5a/main.js:137-142 | writes translation[index] only; width, height and colour stay |
| Sample5a.Scene.DrawScene | sample5a/main.js:144-192 | the buffer is re-uploaded with the F at the current translation and the draw count covers all of its vertices |
| Sample6b.SetGeometry | sample6b/main.js:78-111 | 18 vertices, the draw count, all in [0, 100]×[0, 150] |
| Sample6b.RotatedPosition | sample6b/main.js:13-15 | the shader's rotatedPos is Rotate with cosine u_rotation.y and sine u_rotation.x, and keeps x² + y² for a unit u_rotation |
| Sample6b.Position | sample6b/main.js:13-18 | pos is the rotated position translated by u_translation |
| Sample6b.VertexShader | sample6b/main.js:11-30 | the clip position lands on the pixel Position gives |
| Sample6b.InitialPositionIsIdentity | sample6b/main.js:13-18 | with the initial translation [0, 0] and rotation [0, 1], the shader's position map is the identity |
| Sample6b.Scene.constructor | sample6b/main.js:146-148 | translation [0, 0], rotation [0, 1], colour [r0, r1, r2, 1]; rotation is a unit vector |
| Sample6b.Scene.UpdatePosition | sample6b/main.js:157-162 | writes translation[index] only; rotation and colour stay |
| Sample6b.Scene.UpdateAngle | sample6b/main.js:164-170 | overwrites both rotation components with (cos, sin); translation stays; rotation stays a unit vector |
| Sample6b.Scene.DrawScene | sample6b/main.js:172-223 | the uniforms are the current translation and rotation, the rotation step keeps every length, and the count covers setGeometry's vertices |
| Sample8a.SetGeometry | sample8a/main.js:72-105 | 18 vertices, the draw count 18, all in [0, 100]×[0, 150] |
| Sample8a.VertexShader | sample8a/main.js:10-24 | the clip position lands on the pixel the matrix gives |
| Sample8a.SceneMatrixOrder | sample8a/main.js:216-222 | the drawScene matrix is affine and applies translate(rotate(scale(p))) |
| Sample8a.QuarterTurnExample | sample8a/main.js:216-222 | cos 0, sin 1, scale (2, 1), translation (5, 5) take (1, 0) to (5, 3) |
| Sample8a.TranslatedVertexExample | sample8a/main.js:10-24 | (1, 0) under translation (10, 20) on a 100 × 100 canvas reaches the clip position of pixel (11, 20), which is (-0.78, 0.6) |
| Sample8a.Scene.constructor | sample8a/main.js:139-142 | translation [100, 150], angle 0, scale [1, 1], colour [r0, r1, r2, 1] |
| Sample8a.Scene.UpdatePosition | sample8a/main.js:153-158 | writes translation[index] only; everything else stays |
| Sample8a.Scene.UpdateAngle | sample8a/main.js:160-164 | the angle becomes (360 - v)·π/180; everything else stays |
| Sample8a.Scene.UpdateScale | sample8a/main.js:166-171 | writes scale[index] only; everything else stays |
| Sample8a.Scene.DrawScene | sample8a/main.js:173-230 | the uploaded matrix is affine, maps every p to translate(rotate(scale(p))) with the current state, and the count covers setGeometry's vertices |
| Fundamental2.PositionsMatchDrawCount | fundamental2/main.js:89-96 | 12 numbers, 6 vertices, the draw count 6 |
| Fundamental2.PositionsAreSample3Rectangle | fundamental2/main.js:89-96 | the literal list is sample3's setRectangle(10, 20, 70, 10) |
| Fundamental2.VertexShader | fundamental2/main.js:9-20 | sample3's conversion with Y negated; (0, 0) goes to (-1, -1) and the resolution to (1, 1) |
| Fundamental2.VertexShaderIncreasing | fundamental2/main.js:11-17 | for a positive resolution the shader is strictly increasing in each axis |
| CrossSample.SameFShape | sample8a/main.js:72-105 | sample8a's and sample6b's setGeometry equal sample5a's setRectangle(0, 0, 100, 150) |
| CrossSample.MatrixPipelineMatchesCpuTranslation | sample8a/main.js:216-222 | with no rotation and unit scale, sample8a's matrix puts vertex k of its F where sample5a's setRectangle(tx, ty, 100, 150) puts it, and both shaders output the same clip position |
| CrossSample.RotationVectorIsMatrix | sample6b/main.js:13-18 | sample6b's position is the m3 pipeline translation · rotation(cos u_rotation.y, sin u_rotation.x) |

## Left out

- `createShader` and `createProgram`: thin wrappers over the WebGL driver's compile and link status. They are foreign calls.
- `main()`'s DOM and context setup, canvas resizing, slider setup, `gl.viewport`, `gl.clear`, `gl.useProgram`, `gl.vertexAttribPointer`, uniform uploads and `gl.drawArrays`: browser and GPU I/O. Each draw is represented by part of what it reads:
  - sample3's `Draw` records the buffer contents, `u_color` and the count.
  - Sample5a.Scene.DrawScene: records the buffer contents and the count.
  - Sample6b.Scene.DrawScene: records `u_translation`, `u_rotation` and the count.
  - Sample8a.Scene.DrawScene: records `u_matrix` and the count.
- `u_resolution`: no draw records it, because it is the canvas size, read from the DOM. The shader functions take it as a parameter instead.
- `u_color` in sample5a, sample6b and sample8a: it is the scene's `color` field, uploaded unchanged. Only sample3's draws record it.
- The redraw each slider callback triggers: the callbacks are modelled as state updates, and drawScene as a separate method called on the new state.
- `Float32Array` rounding and GLSL `mediump` precision: all arithmetic is over exact reals.
- `Math.cos` and `Math.sin`: they are parameters `c` and `s`. `Math.PI` is the decimal constant JavaScript prints for it.
- `Math.random`: its results are parameters in `[0, 1)`. sample3 consumes seven of them per iteration.
- Sample8a.Scene.DrawScene: takes `c` and `s` for the current angle instead of computing them from `angleRad`.
- Sample6b.Scene.UpdateAngle: takes the cosine and sine of (90 + v) degrees instead of the slider value v.
- Division by a zero resolution: GLSL leaves it undefined, and the conversions require a nonzero resolution.
- The slider callbacks' `index` is 0 or 1 in every call the samples make, so the update methods require `index < 2`.
- sample1/main.js and main.js: a hard-coded clip-space triangle and a pass-through shader, with no transform or generated geometry. They are not part of this model.
- GlBuffer.ArrayBuffer: only the contents of the single bound buffer are modelled. Binding, usage hints and other buffers are not.
