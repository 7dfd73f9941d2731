# JavaGameEngine rasterizer core in Dafny

This project models the core of JavaGameEngine, a CPU software rasterizer written in Java, and proves properties of that model. The core covers:

- **The rasterizer** (`Render`, `Clip`, `Raster`). `Camera.renderTriangle` culls triangles that face away from the camera. It clips each remaining view-space triangle against the near plane `NEAR_CLIP_DST`, which yields 0, 1 or 2 sub-triangles. Each sub-triangle carries barycentric "weights" relative to the original triangle. `Camera.drawTriangle` then scans a clamped bounding box, applies the signed-area point-in-triangle test and computes the perspective-correct depth and weights. It runs the material's shader with its discard sentinel, applies the strict depth test (or the overdraw counter) and writes the two per-pixel buffers. The colour buffer is a `TYPE_INT_RGB` image, so it keeps only the low 24 bits of each packed colour. The buffers are `array2` fields of a `Camera` object, and the loops are methods. Each method is proved equal to a pure description of the buffers it leaves behind:
  - `Step` for one `drawTriangle`;
  - `ApplyAll` for a sequence of calls;
  - `CellAfter` for one pixel.
- **Vector maths and transforms** (`Num`, `Vec`, `Maths`, `Transforms`). This covers `Float3` and `Float2` with the RGB pack and unpack and HSV conversion, the in-place `set` and `offset`, and `Maths`: clamp, lerp, signed area, the point-in-triangle test, rotation by a basis, and world-to-view and view-to-screen. `Transform` keeps its basis equal to the basis of its rotation, and `updateRotation` wraps angles with Java's sign-keeping `%`.
- **Scene data** (`Mesh`, `Scenes`, `Materials`, `Shaders`, `DebugShaders`). This covers triangles and models (index lookups into their pools), `GameObject` and its constructor chain, and the `Scene` registries of models (with the error-mesh fallback) and objects (keyed by name). It also covers the built-in meshes, `Material.convertUV`, `FragmentData`, the lighting helper and the shaders of both the `shader` and `shader.debug` packages.
- **Physics and scripting helpers** (`Collision`, `Rigid`, `PMove`, `Player`, `InputState`, `Scripting`):
  - the closest point of a triangle in clamped barycentric coordinates, and the nearest-triangle search of `uv_collision`;
  - the dimension-checked matrix helpers of `RigidTransform3D`;
  - Quake's `PM_Accelerate`;
  - the player's jump and physics step;
  - the key-edge detection of `Input`;
  - the frame clock of `Script`.

Every float or double is a Dafny `real`. Java's `(int)` cast and its truncated `%` are written out in `Num`. A square root is never computed: where the source takes one, the caller supplies the value together with a proof obligation that it is the root (`Num.IsSqrt`). Static fields become the fields of one object per class: `Scene`, `Camera`, `Input`, `FrameClock` and `PlayerPhysics`.

The Java sources do not agree with each other in a few places, and the model gives each of them its evident meaning:
- `Camera` expects `Maths.pointTriangleTest` to return a pair (inside, barycentric weights). The model returns the pair.
- `Camera` expects `getInverseBasisVectors` of a transform. The model takes the transpose of the camera basis.
- `Camera` expects `triToScreen` with the resolution and field of view. The model uses the screen size (resX, resY) and `fov` as the z scale.
- `Maths` reads a `Transform.invBasisVectors` field that does not exist. The model computes the transpose.
- `Maths` calls a `Float2.dotProduct` that does not exist. The model uses the usual dot product.
- The `debug` shaders override `fragment(FragmentData)` while `Shader` declares a six-argument `fragment`. Both families are modelled, each on its own argument list.

Three quirks of the code are kept as written:
- `Float3.normalize` multiplies a vector by its length instead of dividing.
- `updateRotation` keeps each angle's sign, so angles land in (-360, 360).
- `drawTriangle` never visits the last column and row of the buffers.

## Model

| member | source | states |
|---|---|---|
| `Num.JavaIntCast` | src/game_engine/math/Float3.java:110-112 | the `(int)` cast stays in the int range and is plain truncation toward zero for values inside it |
| `Num.JavaRemBounds` | src/game_engine/math/Float3.java:88-90 | Java's float `%` is smaller than the divisor in magnitude and keeps the dividend's sign |
| `Vec.Float3.Normalize` | src/game_engine/math/Float3.java:94-97 | the zero-length vector gives the zero vector; otherwise, as written, the result is scaled BY the length, so its squared length is the square of the input's squared length |
| `Vec.Float3.Lerp` | src/game_engine/math/Float3.java:99-101 | t = 0 gives this vector and t = 1 gives the other |
| `Vec.ChannelByte` | src/game_engine/math/Float3.java:110-112 | a channel in [0,1] times 255, cast to int, is a byte |
| `Vec.PackRGBBytes` | src/game_engine/math/Float3.java:113 | `(r << 16) \| (g << 8) \| b` of three bytes is r·65536 + g·256 + b |
| `Vec.FromRGB` | src/game_engine/math/Float3.java:19-25 | each channel is in [0,1] and times 255 is the matching byte of the packed colour |
| `Vec.Byte` | src/game_engine/math/Float3.java:21-23 | a masked and shifted byte lies in [0, 256) |
| `Vec.PackBytes` | src/game_engine/math/Float3.java:113 | the OR of bytes at bit offsets 16, 8 and 0 is their sum (the bits do not overlap) |
| `Vec.UnpackBytes` | src/game_engine/math/Float3.java:21-23 | extracting the three bytes of a packed colour gives back the packed bytes |
| `Vec.GetColorBytes` | src/game_engine/math/Float3.java:109-114 | for channels in [0,1] the packed colour is in [0, 0xFFFFFF] and its bytes are the truncated channels |
| `Vec.GetColorValue` | src/game_engine/math/Float3.java:109-114 | for channels in [0,1] the packed colour is the sum of the truncated channels at their byte positions |
| `Vec.GetColorIsPack` | src/game_engine/math/Float3.java:109-114 | for channels in [0,1] the int casts are truncations and the colour is their packing |
| `Vec.ColorRoundTrip` | src/game_engine/math/Float3.java:19-25 | `fromRGB(rgb).getColor()` is `rgb`'s low 24 bits |
| `Vec.LowBytes` | src/game_engine/math/Float3.java:21-23 | the three extracted bytes make up the int's low 24 bits |
| `Vec.Hue360` | src/game_engine/math/Float3.java:27 | the wrapped hue is in [0, 360) |
| `Vec.HueFraction` | src/game_engine/math/Float3.java:32 | `1 - \|(h/60) % 2 - 1\|` is in [0,1] |
| `Vec.ChromaBounds` | src/game_engine/math/Float3.java:31-33 | chroma v·s lies in [0, v] and x = c·f in [0, c] |
| `Vec.FromHSVInUnitCube` | src/game_engine/math/Float3.java:26-56 | saturation and value in [0,100] give every channel in [0,1] for any hue |
| `Vec.HueToRGBInUnitCube` | src/game_engine/math/Float3.java:31-55 | channels stay in [0,1] for any hue when fraction, saturation and value are in [0,1] |
| `Vec.HexChannelsBounds` | src/game_engine/math/Float3.java:37-54 | every sextant assigns c + m, x + m or m, all in [0,1] |
| `Vec.Float2.Rotate90` | src/game_engine/math/Float2.java:40-42 | the quarter turn is perpendicular to the vector and of the same length |
| `Vec.Float2.Modulo` | src/game_engine/math/Float2.java:46-48 | each component shrinks below the divisor in magnitude and keeps its sign |
| `Vec.Float2.Normalize` | src/game_engine/math/Float2.java:49-52 | the zero vector stays zero; any other has unit length and times the length gives the input back |
| `Vec.Float3Cell.constructor` | src/game_engine/math/Float3.java:13-17 | the new vector holds the given components |
| `Vec.Float3Cell.Set` | src/game_engine/math/Float3.java:58-62 | all three fields are overwritten |
| `Vec.Float3Cell.Offset` | src/game_engine/math/Float3.java:63-67 | the vector becomes its old value plus the offset, in place |
| `Vec.Float3Cell.OffsetBy` | src/game_engine/math/Float3.java:68-70 | offsetting by a vector is offsetting by its components |
| `Vec.Float2Cell.constructor` | src/game_engine/math/Float2.java:11-14 | the new vector holds the given components |
| `Vec.Float2Cell.Offset` | src/game_engine/math/Float2.java:16-19 | the vector becomes its old value plus the offset, in place |
| `Vec.Float2Cell.OffsetBy` | src/game_engine/math/Float2.java:20-22 | offsetting by a vector is offsetting by its components |
| `Vec.AddSubDot` | src/game_engine/math/Float3.java:76-81 | `sub` undoes `add`, and `dotProduct` is symmetric |
| `Vec.ScaleScale` | src/game_engine/math/Float3.java:85-87 | scaling twice is scaling by the product |
| `Vec.ScaleAdd` | src/game_engine/math/Float3.java:85-87 | scaling distributes over `add` |
| `Vec.ScaleSum` | src/game_engine/math/Float3.java:85-87 | scaling by a sum of factors is the sum of the scalings |
| `Vec.AddShuffle` | src/game_engine/math/Float3.java:76-78 | `add` may be regrouped termwise |
| `Vec.Scale2Units` | src/game_engine/math/Float2.java:34-36 | scaling by 1 and by 0, and adding the zero vector, behave as identities |
| `Vec.DotAdd` | src/game_engine/math/Float3.java:102-104 | `dotProduct` distributes over `add` |
| `Vec.DotScale` | src/game_engine/math/Float3.java:102-104 | `dotProduct` pulls out a scale factor |
| `Vec.Rotate90Twice` | src/game_engine/math/Float2.java:40-42 | two quarter turns negate the vector |
| `Vec.AddSub2` | src/game_engine/math/Float2.java:28-33 | `sub` undoes `add` |
| `Vec.To3DKeeps` | src/game_engine/math/Float2.java:54-59 | `to3D` puts the vector at z = 0 (or the given z) and keeps x and y |
| `Maths.BoolToInt` | src/game_engine/math/Maths.java:8-10 | the result is 0 or 1, and 1 exactly for true |
| `Maths.ClampI` | src/game_engine/math/Maths.java:12-14 | the result is at least min and, when min <= max, at most max; a value in range is kept; below min gives min, above max gives max |
| `Maths.ClampR` | src/game_engine/math/Maths.java:15-20 | the same clamping laws for floats and doubles |
| `Maths.LerpR` | src/game_engine/math/Maths.java:22-27 | t = 0 gives a, t = 1 gives b, and t in [0,1] stays between a and b |
| `Maths.AreaFormula` | src/game_engine/math/Maths.java:29-31 | `signedTriArea` is half the cross product of (c - a) and (b - a) |
| `Maths.SignedTriAreaSwap` | src/game_engine/math/Maths.java:29-31 | swapping two corners negates the signed area |
| `Maths.SignedTriAreaCyclic` | src/game_engine/math/Maths.java:29-31 | rotating the corners keeps the signed area |
| `Maths.SignedTriAreaDegenerate` | src/game_engine/math/Maths.java:29-31 | a repeated corner gives zero area |
| `Maths.SubAreasTotal` | src/game_engine/math/Maths.java:33-37 | the three sub-areas always sum to the triangle's own signed area, wherever p is |
| `Maths.PointTriangleTest` | src/game_engine/math/Maths.java:32-47 | no weights exactly when the sub-areas sum to 0; inside exactly when that sum is non-zero and the sub-areas are all >= 0 or all < 0; each weight is its sub-area's share of the total (weight times total is the sub-area), so the weights sum to 1 |
| `Maths.SubAreasBlend` | src/game_engine/math/Maths.java:33-37 | the corners weighted by their opposite sub-areas add up to the point scaled by the total area |
| `Maths.BaryBlendsToPoint` | src/game_engine/math/Maths.java:38-44 | the weights are barycentric coordinates: blending the three corners with them gives back the tested point |
| `Maths.InsideWeightsNonNegative` | src/game_engine/math/Maths.java:40-46 | a point reported inside has three non-negative weights |
| `Maths.PointTriangleTestInto` | src/game_engine/math/Maths.java:32-47 | the weights are written into `baryOut` unless the triangle is degenerate, which leaves it untouched |
| `Maths.DotCombination` | src/game_engine/math/Maths.java:106-108 | a combination of vectors dotted with w is the same combination of dot products |
| `Maths.RotateCoordinates` | src/game_engine/math/Maths.java:106-108 | `rotate` written out coordinate by coordinate |
| `Maths.RotateAxes` | src/game_engine/math/Maths.java:106-108 | `rotate` sends the axes to the basis vectors; the standard basis leaves vectors alone |
| `Maths.RotateLinear` | src/game_engine/math/Maths.java:106-108 | `rotate` distributes over `add` |
| `Maths.RotateHomogeneous` | src/game_engine/math/Maths.java:106-108 | `rotate` commutes with scaling |
| `Maths.RotateSub` | src/game_engine/math/Maths.java:106-108 | `rotate` distributes over `sub` |
| `Maths.RotateLerp` | src/game_engine/math/Maths.java:106-108 | the rotation of a blend is the blend of the rotations |
| `Maths.TransposeTwice` | src/game_engine/math/Maths.java:99-104 | `getInverseBasisVectors` applied twice is the identity and fixes the standard basis |
| `Maths.RotateDotBasis` | src/game_engine/math/Maths.java:106-108 | for an orthonormal basis, dotting a rotated vector with a basis vector reads off one coordinate |
| `Maths.TransposeUndoesRotate` | src/game_engine/math/Maths.java:99-108 | for an orthonormal basis the transposed basis undoes `rotate`, so it is the inverse its name promises |
| `Maths.RotateKeepsDot` | src/game_engine/math/Maths.java:106-108 | rotating by an orthonormal basis keeps dot products |
| `Maths.ElementaryOrthonormal` | src/game_engine/math/Maths.java:72-88 | the pitch, yaw and roll bases are orthonormal when sin² + cos² = 1 |
| `Maths.ComposeOrthonormal` | src/game_engine/math/Maths.java:90-96 | rotating an orthonormal basis by an orthonormal basis gives an orthonormal basis |
| `Maths.ComposedOrthonormal` | src/game_engine/math/Maths.java:90-97 | the roll-after-pitch-and-yaw composition is orthonormal |
| `Maths.BasisOrthonormal` | src/game_engine/math/Maths.java:71-98 | `getBasisVectors` yields an orthonormal basis whenever the three angles satisfy sin² + cos² = 1 |
| `Maths.BasisOfNoRotation` | src/game_engine/math/Maths.java:71-98 | no rotation gives the standard axes |
| `Maths.TransformPoint` | src/game_engine/math/Maths.java:114-116 | the origin lands on the transform's position |
| `Maths.TransformTri` | src/game_engine/math/Maths.java:117-122 | three vertices, each transformed, in order |
| `Maths.VertexToView` | src/game_engine/math/Maths.java:49-52 | the camera's own position maps to the view-space origin |
| `Maths.ViewUndoesPlacement` | src/game_engine/math/Maths.java:49-52 | for an orthonormal camera basis, viewing a point placed at pos + rotate(v) gives v back |
| `Maths.TriToView` | src/game_engine/math/Maths.java:53-58 | three vertices, each brought into view space, in order |
| `Maths.VertexToScreen` | src/game_engine/math/Maths.java:59-63 | depth is kept; a point on the axis lands at the screen centre; in front of the camera, a point right of the axis lands left of the centre |
| `Maths.TriToScreen` | src/game_engine/math/Maths.java:64-69 | three projected vertices, in order, each keeping its depth |
| `Transforms.WrapAngle` | src/game_engine/scene/Transform.java:35-37 | `angle %= 360` lands in (-360, 360), keeps the sign, and leaves an angle already there unchanged |
| `Transforms.WrapAnglesProperties` | src/game_engine/scene/Transform.java:34-39 | after wrapping every angle is in (-360, 360), and wrapping again changes nothing |
| `Transforms.Transform.constructor` | src/game_engine/scene/Transform.java:12-17 | position and scale as given, the rotation wrapped, and the basis that of the wrapped rotation |
| `Transforms.Transform.Move` | src/game_engine/scene/Transform.java:19-21 | the position is offset in place; rotation, basis and scale are unchanged |
| `Transforms.Transform.MoveBy` | src/game_engine/scene/Transform.java:22-24 | the position becomes the sum; rotation, basis and scale are unchanged |
| `Transforms.Transform.Rotate` | src/game_engine/scene/Transform.java:25-28 | the rotation becomes the wrapped sum and the basis follows it; position and scale are unchanged |
| `Transforms.Transform.RotateBy` | src/game_engine/scene/Transform.java:29-32 | the same through a fresh sum |
| `Transforms.Transform.UpdateRotation` | src/game_engine/scene/Transform.java:34-39 | each angle wrapped and the basis recomputed from the wrapped rotation |
| `Mesh.Triangle.GetVertexes` | src/game_engine/scene/Triangle.java:24-29 | the three corners A, B, C read from the vertex array, in order |
| `Mesh.Triangle.GetUVs` | src/game_engine/scene/Triangle.java:30-35 | the three corner UVs read from the UV array, in order |
| `Mesh.Triangle.GetNormal` | src/game_engine/scene/Triangle.java:36-38 | the normal is the one at the triangle's normal index |
| `Mesh.Model.TriangleCount` | src/game_engine/scene/Model.java:18-20 | the number of triangles |
| `Mesh.Model.GetTriVertexes` | src/game_engine/scene/Model.java:21-23 | triangle i's three corners, each taken from the model's vertexes |
| `Mesh.Model.GetTriUVs` | src/game_engine/scene/Model.java:24-26 | triangle i's UV indices lie inside the UV pool, and the result is the UVs at those indices, in the order uvA, uvB, uvC |
| `Mesh.Model.GetTriNormal` | src/game_engine/scene/Model.java:27-29 | triangle i's normal index lies inside the normal pool, and the result is the normal at that index |
| `Mesh.ValidFromIndexes` | src/game_engine/scene/Model.java:11-16 | a model whose every triangle indexes inside its arrays is well formed |
| `Materials.Material.ConvertUV` | src/game_engine/material/Material.java:22-24 | each component of `uv * scale % 1` is below 1 in magnitude and keeps the sign of the scaled value |
| `Materials.DefaultMaterial` | src/game_engine/material/Material.java:11-15 | an unlit shader, a 2x2 texture and scale (1, 1) |
| `Materials.FullMaterial` | src/game_engine/material/Material.java:16-20 | shader, texture and scale stored as given, null included |
| `Materials.ConvertUVUnitScale` | src/game_engine/material/Material.java:22-24 | with scale (1, 1) UVs in [0,1) pass through, so converting twice is converting once |
| `Materials.ErrorMat` | src/game_engine/scene/Scene.java:30 | the fallback material: unlit, a 2x2 texture, UVs repeated four times each way |
| `Shaders.DiscardIsDiscarded` | src/game_engine/material/shader/Shader.java:10 | the `discard` colour fails the rasterizer's red-below-zero test |
| `Shaders.LightingIntensity` | src/game_engine/material/shader/Shader.java:14-17 | for a cosine in [-1,1] and envLight in [0,1] the intensity lies in [envLight, 1]; facing the sun gives 1, facing away gives envLight |
| `Shaders.Min3Symmetric` | src/game_engine/material/shader/WireframeShader.java:12 | the smallest weight does not depend on the weights' order |
| `Shaders.WireOrBackground` | src/game_engine/material/shader/WireframeShader.java:10-16 | the wire colour exactly when the smallest weight is below the threshold, otherwise the background; never a discard |
| `Shaders.WireframeFragment` | src/game_engine/material/shader/WireframeShader.java:9-17 | the wire colour exactly when the smallest weight is below 0.04, otherwise the background |
| `Shaders.WireframeSymmetric` | src/game_engine/material/shader/WireframeShader.java:12-16 | permuting the weights does not change the colour |
| `Shaders.DepthFragment` | src/game_engine/material/shader/DepthShader.java:9-15 | beyond depth 50 the fixed pale colour; otherwise a grey whose level times 50 is the depth, in [0,1] for depths in [0,50] |
| `Shaders.DepthMonotone` | src/game_engine/material/shader/DepthShader.java:10-14 | below the cap a nearer fragment is never brighter than a farther one |
| `Shaders.NormalsFragment` | src/game_engine/material/shader/NormalsShader.java:9-11 | each channel is (component + 1) / 2, in [0,1] for a normal in [-1,1]³; the zero normal is mid grey |
| `Shaders.OutsideRingByLength` | src/game_engine/material/shader/DebugShader.java:10-11 | the squared ring test agrees with `l < .35 \|\| l > .65` on the length itself |
| `Shaders.NearScale` | src/game_engine/material/shader/DebugShader.java:14 | `min(1, 4 / depth)` is at most 1, exactly 1 for depths in (0, 4], and positive in front |
| `Shaders.DebugFragment` | src/game_engine/material/shader/DebugShader.java:9-15 | discard outside the ring; otherwise (su, sv, 1) scaled by the near factor, unscaled up to depth 4 |
| `Shaders.DebugIgnoresThirdWeight` | src/game_engine/material/shader/DebugShader.java:10 | the third weight plays no part |
| `Shaders.InterpolateUVCorners` | src/game_engine/material/shader/FragmentData.java:34 | at a corner's standard weights the interpolated UV is that corner's UV |
| `Shaders.InterpolateUVAffine` | src/game_engine/material/shader/FragmentData.java:34 | weights summing to one reproduce a UV shared by all three corners |
| `Shaders.TextureOf` | src/game_engine/material/shader/FragmentData.java:35 | the material's texture, or the error material's when it is null |
| `Shaders.DefaultFragmentData` | src/game_engine/material/shader/FragmentData.java:19-28 | zero vectors, a default material, three null UV slots, the error texture and depth Float.MAX_VALUE |
| `Shaders.SomeEach` | src/game_engine/material/shader/FragmentData.java:33 | every UV slot holds the given UV, in order |
| `Shaders.MakeFragmentData` | src/game_engine/material/shader/FragmentData.java:29-38 | the texture UV is the weighted UVs converted by the material, the texture falls back to the error texture, and every other field is stored as given |
| `Shaders.CornerTexUV` | src/game_engine/material/shader/FragmentData.java:34 | at a corner the fragment's texture UV is that corner's UV, converted |
| `DebugShaders.WireframeFragment` | src/game_engine/material/shader/debug/WireframeShader.java:9-17 | the wire colour exactly when the smallest weight is below 0.025, otherwise the background |
| `DebugShaders.WireframeSymmetric` | src/game_engine/material/shader/debug/WireframeShader.java:12-16 | permuting the weights does not change the colour, and the triangle's centre is background |
| `DebugShaders.DepthFragment` | src/game_engine/material/shader/debug/DepthShader.java:9-15 | the depth rule applied to the fragment's depth |
| `DebugShaders.NormalsFragment` | src/game_engine/material/shader/debug/NormalsShader.java:9-11 | the normal mapped from [-1,1] to [0,1] |
| `DebugShaders.DebugFragment` | src/game_engine/material/shader/debug/DebugShader.java:9-15 | the ring discard on the fragment's weights; otherwise the scaled screen UV, blue positive in front |
| `DebugShaders.UVFragment` | src/game_engine/material/shader/debug/UVShader.java:9-11 | the texture coordinate as red and green, blue 0 |
| `DebugShaders.DebugShadersReadOnly` | src/game_engine/material/shader/debug/DebugShader.java:9-15 | each debug shader reads only its own fields: fragments that agree on them get the same colour |
| `Scenes.ErrorModel` | src/game_engine/scene/Scene.java:31-44 | the fallback mesh is well formed: 12 vertexes, 4 UVs, 2 normals, 6 triangles |
| `Scenes.CubeTrianglesInside` | src/game_engine/scene/Scene.java:101-107 | every cube triangle indexes below 8 vertexes, 24 UVs and 6 normals |
| `Scenes.Cube` | src/game_engine/scene/Scene.java:85-108 | the cube is well formed: 8 corners, 24 UVs, 6 normals, 12 triangles |
| `Scenes.CubeInv` | src/game_engine/scene/Scene.java:110-114 | the inverted cube shares the cube's vertexes, UVs and triangles and reverses every normal |
| `Scenes.Quad` | src/game_engine/scene/Scene.java:116-122 | the quad is well formed: 4 corners, 4 UVs, 1 normal, 2 triangles |
| `Scenes.LookupModel` | src/game_engine/scene/Scene.java:56-62 | the stored model for a known key, the error mesh for a missing one |
| `Scenes.LookupValid` | src/game_engine/scene/Scene.java:56-62 | a lookup among well-formed models always yields a well-formed model, the fallback included |
| `Scenes.ReplaceIsAdd` | src/game_engine/scene/Scene.java:49-52 | removing a key and then storing under it is the same as storing directly |
| `Scenes.PlacedVertexes` | src/game_engine/scene/GameObject.java:48-50 | each of the triangle's corners transformed by the pose |
| `Scenes.PlacedNormal` | src/game_engine/scene/GameObject.java:54-56 | the pool normal at triangle i's index, rotated by the basis; an orthonormal basis keeps its length |
| `Scenes.IdentityPoseKeeps` | src/game_engine/math/Maths.java:114-116 | the identity pose leaves a point where it is |
| `Scenes.PlacedAtIdentity` | src/game_engine/scene/GameObject.java:48-56 | at the identity pose an object's triangle and normal are the model's own |
| `Scenes.PlacedTranslates` | src/game_engine/scene/GameObject.java:48-50 | moving an object translates every placed vertex by the same offset |
| `Scenes.GameObject.constructor` | src/game_engine/scene/GameObject.java:16-23 | active, with the given name, model key, material and script, and a transform built from the given pose |
| `Scenes.GameObject.Uniform` | src/game_engine/scene/GameObject.java:24-26 | the same with one scale factor for all three axes |
| `Scenes.GameObject.Rotated` | src/game_engine/scene/GameObject.java:27-29 | the same with unit scale |
| `Scenes.GameObject.Placed` | src/game_engine/scene/GameObject.java:30-32 | the same with no rotation and unit scale |
| `Scenes.GameObject.AtOrigin` | src/game_engine/scene/GameObject.java:33-35 | the same at the origin |
| `Scenes.GameObject.Named` | src/game_engine/scene/GameObject.java:36-38 | the empty model key, no material and no script |
| `Scenes.GameObject.GetModel` | src/game_engine/scene/GameObject.java:41-43 | the scene's model under the object's key, or the error mesh |
| `Scenes.GameObject.TriangleCount` | src/game_engine/scene/GameObject.java:45-47 | the model's triangle count; 6 for a missing key |
| `Scenes.GameObject.GetTriVertexes` | src/game_engine/scene/GameObject.java:48-50 | the model's triangle placed by the object's transform |
| `Scenes.GameObject.GetTriUVs` | src/game_engine/scene/GameObject.java:51-53 | the UVs at triangle i's indices in the object's model; the transform is not read |
| `Scenes.GameObject.GetTriNormal` | src/game_engine/scene/GameObject.java:54-56 | the model's pool normal at triangle i's index, turned by the basis only (position and scale not read); an orthonormal basis keeps its length |
| `Scenes.GameObject.UpdateScript` | src/game_engine/scene/GameObject.java:58-62 | the object's script is run exactly when it has one |
| `Scenes.Scene.constructor` | src/game_engine/scene/Scene.java:15-17 | no sun angle, no ambient light, no camera, empty registries |
| `Scenes.Scene.SetSunAngle` | src/game_engine/scene/Scene.java:18-21 | the sun direction is the third basis vector of (pitch, yaw, 0); nothing else changes |
| `Scenes.Scene.UpdateCamera` | src/game_engine/scene/Scene.java:24-28 | the camera object's script is run exactly when it has one |
| `Scenes.Scene.GetModel` | src/game_engine/scene/Scene.java:56-62 | the stored model, or the error mesh for a missing key |
| `Scenes.Scene.AddModel` | src/game_engine/scene/Scene.java:46-48 | one key is stored or overwritten; every other key reads as before; the sun angle, sun direction and ambient light are unchanged |
| `Scenes.Scene.RemoveModel` | src/game_engine/scene/Scene.java:53-55 | afterwards the key reads as the error mesh; every other key reads as before; the sun angle, sun direction and ambient light are unchanged |
| `Scenes.Scene.ReplaceModel` | src/game_engine/scene/Scene.java:49-52 | remove then add, which leaves the registry as a plain add would; the sun angle, sun direction and ambient light are unchanged |
| `Scenes.Scene.Add` | src/game_engine/scene/Scene.java:65-67 | the object is stored under its name; the count grows by one unless the name was taken; the sun angle, sun direction and ambient light are unchanged |
| `Scenes.Scene.Delete` | src/game_engine/scene/Scene.java:68-70 | afterwards no object has that name; the sun angle, sun direction and ambient light are unchanged |
| `Scenes.Scene.GetObject` | src/game_engine/scene/Scene.java:71-73 | null exactly when no object has the name, otherwise the stored object |
| `Scenes.Scene.GetObjectAt` | src/game_engine/scene/Scene.java:74-79 | some stored object |
| `Scenes.Scene.ObjectCount` | src/game_engine/scene/Scene.java:80-82 | the number of stored names |
| `Scenes.Scene.InitializeScene` | src/game_engine/scene/Scene.java:84-123 | registers "cube", "cubeInv" and "quad", keeping every stored model well formed; the sun angle, sun direction and ambient light are unchanged |
| `Clip.ClipCount` | src/game_engine/render/Camera.java:104-107 | the number of vertexes at or behind the near plane, 0 exactly when none is and 3 exactly when all are |
| `Clip.ClipFraction` | src/game_engine/render/Camera.java:121-122 | the cut fraction along an edge from a clipped to a kept vertex lies in [0,1] and lands exactly on the near plane |
| `Clip.ClipOne` | src/game_engine/render/Camera.java:113-133 | one clipped vertex yields two sub-triangles |
| `Clip.ClipTwo` | src/game_engine/render/Camera.java:134-152 | two clipped vertexes yield one sub-triangle |
| `Clip.FirstClipped` | src/game_engine/render/Camera.java:114 | with one vertex clipped, the index chosen is that vertex and the other two are kept |
| `Clip.FirstKept` | src/game_engine/render/Camera.java:135 | with two vertexes clipped, the index chosen is the kept vertex and the other two are clipped |
| `Clip.ClipTriangle` | src/game_engine/render/Camera.java:104-155 | no clipped vertex draws the triangle unchanged with the standard weights; one clipped gives two sub-triangles, two give one, three give none |
| `Clip.LerpShare` | src/game_engine/render/Camera.java:126-127 | interpolating two shares in [0,1] by a fraction in [0,1] stays in [0,1] |
| `Clip.LerpWeight` | src/game_engine/render/Camera.java:126-127 | interpolating two barycentric weights gives a barycentric weight |
| `Clip.StandardCorner` | src/game_engine/render/Camera.java:22-23 | each standard weight is barycentric and blends the triangle to its own vertex |
| `Clip.LerpDepth` | src/game_engine/render/Camera.java:123-124 | the depth of an interpolated point is the interpolated depth |
| `Clip.CutDepth` | src/game_engine/render/Camera.java:123-124 | the cut point lies exactly on the near plane |
| `Clip.EdgeBlend` | src/game_engine/render/Camera.java:126-127 | interpolating two standard weights blends the triangle to the same point as interpolating the two vertexes |
| `Clip.EdgeCorner` | src/game_engine/render/Camera.java:121-127 | a cut point and its weight are a sound corner: the weight is barycentric, blends to the point, and the point is on the near plane |
| `Clip.KeptCorner` | src/game_engine/render/Camera.java:128-129 | a kept vertex with its standard weight is a sound corner |
| `Clip.ClipSound` | src/game_engine/render/Camera.java:104-155 | every sub-triangle the clip emits is sound: barycentric weights that blend to its vertexes, all in front of the near plane |
| `Clip.ClipNoneSound` | src/game_engine/render/Camera.java:110-112 | the unclipped triangle with the standard weights is sound |
| `Clip.ClipOneSound` | src/game_engine/render/Camera.java:113-133 | both sub-triangles of the one-clipped case are sound |
| `Clip.SoundSingle` | src/game_engine/render/Camera.java:151 | a one-element list of sound sub-triangles is all sound |
| `Clip.SoundPair` | src/game_engine/render/Camera.java:131-132 | a two-element list of sound sub-triangles is all sound |
| `Clip.ClipTwoSound` | src/game_engine/render/Camera.java:134-152 | the sub-triangle of the two-clipped case is sound |
| `Clip.CyclicWinding` | src/game_engine/render/Camera.java:115-119 | reading three corners cyclically from any index keeps their signed area |
| `Clip.CornerOrder` | src/game_engine/render/Camera.java:115-119 | the triangle read from corner i, then (i+1) % 3, then (i+2) % 3, as both clip cases read it, has the triangle's own view-plane area |
| `Clip.PulledArea` | src/game_engine/render/Camera.java:136-145 | case 2's sub-triangle (the kept vertex and the two cut points on its edges) has the area of the corners it is read from scaled by both cut fractions, so the same winding |
| `Clip.VisibleParts` | src/game_engine/render/Camera.java:98-157 | a triangle facing away yields nothing; any other yields exactly the clip switch's sub-triangles, at most two, all sound |
| `Raster.BoundingBox` | src/game_engine/render/Camera.java:164-171 | every bound of the scanned box is clamped into [0, res - 1] |
| `Raster.BoxInsideBuffers` | src/game_engine/render/Camera.java:168-174 | every pixel the scan visits is inside the buffers, and the last column and row are never visited |
| `Raster.PositiveCombination` | src/game_engine/render/Camera.java:178 | non-negative shares adding to 1 of positive values have a positive sum |
| `Raster.InverseDepthPositive` | src/game_engine/render/Camera.java:178 | the interpolated inverse depth is positive |
| `Raster.PerspectiveDepth` | src/game_engine/render/Camera.java:178 | the perspective depth is positive and is the reciprocal of the interpolated inverse depth |
| `Raster.BoundedCombination` | src/game_engine/render/Camera.java:178 | shares adding to 1 of values in [lo, hi] give a value in [lo, hi] |
| `Raster.ReciprocalBounds` | src/game_engine/render/Camera.java:178 | bounds on a positive quantity give the reverse bounds on its reciprocal |
| `Raster.InverseDepthBounds` | src/game_engine/render/Camera.java:178 | the interpolated inverse depth lies between the reciprocals of the farthest and nearest depth |
| `Raster.SharesOf` | src/game_engine/render/Camera.java:178 | shares adding to 1 of one value give that value |
| `Raster.PerspectiveDepthBetween` | src/game_engine/render/Camera.java:178 | the perspective-correct depth lies between the nearest and the farthest vertex depth |
| `Raster.ScaledWeight` | src/game_engine/render/Camera.java:181-183 | a barycentric weight scaled by t >= 0 has shares in [0, t] adding to t |
| `Raster.CombineWeights` | src/game_engine/render/Camera.java:181-183 | a non-negative combination of barycentric weights has shares in [0, s] adding to s, the factors' sum |
| `Raster.NormalizeShares` | src/game_engine/render/Camera.java:181-183 | such a combination scaled by 1/s is barycentric |
| `Raster.PerspectiveWeightsBarycentric` | src/game_engine/render/Camera.java:181-183 | the perspective-correct weights handed to the shader are barycentric whenever the sub-triangle's weights are |
| `Raster.ShaderColor` | src/game_engine/render/Camera.java:185-198 | no shader gives magenta; in shader-status mode only white or red; otherwise the pixel is dropped exactly when the fragment is the discard sentinel |
| `Raster.OverdrawShade` | src/game_engine/render/Camera.java:200-208 | the overdraw count starts at 1 and counts up; above the limit the pixel is the overdraw colour, otherwise a grey of count/limit |
| `Raster.PixelDepth` | src/game_engine/render/Camera.java:177-178 | the perspective-correct depth of a pixel inside the triangle is positive |
| `Raster.PixelShade` | src/game_engine/render/Camera.java:180-197 | the shader step at an inside pixel; outside shader-status mode a colour it returns is never the discard sentinel, and nothing is returned only when a shader ran outside shader-status mode |
| `Raster.StoredRGB` | src/game_engine/render/Camera.java:48 | the image keeps 24 bits of the packed colour; a colour already in 0..0xFFFFFF is kept as it is |
| `Raster.PixelWrite` | src/game_engine/render/Camera.java:173-211 | a write happens exactly when the pixel is inside the triangle, it is nearer than the stored depth or overdraw mode is on, and the shader does not discard; outside overdraw mode it stores the perspective depth (positive, nearer than the stored one) and the 24-bit shader colour; in overdraw mode the next count and its grey |
| `Raster.StatusColors` | src/game_engine/render/Camera.java:30-31 | the shader-status colours pack to pure white and pure red, and the image stores them as such |
| `Render.CellAfter` | src/game_engine/render/Camera.java:173-211 | one call leaves a pixel outside its box, or one where no write happens, alone; a pixel in the box that is written holds the write's depth and colour; only pixels inside the triangle change, and outside overdraw mode only by lowering the depth, to a positive value |
| `Render.DiscardKeepsCell` | src/game_engine/render/Camera.java:193-196 | a discarded fragment (only possible outside shader-status mode) leaves the pixel's depth and colour as they were |
| `Render.Step` | src/game_engine/render/Camera.java:158-215 | one `drawTriangle` keeps the shape of the buffers |
| `Render.ApplyAll` | src/game_engine/render/Camera.java:69-72 | drawing a sequence of calls keeps the shape of the buffers |
| `Render.ApplyAllAt` | src/game_engine/render/Camera.java:173-211 | each cell of the buffers after a sequence of calls is that cell's own history: the calls applied to that pixel alone |
| `Render.ApplyAllAppend` | src/game_engine/render/Camera.java:69-72 | drawing a + b is drawing a and then b |
| `Render.ApplyOne` | src/game_engine/render/Camera.java:110-112 | drawing a single call is one `drawTriangle` |
| `Render.ApplyTwo` | src/game_engine/render/Camera.java:131-132 | drawing two calls is two `drawTriangle`s in order |
| `Render.Cleared` | src/game_engine/render/Camera.java:57-63 | the cleared buffers hold `Float.MAX_VALUE` depth and black colour in every cell |
| `Render.DepthNeverIncreases` | src/game_engine/render/Camera.java:179 | outside overdraw mode no sequence of calls raises a pixel's depth, and a changed depth is positive |
| `Render.OverdrawWriteIgnoresStored` | src/game_engine/render/Camera.java:179 | in overdraw mode whether a pixel is written does not depend on the stored value |
| `Render.CoverCount` | src/game_engine/render/Camera.java:200-208 | the number of calls that write a pixel is at most the number of calls |
| `Render.OverdrawCounts` | src/game_engine/render/Camera.java:200-208 | in overdraw mode a pixel starting at `Float.MAX_VALUE` ends holding the number of calls that wrote it, or `Float.MAX_VALUE` for none |
| `Render.PartCall` | src/game_engine/render/Camera.java:216-221 | the draw call of a visible part is valid, keeps the part's weights, the face normal, the UVs and the material, and keeps each vertex's view depth |
| `Render.SoundInFront` | src/game_engine/render/Camera.java:104-155 | a sound part has three vertexes in front of the near plane and three barycentric weights |
| `Render.PartCallsClipped` | src/game_engine/render/Camera.java:111-151 | the call of every part of a sound clip is valid and clipped |
| `Render.PartCalls` | src/game_engine/render/Camera.java:111-151 | one call per part, in order, each carrying that part's weights and the triangle's normal, UVs and material, all valid and clipped |
| `Render.PartCallClipped` | src/game_engine/render/Camera.java:131-151 | the call of a sound part has positive depths and barycentric weights |
| `Render.TriangleCalls` | src/game_engine/render/Camera.java:98-157 | `renderTriangle` makes no call for a triangle facing away; a facing one makes 1, 2, 1 or 0 calls for 0, 1, 2 or 3 clipped vertices, one per visible part with that part's weights and the triangle's normal, UVs and material, all valid and clipped |
| `Render.MaterialOf` | src/game_engine/render/Camera.java:94 | an object without material is drawn with the error material, which has the unlit shader and the 2x2 texture |
| `Render.ModelTriangleCalls` | src/game_engine/render/Camera.java:89-95 | each model triangle makes at most two valid, clipped calls |
| `Render.ModelCalls` | src/game_engine/render/Camera.java:89-95 | the first n triangles make at most 2n valid calls |
| `Render.AppendValid` | src/game_engine/render/Camera.java:69-72 | concatenated valid calls are valid |
| `Render.ObjectCalls` | src/game_engine/render/Camera.java:88-96 | an object makes at most two valid calls per triangle of its model |
| `Render.FrameCalls` | src/game_engine/render/Camera.java:69-72 | a frame's calls are all valid |
| `Render.FrameCallsStep` | src/game_engine/render/Camera.java:69-72 | the calls of the first i + 1 objects are those of the first i followed by object i's |
| `Render.GridDepthNeverIncreases` | src/game_engine/render/Camera.java:179 | outside overdraw mode drawing never raises any cell's depth, and a changed depth is positive |
| `Render.OverdrawFrame` | src/game_engine/render/Camera.java:57-63 | in overdraw mode each cell of a frame drawn from the cleared buffers holds the number of calls that wrote it |
| `Render.Camera.SettingsFor` | src/game_engine/render/Camera.java:25-33 | the per-pixel settings are the camera's resolution and debug flags |
| `Render.Camera.Cells` | src/game_engine/render/Camera.java:38-39 | the buffers read as a grid of resX columns by resY rows of (depth, colour) cells |
| `Render.Camera.constructor` | src/game_engine/render/Camera.java:41-51 | stores the field of view, resolutions and screen size, and allocates zero-filled buffers of resX by resY |
| `Render.Camera.ResetBuffers` | src/game_engine/render/Camera.java:57-63 | after the reset the buffers are the cleared grid |
| `Render.Camera.SameGrid` | src/game_engine/render/Camera.java:38-39 | two grids of the same shape and cells are equal |
| `Render.Camera.DrawTriangle` | src/game_engine/render/Camera.java:158-215 | the buffers become one `Step` of the old buffers |
| `Render.Camera.ScanBox` | src/game_engine/render/Camera.java:173-214 | after the scan every pixel holds `CellAfter` of its old value |
| `Render.Camera.ScanRow` | src/game_engine/render/Camera.java:174-213 | after scanning row y every pixel of that row holds `CellAfter` of its old value and every other row is unchanged |
| `Render.Camera.DrawPixel` | src/game_engine/render/Camera.java:175-211 | the visited pixel holds `CellAfter` of its old value and every other pixel is unchanged |
| `Render.Camera.RenderTriangle` | src/game_engine/render/Camera.java:98-157 | the buffers become the old ones with the triangle's calls drawn |
| `Render.Camera.RenderObject` | src/game_engine/render/Camera.java:88-96 | the buffers become the old ones with the object's calls drawn |
| `Render.Camera.RenderModel` | src/game_engine/render/Camera.java:89-95 | the buffers become the old ones with the calls of every model triangle drawn, in order |
| `Render.Camera.RenderModelTriangle` | src/game_engine/render/Camera.java:90-94 | drawing triangle t extends the drawn calls from the first t triangles to the first t + 1 |
| `Render.Camera.RenderFrame` | src/game_engine/render/Camera.java:57-72 | after a frame the buffers are the cleared grid with every object's calls drawn, in order |
| `Render.Camera.RenderFrameObject` | src/game_engine/render/Camera.java:69-72 | drawing object i extends the drawn calls from the first i objects to the first i + 1 |
| `Collision.RegionOf` | src/game_engine/physics/collision.java:118-169 | the face case is taken exactly when the projection's coordinates are non-negative and add up to at most 1 |
| `Collision.FallbackUnreachable` | src/game_engine/physics/collision.java:165-169 | the clamping chain is exhaustive: its last fallback branch is never taken |
| `Collision.ProductSameSign` | src/game_engine/physics/collision.java:105 | two factors of the same sign have a positive product |
| `Collision.SquareSign` | src/game_engine/physics/collision.java:98-101 | a square is never negative, and positive for a non-zero number |
| `Collision.DotSelf` | src/game_engine/physics/collision.java:98-101 | a squared length is the sum of the squares of the components |
| `Collision.DotSign` | src/game_engine/physics/collision.java:157 | a squared length is never negative, and positive for a non-zero vector |
| `Collision.EdgeV1V2NonZero` | src/game_engine/physics/collision.java:156-158 | a triangle that passes the degeneracy test has V1 != V2, so the V1-V2 edge division never divides by 0 |
| `Collision.ClosestPoint` | src/game_engine/physics/collision.java:88-182 | no result exactly when |D| < 1e-6; otherwise the clamped coordinates and the squared distance to the point they give |
| `Collision.Nearest` | src/game_engine/physics/collision.java:110-181 | the coordinates returned are barycentric (u, v in [0,1], u + v <= 1) and the distance is the squared distance to that point |
| `Collision.DistSq` | src/game_engine/physics/collision.java:177-178 | a squared distance is never negative and is zero exactly when the points coincide |
| `Collision.Clamp` | src/game_engine/physics/collision.java:115-170 | every branch of the clamping chain gives barycentric coordinates |
| `Collision.EdgeParameter` | src/game_engine/physics/collision.java:156-158 | the edge parameter is clamped into [0,1] |
| `Collision.ClosestByRegion` | src/game_engine/physics/collision.java:118-169 | each region returns its feature: the projection on the face, a vertex at a corner, the projection's own coordinate along V0-V1 or V0-V2, and (1 - t, t) along V1-V2 |
| `Collision.InsideUnchanged` | src/game_engine/physics/collision.java:118-121 | a projection inside the triangle is returned unchanged |
| `Collision.MinDist` | src/game_engine/physics/collision.java:37-68 | the running minimum never exceeds `Double.MAX_VALUE` |
| `Collision.Best` | src/game_engine/physics/collision.java:37-68 | the chosen triangle beat the minimum of those before it and its distance is the final minimum; with none chosen the minimum stays `Double.MAX_VALUE` |
| `Collision.MinDistBelow` | src/game_engine/physics/collision.java:59-61 | the running minimum is no larger than any non-degenerate triangle already seen |
| `Collision.BestIsFirstNearest` | src/game_engine/physics/collision.java:41-68 | the chosen triangle is a nearest one and the first of them: every other is at least as far and every earlier one strictly farther |
| `Collision.EarlierFarther` | src/game_engine/physics/collision.java:59 | a triangle that beats the minimum of those before it is strictly nearer than each of them |
| `Collision.BestNoneIff` | src/game_engine/physics/collision.java:37-68 | no triangle is chosen exactly when every one is degenerate or at least `Double.MAX_VALUE` away |
| `Collision.OverrideUV` | src/game_engine/physics/collision.java:46-66 | with the fixed test UVs the interpolated UV is exactly (u, v) |
| `Collision.UVCollision` | src/game_engine/physics/collision.java:26-77 | the object "none" gives no UV, and any UV returned has non-negative coordinates adding up to at most 1 |
| `Collision.UVCollisionLoop` | src/game_engine/physics/collision.java:33-76 | the loop returns exactly the UV of the first nearest triangle, or none |
| `Rigid.Elements` | src/game_engine/physics/RigidTransform3D.java:194-215 | a `double[][]` read as a matrix value of its own shape, entry by entry |
| `Rigid.MatrixEq` | src/game_engine/physics/RigidTransform3D.java:194-215 | two matrices of the same shape and entries are equal |
| `Rigid.Mul` | src/game_engine/physics/RigidTransform3D.java:204-213 | the product of a rows×inner and an inner×cols matrix is rows×cols |
| `Rigid.Transposed` | src/game_engine/physics/RigidTransform3D.java:217-227 | the transpose of a rows×cols matrix is cols×rows |
| `Rigid.IdentityMatrix` | src/game_engine/physics/RigidTransform3D.java:251-257 | identity(n) is n×n |
| `Rigid.MatVec` | src/game_engine/physics/RigidTransform3D.java:229-238 | the product of a 3×3 matrix and a 3-vector is a 3-vector |
| `Rigid.Homogeneous` | src/game_engine/physics/RigidTransform3D.java:240-249 | the homogeneous matrix is 4×4 |
| `Rigid.Centroid` | src/game_engine/physics/RigidTransform3D.java:169-181 | each centroid coordinate times N is that column's sum |
| `Rigid.Centered` | src/game_engine/physics/RigidTransform3D.java:183-192 | the centered points keep the n×3 shape |
| `Rigid.PointRows` | src/game_engine/physics/RigidTransform3D.java:26-38 | the converted points form an N×3 matrix |
| `Rigid.HomogeneousPoints` | src/game_engine/physics/RigidTransform3D.java:142-149 | the homogeneous points form a 4×N matrix |
| `Rigid.Transformed` | src/game_engine/physics/RigidTransform3D.java:151-164 | applying a transform keeps the number of points |
| `Rigid.TransposeTwice` | src/game_engine/physics/RigidTransform3D.java:217-227 | transposing twice gives the matrix back |
| `Rigid.RowColIdentityLeft` | src/game_engine/physics/RigidTransform3D.java:208-210 | a partial row-column sum with identity on the left picks out one entry |
| `Rigid.RowColIdentityRight` | src/game_engine/physics/RigidTransform3D.java:208-210 | a partial row-column sum with identity on the right picks out one entry |
| `Rigid.IdentityLeft` | src/game_engine/physics/RigidTransform3D.java:194-215 | identity times M is M |
| `Rigid.IdentityRight` | src/game_engine/physics/RigidTransform3D.java:194-215 | M times identity is M |
| `Rigid.TransposeIdentity` | src/game_engine/physics/RigidTransform3D.java:217-227 | the identity is its own transpose |
| `Rigid.Det3Identity` | src/game_engine/physics/RigidTransform3D.java:260-267 | the determinant of the identity is 1 |
| `Rigid.Det3Transpose` | src/game_engine/physics/RigidTransform3D.java:260-267 | a 3×3 determinant is unchanged by transposing |
| `Rigid.Det3Reflection` | src/game_engine/physics/RigidTransform3D.java:260-267 | the reflection diag(1, 1, -1) has determinant -1 |
| `Rigid.MatVecIdentity` | src/game_engine/physics/RigidTransform3D.java:229-238 | the identity maps each 3-vector to itself |
| `Rigid.HomogeneousOfIdentity` | src/game_engine/physics/RigidTransform3D.java:240-257 | the homogeneous matrix of no rotation and no translation is identity(4) |
| `Rigid.CenteredColumnSum` | src/game_engine/physics/RigidTransform3D.java:183-192 | each column sum of the centered points is the original sum less k times the centroid coordinate |
| `Rigid.CenteredSumsZero` | src/game_engine/physics/RigidTransform3D.java:169-192 | the points less their centroid have zero column sums |
| `Rigid.RowColFour` | src/game_engine/physics/RigidTransform3D.java:208-210 | a row-column sum over 4 terms written out |
| `Rigid.RowColStep` | src/game_engine/physics/RigidTransform3D.java:208-210 | the row-column sum grows by one product per step of k |
| `Rigid.TransformedPoint` | src/game_engine/physics/RigidTransform3D.java:135-165 | `apply_transform` maps each point p to rows 0-2 of T·(p, 1) |
| `Rigid.ApplyIdentity` | src/game_engine/physics/RigidTransform3D.java:135-165 | applying identity(4) leaves the points unchanged |
| `Rigid.ApplyHomogeneous` | src/game_engine/physics/RigidTransform3D.java:240-249 | the matrix built from R and t maps each point p to R·p + t |
| `Rigid.MatrixMultiply` | src/game_engine/physics/RigidTransform3D.java:194-215 | fails exactly when a matrix has no rows or colsA differs from rowsB; otherwise a fresh array holding the product |
| `Rigid.FillRow` | src/game_engine/physics/RigidTransform3D.java:205-213 | after row i every entry of that row holds the product entry and the other rows are unchanged |
| `Rigid.Entry` | src/game_engine/physics/RigidTransform3D.java:207-211 | the inner loop's sum is the product entry (i, j) |
| `Rigid.Transpose` | src/game_engine/physics/RigidTransform3D.java:217-227 | fails exactly when A has no rows; otherwise a fresh array holding the transpose |
| `Rigid.Identity` | src/game_engine/physics/RigidTransform3D.java:251-257 | a fresh n×n array holding the identity |
| `Rigid.VecMultiply` | src/game_engine/physics/RigidTransform3D.java:229-238 | fails exactly when R is not 3×3 or C not of length 3; otherwise a fresh array holding R·C |
| `Rigid.Determinant3x3` | src/game_engine/physics/RigidTransform3D.java:260-267 | fails exactly when M is not 3×3; otherwise the determinant by cofactors of the first row |
| `Rigid.BuildHomogeneousMatrix` | src/game_engine/physics/RigidTransform3D.java:240-249 | fails exactly when R or t is too small; otherwise a fresh 4×4 array with R in the upper left, t in the last column and identity elsewhere |
| `Rigid.GetCentroid` | src/game_engine/physics/RigidTransform3D.java:169-181 | no result exactly when there are no points (the 0/0 division); otherwise a fresh array holding the centroid |
| `Rigid.SumColumns` | src/game_engine/physics/RigidTransform3D.java:171-176 | a fresh array holding the three column sums |
| `Rigid.AddPoint` | src/game_engine/physics/RigidTransform3D.java:173-175 | each sum grows by the matching coordinate of point i |
| `Rigid.SubtractCentroid` | src/game_engine/physics/RigidTransform3D.java:183-192 | a fresh array holding each point less the centroid |
| `Rigid.ConvertToDoubleArray` | src/game_engine/physics/RigidTransform3D.java:26-38 | a fresh N×3 array holding the points' coordinates, one row per point |
| `Rigid.RigidTransform3D` | src/game_engine/physics/RigidTransform3D.java:65-70 | fails exactly when the point counts differ; with no points gives identity(4) |
| `Rigid.ApplyTransform` | src/game_engine/physics/RigidTransform3D.java:135-165 | fails exactly when there are no points or T is not 4×4; otherwise each point transformed by T |
| `Rigid.ReadBack` | src/game_engine/physics/RigidTransform3D.java:155-164 | column i of the 4×N product, rows 0-2, becomes point i |
| `Rigid.Homogenize` | src/game_engine/physics/RigidTransform3D.java:142-149 | a fresh 4×N array whose column i is (x, y, z, 1) of point i |
| `Rigid.WriteColumn` | src/game_engine/physics/RigidTransform3D.java:145-148 | column i becomes (x, y, z, 1) and every other column is unchanged |
| `PMove.AccelSpeed` | src/game_engine/physics/pmove.java:42-45 | the added speed is accel·frametime·wishspeed cut down to what is missing, so never more than what is missing |
| `PMove.AcceleratedChange` | src/game_engine/physics/pmove.java:37-49 | the velocity is unchanged when nothing is missing, and otherwise moves by accelspeed·wishdir only |
| `PMove.ProjectedSpeedCapped` | src/game_engine/physics/pmove.java:35-53 | for a unit wishdir the speed along it never ends above wishspeed unless it started there, and a non-negative push never lowers it |
| `PMove.PlayerMove.constructor` | src/game_engine/physics/pmove.java:34 | the velocity starts as a fresh zero vector |
| `PMove.PlayerMove.Accelerate` | src/game_engine/physics/pmove.java:35-53 | the velocity object becomes the accelerated velocity |
| `Player.Jumped` | src/game_engine/physics/player_phys.java:20-24 | on the ground the vertical velocity grows by jump_strength·dt and nothing else changes; in the air nothing changes |
| `Player.FrictionRatio` | src/game_engine/physics/player_phys.java:58-64 | for non-negative coefficient and dt the friction ratio lies in [0,1] |
| `Player.RatioBound` | src/game_engine/physics/player_phys.java:61-64 | max(speed - drop, 0) / speed lies in [0,1] for a non-negative drop |
| `Player.RatioInUnit` | src/game_engine/physics/player_phys.java:64 | a quotient of 0 <= a <= b with b > 0 lies in [0,1] |
| `Player.ScaleHorizontal` | src/game_engine/physics/player_phys.java:65-66 | the vertical velocity is kept, and a ratio in [0,1] shrinks x and z toward 0 without reversing them |
| `Player.FrictionNeverReverses` | src/game_engine/physics/player_phys.java:52-83 | for dt >= 0 ground and air friction keep y and only shrink x and z toward 0 |
| `Player.ShrinkTowardZero` | src/game_engine/physics/player_phys.java:65-66 | a number times a ratio in [0,1] lies between 0 and the number |
| `Player.CappedAccel` | src/game_engine/physics/player_phys.java:89-94 | for dt >= 0 the added speed lies in [0, accelerate·dt] and never takes the projected speed above max(max_velocity, its old value) |
| `Player.Gravity` | src/game_engine/physics/player_phys.java:101 | gravity lowers the vertical velocity by 9·dt and keeps x and z |
| `Player.GroundClamp` | src/game_engine/physics/player_phys.java:106-114 | the feet end at or above the ground; above it nothing changes; below it the camera snaps to ground + height/2 and a downward velocity becomes 0 |
| `Player.Moved` | src/game_engine/physics/player_phys.java:103-114 | after moving and clamping the feet are at or above the ground, x and z move by the velocity times dt, and a still-falling velocity means no clamp happened |
| `Player.AccelerationCapped` | src/game_engine/physics/player_phys.java:87-97 | for a unit direction and dt >= 0 the speed along it does not drop and does not pass max(max_velocity, its old value) |
| `Player.PhysicsStep` | src/game_engine/physics/player_phys.java:27-116 | after a physics step the feet are at or above the ground and accel_dir is normalized |
| `Player.PlayerPhysics.constructor` | src/game_engine/physics/player_phys.java:6-8 | position, velocity and acceleration direction start at zero |
| `Player.PlayerPhysics.Jump` | src/game_engine/physics/player_phys.java:20-24 | the state becomes the jumped state |
| `Player.PlayerPhysics.UpdatePhysics` | src/game_engine/physics/player_phys.java:27-116 | the state becomes one physics step of the old state, with the feet at or above the ground |
| `Player.PlayerPhysics.ApplyFriction` | src/game_engine/physics/player_phys.java:52-83 | only the velocity changes, to its friction value |
| `Player.PlayerPhysics.ApplyAcceleration` | src/game_engine/physics/player_phys.java:85-97 | accel_dir is normalized in place and the velocity pushed along it; the position is kept |
| `Player.PlayerPhysics.ApplyMovement` | src/game_engine/physics/player_phys.java:103-114 | position and velocity become the moved and clamped pair; accel_dir is kept |
| `InputState.EdgesExclusive` | src/game_engine/script/Input.java:27-32 | a key is never down and up at once; down means held, up means not held |
| `InputState.EdgesAfterSnapshot` | src/game_engine/script/Input.java:27-56 | after a snapshot, pressing a key makes exactly that key down unless it was held, and releasing one makes exactly that key up if it was held |
| `InputState.Axes` | src/game_engine/script/Input.java:34-42 | side is +1 for A alone, -1 for D alone, 0 for both or neither; forward likewise for W and S |
| `InputState.OtherKeysIgnored` | src/game_engine/script/Input.java:34-42 | keys other than W, A, S and D do not change the movement axes |
| `InputState.MovementDirection` | src/game_engine/script/Input.java:34-42 | the movement input is zero exactly when each pair of opposite keys cancels, and otherwise has unit length along the raw axes |
| `InputState.AxisSquare` | src/game_engine/script/Input.java:34-42 | an axis value squares to 0 or 1 |
| `InputState.Input.constructor` | src/game_engine/script/Input.java:10-22 | no key held, no snapshot, and a fresh zero mouse delta |
| `InputState.Input.GetMouseDelta` | src/game_engine/script/Input.java:12-14 | returns the mouse delta object itself |
| `InputState.Input.MoveMouse` | src/game_engine/script/Input.java:16-18 | the mouse delta grows by (dx, dy) in place |
| `InputState.Input.PressKey` | src/game_engine/script/Input.java:44-46 | the key joins the held keys; the snapshot and mouse delta are kept |
| `InputState.Input.ReleaseKey` | src/game_engine/script/Input.java:47-49 | the key leaves the held keys; the snapshot and mouse delta are kept |
| `InputState.Input.UpdateInput` | src/game_engine/script/Input.java:52-56 | the snapshot becomes the held keys, after which no key is down or up, and a fresh zero mouse delta replaces the old one |
| `Scripting.Ticked` | src/game_engine/script/Script.java:12-23 | the first reading only records the time; a later one gives a positive delta of the elapsed nanoseconds over 1e9, time grows by it, fps is its reciprocal and the running minimum and maximum bracket fps and only widen |
| `Scripting.Reset` | src/game_engine/script/Script.java:24-27 | only the minimum and maximum change, to `Float.MAX_VALUE` and `Float.MIN_VALUE` |
| `Scripting.FirstFrameAfterReset` | src/game_engine/script/Script.java:12-27 | the first measured frame after a reset sets both minimum and maximum to its fps, which is at most 1e9 |
| `Scripting.FrameClock.constructor` | src/game_engine/script/Script.java:6-11 | no frame yet, zeros, and the minimum and maximum sentinels |
| `Scripting.FrameClock.UpdateDeltaTime` | src/game_engine/script/Script.java:12-23 | the clock becomes the ticked state of the old one |
| `Scripting.FrameClock.ResetStats` | src/game_engine/script/Script.java:24-27 | the clock becomes the reset state of the old one |

## Left out

- Swing and AWT presentation: the drawing half of `paintComponent` (scaled image, `drawString` overlays), `RenderWindow`, its listeners and `Robot`. These are user interface and I/O.
- The render thread of `Camera.startRendering`, which exists only to repeat frames concurrently.
- Inside `paintComponent`, the calls to `Script.updateDeltaTime`, `Scene.updateCamera`, each object's `updateScript` and `Input.updateInput` are not part of `Render.Camera.RenderFrame`. Each is modelled on its own class (`Scripting.FrameClock`, `Scenes.Scene`, `InputState.Input`), and the scripts' own effects are not part of this model.
- `Render.Camera.ResetBuffers`: writes the cleared values into the existing arrays, where the source allocates a new depth array each frame. The observable contents are the same.
- The order of `Scene.getObjects` follows `HashMap` iteration, which Java leaves unspecified. `Render.Camera.RenderFrame` takes the objects as a sequence in whatever order is given. `Scenes.Scene.GetObjectAt` promises only some stored object.
- Texture sampling reads AWT image pixels. It is a caller-supplied function from a texture and a UV to a colour, and a texture is only its size. `UnlitShader` forwards to it.
- `Maths.getBasisVectors` uses sine and cosine. Its body is modelled with sine and cosine supplied as functions (`Maths.Trig`), while `Transform` and `GameObject` hold a supplied basis function.
- `LitShader` and `Raycasted_shader` are not part of this model, because they call members that do not exist (`calculateLightIntensity`, `mat.renderData`). The same holds for `light_script`, `raycast` and `raycast_result`.
- `basic_collision` is not part of this model: it always returns true and prints. `updatePhysics` calls it and ignores the result, and `Player.PhysicsStep` leaves the call out.
- `collision_object`, which finds the object `uv_collision` works on, is not part of this model. `Collision.UVCollision` takes that object's name and model as parameters. The `println` of the result is left out.
- Floating-point rounding, overflow to infinity and NaN are not modelled. This includes the `(float)` casts inside `uv_collision` and `apply_transform`.
- `Maths.VertexToScreen`: requires a non-zero depth, where Java's division by zero gives infinity or NaN. The rasterizer only projects vertices at or beyond the near plane (`Render.PartCall`).
- `Raster.PixelWrite`: stated only for draw calls with three vertices in front of the camera and barycentric weights. `Render.TriangleCalls` proves that these are the only calls `renderTriangle` makes.
- `Scripting.FrameClock.UpdateDeltaTime`: requires a reading strictly later than the previous one. An equal reading makes Java's `1f / deltaTime` infinite. The overflow of a `long` difference and a `System.nanoTime` reading of exactly -1 are not modelled.
- `Player.AccelerationCapped`: stated only for a unit direction. Because `Float3.normalize` multiplies by the length, `accel_dir` has unit length only when its length is already 0 or 1.
- `Player.PhysicsStep`: `EnablePhysics` is a local constant `true`, so only the enabled branch is modelled.
- `Player.PlayerPhysics` and `PMove.PlayerMove`: the source mutates the shared `Float3` objects `PlayerVel` and `velocity` in place. The player model reassigns value fields, so aliasing of those objects by other code is not captured. `PMove.PlayerMove` keeps the velocity as a `Float3Cell` object.
- `pmove.NudgePosition` and `pmove.PlayerMove` are not part of this model. They do not compile (a `(void)` parameter list and undefined helpers).
- `Rigid.RigidTransform3D`: only the input checks are modelled. A non-empty input gives no matrix, because the Jacobi eigenvalue iteration, the SVD built on it and the reflection fix are trigonometric and iterative. `eigen_3x3`, `main` and `convertToFloat3Array` (a cast back to float) are not part of this model.
- `Rigid.GetCentroid`: with no points it returns no result, where Java divides 0 by 0 and gives NaN.
- Arrays of arrays (`double[][]`) are `array2<real>`, so ragged arrays cannot occur.
- `Scenes.Scene`: `setSunAngle` and the sun direction are modelled, but the scripts that call them are not.
