/**
 * game_engine.material.shader: the discard sentinel, the lighting helper,
 * the per-fragment input record FragmentData, and the shaders whose
 * `fragment` takes (tex, texUV, worldNormal, depth, weights, screenUV).
 */
module Shaders {
  import opened Num
  import opened Vec
  import opened Wrappers
  import opened Materials

  /** `Shader.discard`: a colour whose red channel is negative tells the rasterizer to drop the fragment. */
  const DISCARD: Float3 := Float3(-1.0, 0.0, 0.0)

  /** The rasterizer's discard test on a shader result: red below zero. */
  predicate IsDiscard(c: Float3) { c.x < 0.0 }

  lemma DiscardIsDiscarded()
    ensures IsDiscard(DISCARD)
  {}

  /** `getLightingIntensity`: the half-Lambert term `(n . sun + 1) / 2`, lifted so that `envLight` is the floor. */
  function LightingIntensity(normal: Float3, dirToSun: Float3, envLight: real): (r: real)
    ensures var d := normal.Dot(dirToSun);
      && (-1.0 <= d <= 1.0 && 0.0 <= envLight <= 1.0 ==> envLight <= r <= 1.0)
      && (d == 1.0 ==> r == 1.0)
      && (d == -1.0 ==> r == envLight)
      && (envLight == 1.0 ==> r == 1.0)
  {
    var intensity := (normal.Dot(dirToSun) + 1.0) * 0.5;
    if 0.0 <= intensity <= 1.0 && 0.0 <= envLight <= 1.0 then
      MulNonNeg(intensity, 1.0 - envLight);
      MulNonNeg(1.0 - intensity, 1.0 - envLight);
      intensity * (1.0 - envLight) + envLight
    else
      intensity * (1.0 - envLight) + envLight
  }

  const WIRE_COLOR: Float3 := Float3(0.8, 0.8, 0.8)
  const BACKGROUND_COLOR: Float3 := Float3(0.15, 0.15, 0.15)

  function Min3(w: Float3): real { MinR(MinR(w.x, w.y), w.z) }

  /** The smallest weight does not depend on the order of the weights. */
  lemma Min3Symmetric(w: Float3)
    ensures Min3(Float3(w.y, w.x, w.z)) == Min3(w)
    ensures Min3(Float3(w.y, w.z, w.x)) == Min3(w)
  {}

  /** The wireframe rule shared by both wireframe shaders: wire colour near an edge, where some weight is small. */
  function WireOrBackground(weights: Float3, threshold: real): (r: Float3)
    ensures r == WIRE_COLOR <==> Min3(weights) < threshold
    ensures r == WIRE_COLOR || r == BACKGROUND_COLOR
    ensures !IsDiscard(r)
  {
    if Min3(weights) < threshold then WIRE_COLOR else BACKGROUND_COLOR
  }

  /** shader/WireframeShader: the wire colour when the smallest weight is below 0.04. */
  function WireframeFragment(weights: Float3): (r: Float3)
    ensures r == WIRE_COLOR <==> Min3(weights) < 0.04
    ensures r == WIRE_COLOR || r == BACKGROUND_COLOR
    ensures !IsDiscard(r)
  {
    WireOrBackground(weights, 0.04)
  }

  /** Permuting the weights does not change the wireframe colour. */
  lemma WireframeSymmetric(w: Float3)
    ensures WireframeFragment(Float3(w.y, w.x, w.z)) == WireframeFragment(w)
    ensures WireframeFragment(Float3(w.y, w.z, w.x)) == WireframeFragment(w)
  {
    Min3Symmetric(w);
  }

  const FAR_DEPTH_COLOR: Float3 := Float3(0.75, 1.0, 1.0)

  /** shader/DepthShader: grey level depth / 50, and a fixed pale colour beyond depth 50. */
  function DepthFragment(depth: real): (r: Float3)
    ensures depth > 50.0 ==> r == FAR_DEPTH_COLOR
    ensures depth <= 50.0 ==> r.x == r.y == r.z && r.x * 50.0 == depth
    ensures 0.0 <= depth <= 50.0 ==> 0.0 <= r.x <= 1.0
    ensures depth >= 0.0 ==> !IsDiscard(r)
  {
    var d := depth / 50.0;
    if d > 1.0 then FAR_DEPTH_COLOR else Float3(d, d, d)
  }

  /** Below the cap a nearer fragment is never brighter than a farther one. */
  lemma DepthMonotone(d1: real, d2: real)
    requires d1 <= d2 <= 50.0
    ensures DepthFragment(d1).x <= DepthFragment(d2).x
  {}

  /** shader/NormalsShader: each normal component mapped from [-1,1] to [0,1]. */
  function NormalsFragment(normal: Float3): (r: Float3)
    ensures r.x * 2.0 == normal.x + 1.0 && r.y * 2.0 == normal.y + 1.0 && r.z * 2.0 == normal.z + 1.0
    ensures -1.0 <= normal.x <= 1.0 && -1.0 <= normal.y <= 1.0 && -1.0 <= normal.z <= 1.0 ==>
      0.0 <= r.x <= 1.0 && 0.0 <= r.y <= 1.0 && 0.0 <= r.z <= 1.0
    ensures normal == Zero() ==> r == Float3(0.5, 0.5, 0.5)
    ensures normal.x >= -1.0 ==> !IsDiscard(r)
  {
    normal.Add(Float3(1.0, 1.0, 1.0)).Scale(0.5)
  }

  /**
   * The ring test of both debug shaders, `l < .35 || l > .65` on the length l of
   * the first two weights, compared through squares: 0.35^2 = 0.1225 and 0.65^2 = 0.4225.
   */
  predicate OutsideRing(weights: Float3)
  {
    var sq := weights.To2D().LengthSq();
    sq < 0.1225 || sq > 0.4225
  }

  /** For the length l itself (a square root supplied by the caller) the squared test is the source's test. */
  lemma OutsideRingByLength(weights: Float3, l: real)
    requires IsSqrt(l, weights.To2D().LengthSq())
    ensures OutsideRing(weights) <==> l < 0.35 || l > 0.65
  {
    SquareOrder(l, 0.35);
    SquareOrder(l, 0.65);
  }

  /** `Math.min(1f, 4f / depth)`; a zero depth divides to +Infinity in Java, so the minimum is 1. */
  function NearScale(depth: real): (k: real)
    ensures k <= 1.0
    ensures 0.0 < depth <= 4.0 ==> k == 1.0
    ensures depth > 0.0 ==> k > 0.0
  {
    if depth == 0.0 then 1.0 else MinR(1.0, 4.0 / depth)
  }

  /** shader/DebugShader: discard outside the ring, otherwise (su, sv, 1) scaled down for far fragments. */
  function DebugFragment(weights: Float3, depth: real, screenUV: Float2): (r: Float3)
    ensures OutsideRing(weights) ==> r == DISCARD
    ensures !OutsideRing(weights) ==> r == screenUV.To3DAt(1.0).Scale(NearScale(depth))
    ensures !OutsideRing(weights) && 0.0 < depth <= 4.0 ==> r == Float3(screenUV.x, screenUV.y, 1.0)
    ensures screenUV.x >= 0.0 && depth > 0.0 ==> (IsDiscard(r) <==> OutsideRing(weights))
  {
    if OutsideRing(weights) then DISCARD
    else
      var k := NearScale(depth);
      MulNonNeg(MaxR(screenUV.x, 0.0), MaxR(k, 0.0));
      screenUV.To3DAt(1.0).Scale(k)
  }

  /** The third weight plays no part in the debug shader. */
  lemma DebugIgnoresThirdWeight(weights: Float3, z: real, depth: real, screenUV: Float2)
    ensures DebugFragment(Float3(weights.x, weights.y, z), depth, screenUV) == DebugFragment(weights, depth, screenUV)
  {}

  /** The colour a shader returns; UnlitShader forwards to the texture's sampler, supplied by the caller. */
  function Fragment(shader: Shader, sample: (Texture, Float2) -> Float3, tex: Texture, texUV: Float2, worldNormal: Float3, depth: real, weights: Float3, screenUV: Float2): Float3
  {
    match shader
    case Unlit => sample(tex, texUV)
    case Wireframe => WireframeFragment(weights)
    case Depth => DepthFragment(depth)
    case Normals => NormalsFragment(worldNormal)
    case Debug => DebugFragment(weights, depth, screenUV)
  }

  /** Barycentric interpolation of three UVs: `uv0 w.x + uv1 w.y + uv2 w.z`. */
  function InterpolateUV(uvs: seq<Float2>, w: Float3): Float2
    requires |uvs| >= 3
  {
    uvs[0].Scale(w.x).Add(uvs[1].Scale(w.y)).Add(uvs[2].Scale(w.z))
  }

  /** At a corner's standard weights the interpolation is that corner's UV. */
  lemma InterpolateUVCorners(uvs: seq<Float2>)
    requires |uvs| >= 3
    ensures InterpolateUV(uvs, Float3(1.0, 0.0, 0.0)) == uvs[0]
    ensures InterpolateUV(uvs, Float3(0.0, 1.0, 0.0)) == uvs[1]
    ensures InterpolateUV(uvs, Float3(0.0, 0.0, 1.0)) == uvs[2]
  {
    Scale2Units(uvs[0]);
    Scale2Units(uvs[1]);
    Scale2Units(uvs[2]);
    Scale2Units(Float2(0.0, 0.0));
  }

  /** Weights that sum to one reproduce a UV shared by all three corners. */
  lemma InterpolateUVAffine(u: Float2, w: Float3)
    requires w.x + w.y + w.z == 1.0
    ensures InterpolateUV([u, u, u], w) == u
  {
    assert u.x * w.x + u.x * w.y + u.x * w.z == u.x * (w.x + w.y + w.z);
    assert u.y * w.x + u.y * w.y + u.y * w.z == u.y * (w.x + w.y + w.z);
  }

  /** The texture a fragment samples: the material's own, else the error material's. */
  function TextureOf(mat: Material): (t: Texture)
    ensures mat.tex.Some? ==> t == mat.tex.value
    ensures mat.tex.None? ==> Some(t) == ErrorMat().tex
  {
    if mat.tex.Some? then mat.tex.value else Texture(2, 2)
  }

  /** FragmentData: everything a fragment shader may read. `triUVs` slots are None for Java nulls. */
  datatype FragmentData = FragmentData(
    screenUV: Float2, weights: Float3, mat: Material, triUVs: seq<Option<Float2>>,
    texUV: Float2, tex: Option<Texture>, worldNormal: Float3, depth: real)

  /** `new FragmentData()`: zero vectors, a default material, three empty UV slots, the error texture and the far depth. */
  function DefaultFragmentData(): (f: FragmentData)
    ensures f.depth == FLOAT_MAX && f.tex == ErrorMat().tex && f.triUVs == [None, None, None]
    ensures f.screenUV == Float2(0.0, 0.0) && f.texUV == Float2(0.0, 0.0)
    ensures f.weights == Zero() && f.worldNormal == Zero() && f.mat == DefaultMaterial()
  {
    FragmentData(Float2(0.0, 0.0), Zero(), DefaultMaterial(), [None, None, None], Float2(0.0, 0.0), ErrorMat().tex, Zero(), FLOAT_MAX)
  }

  function SomeEach(uvs: seq<Float2>): (r: seq<Option<Float2>>)
    ensures |r| == |uvs| && forall n :: 0 <= n < |uvs| ==> r[n] == Some(uvs[n])
  {
    if uvs == [] then [] else [Some(uvs[0])] + SomeEach(uvs[1..])
  }

  /**
   * `new FragmentData(screenUV, weights, mat, UVs, worldNormal, depth)`: the UV
   * under the fragment is the weighted UVs converted by the material, and the
   * texture falls back to the error material's.
   */
  function MakeFragmentData(screenUV: Float2, weights: Float3, mat: Material, uvs: seq<Float2>, worldNormal: Float3, depth: real): (f: FragmentData)
    requires |uvs| >= 3
    ensures f.texUV == mat.ConvertUV(InterpolateUV(uvs, weights))
    ensures f.tex == Some(TextureOf(mat))
    ensures f.screenUV == screenUV && f.weights == weights && f.mat == mat && f.worldNormal == worldNormal && f.depth == depth
    ensures |f.triUVs| == |uvs| && forall n :: 0 <= n < |uvs| ==> f.triUVs[n] == Some(uvs[n])
  {
    FragmentData(screenUV, weights, mat, SomeEach(uvs), mat.ConvertUV(InterpolateUV(uvs, weights)), Some(TextureOf(mat)), worldNormal, depth)
  }

  /** At a corner (a standard weight vector) the fragment's UV is that corner's UV, converted. */
  lemma CornerTexUV(screenUV: Float2, mat: Material, uvs: seq<Float2>, worldNormal: Float3, depth: real, n: nat)
    requires |uvs| >= 3 && n < 3
    ensures var w := if n == 0 then Float3(1.0, 0.0, 0.0) else if n == 1 then Float3(0.0, 1.0, 0.0) else Float3(0.0, 0.0, 1.0);
      MakeFragmentData(screenUV, w, mat, uvs, worldNormal, depth).texUV == mat.ConvertUV(uvs[n])
  {
    InterpolateUVCorners(uvs);
  }
}
