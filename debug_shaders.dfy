/**
 * game_engine.material.shader.debug: the same shading rules written against
 * `fragment(FragmentData f)`, each reading only the fields of f it needs.
 */
module DebugShaders {
  import opened Vec
  import opened Shaders

  /** debug/WireframeShader: the wire colour when the smallest weight is below 0.025. */
  function WireframeFragment(f: FragmentData): (r: Float3)
    ensures r == WIRE_COLOR <==> Min3(f.weights) < 0.025
    ensures r == WIRE_COLOR || r == BACKGROUND_COLOR
    ensures !IsDiscard(r)
  {
    WireOrBackground(f.weights, 0.025)
  }

  /** Permuting the weights does not change the colour, and the centre of a triangle is background. */
  lemma WireframeSymmetric(f: FragmentData)
    ensures WireframeFragment(f.(weights := Float3(f.weights.y, f.weights.x, f.weights.z))) == WireframeFragment(f)
    ensures WireframeFragment(f.(weights := Float3(f.weights.y, f.weights.z, f.weights.x))) == WireframeFragment(f)
    ensures WireframeFragment(f.(weights := Float3(1.0 / 3.0, 1.0 / 3.0, 1.0 / 3.0))) == BACKGROUND_COLOR
  {
    Min3Symmetric(f.weights);
  }

  /** debug/DepthShader: the depth rule of the six-argument shader, applied to f.depth. */
  function DepthFragment(f: FragmentData): (r: Float3)
    ensures f.depth > 50.0 ==> r == FAR_DEPTH_COLOR
    ensures f.depth <= 50.0 ==> r.x == r.y == r.z && r.x * 50.0 == f.depth
    ensures 0.0 <= f.depth <= 50.0 ==> 0.0 <= r.x <= 1.0
    ensures f.depth >= 0.0 ==> !IsDiscard(r)
  {
    Shaders.DepthFragment(f.depth)
  }

  /** debug/NormalsShader: f.worldNormal mapped from [-1,1] to [0,1]. */
  function NormalsFragment(f: FragmentData): (r: Float3)
    ensures var n := f.worldNormal;
      r.x * 2.0 == n.x + 1.0 && r.y * 2.0 == n.y + 1.0 && r.z * 2.0 == n.z + 1.0
    ensures var n := f.worldNormal;
      -1.0 <= n.x <= 1.0 && -1.0 <= n.y <= 1.0 && -1.0 <= n.z <= 1.0 ==>
      0.0 <= r.x <= 1.0 && 0.0 <= r.y <= 1.0 && 0.0 <= r.z <= 1.0
    ensures f.worldNormal == Zero() ==> r == Float3(0.5, 0.5, 0.5)
  {
    Shaders.NormalsFragment(f.worldNormal)
  }

  /** debug/DebugShader: the ring discard of the six-argument shader, on f's fields. */
  function DebugFragment(f: FragmentData): (r: Float3)
    ensures OutsideRing(f.weights) ==> r == DISCARD
    ensures !OutsideRing(f.weights) ==> r == f.screenUV.To3DAt(1.0).Scale(NearScale(f.depth))
    ensures !OutsideRing(f.weights) && 0.0 < f.depth <= 4.0 ==> r == Float3(f.screenUV.x, f.screenUV.y, 1.0)
    ensures !OutsideRing(f.weights) && f.depth > 0.0 ==> r.z > 0.0
  {
    Shaders.DebugFragment(f.weights, f.depth, f.screenUV)
  }

  /** debug/UVShader: the texture coordinate as a colour, blue always 0. */
  function UVFragment(f: FragmentData): (r: Float3)
    ensures r.x == f.texUV.x && r.y == f.texUV.y && r.z == 0.0
    ensures 0.0 <= f.texUV.x < 1.0 && 0.0 <= f.texUV.y < 1.0 ==> 0.0 <= r.x < 1.0 && 0.0 <= r.y < 1.0
  {
    f.texUV.To3D()
  }

  /** Each debug shader reads only its own fields of f: fragments that agree on them agree on the colour. */
  lemma DebugShadersReadOnly(f: FragmentData, g: FragmentData)
    ensures f.weights == g.weights ==> WireframeFragment(f) == WireframeFragment(g)
    ensures f.depth == g.depth ==> DepthFragment(f) == DepthFragment(g)
    ensures f.worldNormal == g.worldNormal ==> NormalsFragment(f) == NormalsFragment(g)
    ensures f.weights == g.weights && f.depth == g.depth && f.screenUV == g.screenUV ==> DebugFragment(f) == DebugFragment(g)
    ensures f.texUV == g.texUV ==> UVFragment(f) == UVFragment(g)
  {}
}
