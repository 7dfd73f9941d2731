/**
 * game_engine.material: textures (only their size; their pixels are drawn by
 * AWT and read through a caller-supplied sampler), the shaders a material can
 * name, and Material with its UV wrap.
 */
module Materials {
  import opened Num
  import opened Vec
  import opened Wrappers

  /** A texture as far as the core needs it: its size. */
  datatype Texture = Texture(width: int, height: int)

  /** The shaders under material/shader whose `fragment` has the six-argument form the rasterizer calls. */
  datatype Shader = Unlit | Wireframe | Depth | Normals | Debug

  /** A material; Java `null` shader or texture is None. */
  datatype Material = Material(shader: Option<Shader>, tex: Option<Texture>, scale: Float2)
  {
    /** `convertUV`: `uv * scale % 1`, each component a truncated remainder by 1. */
    function ConvertUV(uv: Float2): (r: Float2)
      ensures AbsR(r.x) < 1.0 && AbsR(r.y) < 1.0
      ensures uv.x * scale.x >= 0.0 ==> 0.0 <= r.x < 1.0
      ensures uv.x * scale.x <= 0.0 ==> -1.0 < r.x <= 0.0
      ensures uv.y * scale.y >= 0.0 ==> 0.0 <= r.y < 1.0
      ensures uv.y * scale.y <= 0.0 ==> -1.0 < r.y <= 0.0
    {
      uv.Multiply(scale).Modulo(1.0)
    }
  }

  /** `new Material()`: an unlit shader, a fresh 2x2 texture and scale (1, 1). */
  function DefaultMaterial(): (m: Material)
    ensures m.shader == Some(Unlit) && m.tex == Some(Texture(2, 2)) && m.scale == Float2(1.0, 1.0)
  {
    Material(Some(Unlit), Some(Texture(2, 2)), Float2(1.0, 1.0))
  }

  /** `new Material(shader, texture, scaleX, scaleY)`: everything stored as given, null included. */
  function FullMaterial(shader: Option<Shader>, tex: Option<Texture>, scaleX: real, scaleY: real): (m: Material)
    ensures m.shader == shader && m.tex == tex && m.scale == Float2(scaleX, scaleY)
  {
    Material(shader, tex, Float2(scaleX, scaleY))
  }

  /** `Scene.errorMat`: unlit, a 2x2 texture, and the UVs repeated four times each way. */
  function ErrorMat(): (m: Material)
    ensures m.shader == Some(Unlit) && m.tex == Some(Texture(2, 2)) && m.scale == Float2(4.0, 4.0)
  {
    FullMaterial(Some(Unlit), Some(Texture(2, 2)), 4.0, 4.0)
  }

  /** With scale (1, 1), UVs already in [0,1)^2 pass through, so converting twice is converting once. */
  lemma ConvertUVUnitScale(m: Material, uv: Float2)
    requires m.scale == Float2(1.0, 1.0)
    ensures 0.0 <= uv.x < 1.0 && 0.0 <= uv.y < 1.0 ==> m.ConvertUV(uv) == uv
    ensures m.ConvertUV(m.ConvertUV(uv)) == m.ConvertUV(uv)
  {
    var w := m.ConvertUV(uv);
    JavaRemSmall(w.x, 1.0);
    JavaRemSmall(w.y, 1.0);
    assert w.Multiply(m.scale) == w;
    if 0.0 <= uv.x < 1.0 && 0.0 <= uv.y < 1.0 {
      JavaRemSmall(uv.x, 1.0);
      JavaRemSmall(uv.y, 1.0);
      assert uv.Multiply(m.scale) == uv;
    }
  }
}
