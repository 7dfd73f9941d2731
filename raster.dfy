/**
 * The per-pixel half of `Camera.drawTriangle`, as functions of one pixel and
 * the depth already stored there: the bounding box, the perspective-correct
 * depth and weights, the shader call with its discard rule, and the overdraw
 * counter. The loop that applies them to the two buffers is `Render.Camera`.
 */
module Raster {
  import opened Num
  import opened Vec
  import opened Wrappers
  import opened Maths
  import opened Materials
  import opened Shaders
  import opened Clip

  /** `OVERDRAW_LIMIT`: the overdraw count shown as full white. */
  const OVERDRAW_LIMIT: real := 8.0
  /** `OVER_OVERDRAW_COLOR`: the colour of pixels drawn more often than the limit. */
  const OVER_OVERDRAW_COLOR: Float3 := Float3(1.0, 0.6, 0.6)
  /** `SHADER_RETURN` and `SHADER_DISCARD`: the shader-status colours. */
  const SHADER_RETURN: Float3 := Float3(1.0, 1.0, 1.0)
  const SHADER_DISCARD: Float3 := Float3(1.0, 0.0, 0.0)
  /** The colour of a pixel whose material has no shader. */
  const NO_SHADER_COLOR: Float3 := Float3(1.0, 0.0, 1.0)

  /**
   * What `drawTriangle` reads besides its arguments: the resolution, the three
   * debug flags, the shader of the camera's material (used when
   * `shaderOverride` is set) and the engine's texture sampler.
   */
  datatype Settings = Settings(
    resX: int, resY: int,
    showOverdraw: bool, shaderStatus: bool, shaderOverride: bool,
    cameraShader: Option<Shader>,
    sample: (Texture, Float2) -> Float3)

  /** The arguments of one `drawTriangle` call; `tri` is in screen space, x and y in pixels and z the view depth. */
  datatype DrawCall = DrawCall(tri: seq<Float3>, triWeights: seq<Float3>, worldNormal: Float3, uvs: seq<Float2>, mat: Material)
  {
    /** Three vertices in front of the camera, three weights, at least three UVs. */
    predicate Valid()
    {
      |tri| == 3 && |triWeights| == 3 && |uvs| >= 3 && tri[0].z > 0.0 && tri[1].z > 0.0 && tri[2].z > 0.0
    }

    function Depths(): Float3
      requires Valid()
    {
      Float3(tri[0].z, tri[1].z, tri[2].z)
    }
  }

  /** What one pixel visit stores: the new depth (or overdraw count) and the packed colour. */
  datatype Write = Write(depth: real, color: int)

  /** The pixel range a triangle is scanned over; x runs over [startX, endX) and y over [startY, endY). */
  datatype Box = Box(startX: int, startY: int, endX: int, endY: int)
  {
    predicate Contains(x: int, y: int)
    {
      startX <= x < endX && startY <= y < endY
    }
  }

  /** The bounds of the screen-space bounding box, each truncated by `(int)` and clamped to [0, res - 1]. */
  function BoundingBox(tri: seq<Float3>, resX: int, resY: int): (b: Box)
    requires |tri| == 3 && resX > 0 && resY > 0
    ensures 0 <= b.startX <= resX - 1 && 0 <= b.endX <= resX - 1
    ensures 0 <= b.startY <= resY - 1 && 0 <= b.endY <= resY - 1
  {
    var a, bb, c := tri[0].To2D(), tri[1].To2D(), tri[2].To2D();
    var minX := MinR(MinR(a.x, bb.x), c.x);
    var minY := MinR(MinR(a.y, bb.y), c.y);
    var maxX := MaxR(MaxR(a.x, bb.x), c.x);
    var maxY := MaxR(MaxR(a.y, bb.y), c.y);
    Box(ClampI(0, resX - 1, JavaIntCast(minX)), ClampI(0, resY - 1, JavaIntCast(minY)),
        ClampI(0, resX - 1, JavaIntCast(maxX)), ClampI(0, resY - 1, JavaIntCast(maxY)))
  }

  /** Every pixel the scan visits lies inside the buffers, and the last column and row are never visited. */
  lemma BoxInsideBuffers(tri: seq<Float3>, resX: int, resY: int, x: int, y: int)
    requires |tri| == 3 && resX > 0 && resY > 0
    requires BoundingBox(tri, resX, resY).Contains(x, y)
    ensures 0 <= x < resX - 1 && 0 <= y < resY - 1
  {}

  /** Non-negative shares adding up to 1, as a point found inside a triangle has. */
  predicate Shares(b: Float3)
  {
    b.x >= 0.0 && b.y >= 0.0 && b.z >= 0.0 && b.x + b.y + b.z == 1.0
  }

  predicate Positive(d: Float3)
  {
    d.x > 0.0 && d.y > 0.0 && d.z > 0.0
  }

  /** Non-negative shares of positive values have a positive sum. */
  lemma PositiveCombination(b: Float3, v: Float3)
    requires Shares(b) && Positive(v)
    ensures b.Dot(v) > 0.0
  {
    BoundedCombination(b, v, MinR(MinR(v.x, v.y), v.z), MaxR(MaxR(v.x, v.y), v.z));
  }

  /** The interpolated inverse depth `bary . (1/z0, 1/z1, 1/z2)` is positive. */
  lemma InverseDepthPositive(bary: Float3, depths: Float3)
    requires Shares(bary) && Positive(depths)
    ensures bary.Dot(depths.Inverse()) > 0.0
  {
    ReciprocalAntitone(depths.x, depths.x);
    ReciprocalAntitone(depths.y, depths.y);
    ReciprocalAntitone(depths.z, depths.z);
    PositiveCombination(bary, depths.Inverse());
  }

  /** `1 / dot(bary, depths.inverse())`: the depth interpolated linearly in 1/z, which is correct under perspective. */
  function PerspectiveDepth(bary: Float3, depths: Float3): (depth: real)
    requires Shares(bary) && Positive(depths)
    ensures depth > 0.0
    ensures depth * bary.Dot(depths.Inverse()) == 1.0
  {
    InverseDepthPositive(bary, depths);
    Reciprocal(bary.Dot(depths.Inverse()));
    1.0 / bary.Dot(depths.Inverse())
  }

  /** Shares adding up to 1 of values in [lo, hi] add up to a value in [lo, hi]. */
  lemma BoundedCombination(b: Float3, v: Float3, lo: real, hi: real)
    requires Shares(b)
    requires lo <= v.x <= hi && lo <= v.y <= hi && lo <= v.z <= hi
    ensures lo <= b.Dot(v) <= hi
  {
    MulNonNeg(b.x, hi - v.x);
    MulNonNeg(b.y, hi - v.y);
    MulNonNeg(b.z, hi - v.z);
    MulNonNeg(b.x, v.x - lo);
    MulNonNeg(b.y, v.y - lo);
    MulNonNeg(b.z, v.z - lo);
    SharesOf(b, hi);
    SharesOf(b, lo);
  }

  /** Bounds on a positive quantity give the reverse bounds on its reciprocal. */
  lemma ReciprocalBounds(d: real, m: real, big: real)
    requires 0.0 < m <= big && 1.0 / big <= d <= 1.0 / m
    ensures m <= 1.0 / d <= big
  {
    ReciprocalAntitone(m, big);
    assert d > 0.0;
    Reciprocal(d);
    ReciprocalAntitone(d, 1.0 / m);
    ReciprocalAntitone(1.0 / big, d);
    Reciprocal(m);
    Reciprocal(big);
    assert 1.0 / (1.0 / m) == m;
    assert 1.0 / (1.0 / big) == big;
  }

  /** The interpolated inverse depth lies between the reciprocals of the farthest and the nearest depth. */
  lemma InverseDepthBounds(bary: Float3, depths: Float3, m: real, big: real)
    requires Shares(bary) && 0.0 < m
    requires m <= depths.x <= big && m <= depths.y <= big && m <= depths.z <= big
    ensures 1.0 / big <= bary.Dot(depths.Inverse()) <= 1.0 / m
  {
    ReciprocalAntitone(m, depths.x);
    ReciprocalAntitone(m, depths.y);
    ReciprocalAntitone(m, depths.z);
    ReciprocalAntitone(depths.x, big);
    ReciprocalAntitone(depths.y, big);
    ReciprocalAntitone(depths.z, big);
    BoundedCombination(bary, depths.Inverse(), 1.0 / big, 1.0 / m);
  }

  /** Shares adding up to 1 of one value add up to that value. */
  lemma SharesOf(b: Float3, r: real)
    requires b.x + b.y + b.z == 1.0
    ensures b.x * r + b.y * r + b.z * r == r
  {
    assert b.x * r + b.y * r + b.z * r == (b.x + b.y + b.z) * r;
  }

  /** The perspective-correct depth lies between the nearest and the farthest vertex. */
  lemma PerspectiveDepthBetween(bary: Float3, depths: Float3)
    requires Shares(bary) && Positive(depths)
    ensures MinR(MinR(depths.x, depths.y), depths.z) <= PerspectiveDepth(bary, depths) <= MaxR(MaxR(depths.x, depths.y), depths.z)
  {
    var m := MinR(MinR(depths.x, depths.y), depths.z);
    var big := MaxR(MaxR(depths.x, depths.y), depths.z);
    InverseDepthBounds(bary, depths, m, big);
    ReciprocalBounds(bary.Dot(depths.Inverse()), m, big);
  }

  /**
   * The weights handed to the shader: each sub-triangle weight scaled by its
   * screen share over its depth, the sum scaled by the perspective depth.
   */
  function PerspectiveWeights(triWeights: seq<Float3>, bary: Float3, depths: Float3, depth: real): Float3
    requires |triWeights| == 3 && Positive(depths)
  {
    triWeights[0].Scale(bary.x / depths.x)
      .Add(triWeights[1].Scale(bary.y / depths.y))
      .Add(triWeights[2].Scale(bary.z / depths.z))
      .Scale(depth)
  }

  /** A weight scaled by t >= 0 has shares in [0, t] summing to t. */
  lemma ScaledWeight(u: Float3, t: real)
    requires IsWeight(u) && t >= 0.0
    ensures var a := u.Scale(t);
      && 0.0 <= a.x <= t && 0.0 <= a.y <= t && 0.0 <= a.z <= t && a.x + a.y + a.z == t
  {
    MulNonNeg(u.x, t); MulNonNeg(u.y, t); MulNonNeg(u.z, t);
    MulNonNeg(1.0 - u.x, t); MulNonNeg(1.0 - u.y, t); MulNonNeg(1.0 - u.z, t);
    assert u.x * t + u.y * t + u.z * t == (u.x + u.y + u.z) * t;
  }

  /** A weighted sum of three barycentric weights with non-negative factors has shares in [0, s] summing to s, the factors' sum. */
  lemma CombineWeights(u: Float3, v: Float3, w: Float3, f: Float3)
    requires IsWeight(u) && IsWeight(v) && IsWeight(w) && f.x >= 0.0 && f.y >= 0.0 && f.z >= 0.0
    ensures var r := u.Scale(f.x).Add(v.Scale(f.y)).Add(w.Scale(f.z));
      && r.x + r.y + r.z == f.x + f.y + f.z
      && 0.0 <= r.x <= f.x + f.y + f.z && 0.0 <= r.y <= f.x + f.y + f.z && 0.0 <= r.z <= f.x + f.y + f.z
  {
    ScaledWeight(u, f.x);
    ScaledWeight(v, f.y);
    ScaledWeight(w, f.z);
  }

  /** A vector with shares in [0, s] summing to s, scaled by 1/s, is a barycentric weight. */
  lemma NormalizeShares(r: Float3, s: real, depth: real)
    requires s > 0.0 && depth * s == 1.0
    requires r.x + r.y + r.z == s && 0.0 <= r.x <= s && 0.0 <= r.y <= s && 0.0 <= r.z <= s
    ensures IsWeight(r.Scale(depth))
  {
    assert depth > 0.0;
    var q := r.Scale(depth);
    assert q.x + q.y + q.z == s * depth;
    MulNonNeg(r.x, depth); MulNonNeg(r.y, depth); MulNonNeg(r.z, depth);
    MulNonNeg(s - r.x, depth); MulNonNeg(s - r.y, depth); MulNonNeg(s - r.z, depth);
  }

  /**
   * When the sub-triangle's weights are barycentric, so are the
   * perspective-correct weights: the shader always receives three shares in
   * [0,1] that add up to 1.
   */
  lemma PerspectiveWeightsBarycentric(triWeights: seq<Float3>, bary: Float3, depths: Float3)
    requires |triWeights| == 3 && IsWeight(triWeights[0]) && IsWeight(triWeights[1]) && IsWeight(triWeights[2])
    requires Shares(bary) && Positive(depths)
    ensures IsWeight(PerspectiveWeights(triWeights, bary, depths, PerspectiveDepth(bary, depths)))
  {
    var f := Float3(bary.x / depths.x, bary.y / depths.y, bary.z / depths.z);
    assert bary.x / depths.x == bary.x * (1.0 / depths.x);
    assert bary.y / depths.y == bary.y * (1.0 / depths.y);
    assert bary.z / depths.z == bary.z * (1.0 / depths.z);
    var s := bary.Dot(depths.Inverse());
    assert f.x + f.y + f.z == s;
    InverseDepthPositive(bary, depths);
    CombineWeights(triWeights[0], triWeights[1], triWeights[2], f);
    var r := triWeights[0].Scale(f.x).Add(triWeights[1].Scale(f.y)).Add(triWeights[2].Scale(f.z));
    NormalizeShares(r, s, PerspectiveDepth(bary, depths));
  }

  /**
   * The shader step: with no shader the pixel is magenta; otherwise the
   * fragment colour, replaced by white or red in shader-status mode, and
   * dropped (None) when it is the discard sentinel.
   */
  function ShaderColor(s: Settings, shader: Option<Shader>, mat: Material, texUV: Float2, worldNormal: Float3,
                       depth: real, weights: Float3, screenUV: Float2): (r: Option<Float3>)
    ensures shader.None? ==> r == Some(NO_SHADER_COLOR)
    ensures shader.Some? ==>
      var col := Fragment(shader.value, s.sample, TextureOf(mat), texUV, worldNormal, depth, weights, screenUV);
      (r.None? <==> !s.shaderStatus && IsDiscard(col))
    ensures shader.Some? && s.shaderStatus ==> r == Some(SHADER_RETURN) || r == Some(SHADER_DISCARD)
    ensures r.Some? && !s.shaderStatus ==> !IsDiscard(r.value)
  {
    if shader.None? then Some(NO_SHADER_COLOR)
    else
      var col := Fragment(shader.value, s.sample, TextureOf(mat), texUV, worldNormal, depth, weights, screenUV);
      if s.shaderStatus then Some(if col.x < 0.0 then SHADER_DISCARD else SHADER_RETURN)
      else if col.x < 0.0 then None
      else Some(col)
  }

  /** Overdraw mode: the stored value counts the writes to the pixel and the colour shows the count. */
  function OverdrawShade(stored: real): (r: (real, Float3))
    ensures stored == FLOAT_MAX ==> r.0 == 1.0
    ensures stored != FLOAT_MAX ==> r.0 == stored + 1.0
    ensures r.0 > OVERDRAW_LIMIT ==> r.1 == OVER_OVERDRAW_COLOR
    ensures 0.0 <= r.0 <= OVERDRAW_LIMIT ==> r.1.x == r.1.y == r.1.z && 0.0 <= r.1.x <= 1.0 && r.1.x * OVERDRAW_LIMIT == r.0
  {
    var count := if stored == FLOAT_MAX then 1.0 else stored + 1.0;
    var col := if count > OVERDRAW_LIMIT then OVER_OVERDRAW_COLOR else Float3(count, count, count).Scale(1.0 / OVERDRAW_LIMIT);
    (count, col)
  }

  /** Pixel (x, y), as a point, tested against the call's triangle on the screen. */
  function PixelTest(call: DrawCall, x: int, y: int): TriTest
    requires call.Valid()
  {
    PointTriangleTest(call.tri[0].To2D(), call.tri[1].To2D(), call.tri[2].To2D(), Float2(x as real, y as real))
  }

  /** The perspective-correct depth at a pixel inside the triangle, always in front of the camera. */
  function PixelDepth(call: DrawCall, x: int, y: int): (depth: real)
    requires call.Valid() && PixelTest(call, x, y).inside
    ensures depth > 0.0
  {
    InsideWeightsNonNegative(call.tri[0].To2D(), call.tri[1].To2D(), call.tri[2].To2D(), Float2(x as real, y as real));
    PerspectiveDepth(PixelTest(call, x, y).bary.value, call.Depths())
  }

  /**
   * The shader step at a pixel inside the triangle: the camera's shader when
   * it overrides, else the material's, run on the perspective-correct
   * weights, UV and depth; None when the fragment is discarded.
   */
  function PixelShade(s: Settings, call: DrawCall, x: int, y: int): (r: Option<Float3>)
    requires call.Valid() && s.resX > 0 && s.resY > 0 && PixelTest(call, x, y).inside
    ensures r.Some? && !s.shaderStatus ==> !IsDiscard(r.value)
    ensures r.None? ==> !s.shaderStatus && (if s.shaderOverride then s.cameraShader else call.mat.shader).Some?
  {
    InsideWeightsNonNegative(call.tri[0].To2D(), call.tri[1].To2D(), call.tri[2].To2D(), Float2(x as real, y as real));
    var bary := PixelTest(call, x, y).bary.value;
    var depth := PixelDepth(call, x, y);
    var screenUV := Float2(x as real / s.resX as real, y as real / s.resY as real);
    var weights := PerspectiveWeights(call.triWeights, bary, call.Depths(), depth);
    var texUV := call.mat.ConvertUV(InterpolateUV(call.uvs, weights));
    var shader := if s.shaderOverride then s.cameraShader else call.mat.shader;
    ShaderColor(s, shader, call.mat, texUV, call.worldNormal, depth, weights, screenUV)
  }

  /**
   * What a `TYPE_INT_RGB` image keeps of the int given to `setRGB`: the low
   * 24 bits, the alpha byte being dropped.
   */
  function StoredRGB(color: int): (rgb: int)
    ensures 0 <= rgb <= 0xFF_FFFF
    ensures 0 <= color <= 0xFF_FFFF ==> rgb == color
  {
    Unsigned32(color) % 0x100_0000
  }

  /**
   * One visit of pixel (x, y) by `drawTriangle`, given the value stored there:
   * None when nothing is written (outside the triangle, behind the stored
   * depth, or discarded), otherwise the depth and colour written.
   */
  function PixelWrite(s: Settings, call: DrawCall, x: int, y: int, stored: real): (r: Option<Write>)
    requires call.Valid() && s.resX > 0 && s.resY > 0
    ensures r.Some? <==> PixelTest(call, x, y).inside && (s.showOverdraw || PixelDepth(call, x, y) < stored) && PixelShade(s, call, x, y).Some?
    ensures r.Some? && !s.showOverdraw ==>
      && 0.0 < r.value.depth < stored
      && r.value == Write(PixelDepth(call, x, y), StoredRGB(PixelShade(s, call, x, y).value.GetColor()))
    ensures r.Some? && s.showOverdraw ==> r.value == Write(OverdrawShade(stored).0, StoredRGB(OverdrawShade(stored).1.GetColor()))
  {
    if !PixelTest(call, x, y).inside then None
    else
      var depth := PixelDepth(call, x, y);
      if !(s.showOverdraw || depth < stored) then None
      else
        match PixelShade(s, call, x, y)
        case None => None
        case Some(col) =>
          if s.showOverdraw then
            var (count, shade) := OverdrawShade(stored);
            Some(Write(count, StoredRGB(shade.GetColor())))
          else
            Some(Write(depth, StoredRGB(col.GetColor())))
  }

  /** In shader-status mode every written pixel is pure white (a value was returned) or pure red (discarded). */
  lemma StatusColors()
    ensures SHADER_RETURN.GetColor() == 0xFF_FFFF
    ensures SHADER_DISCARD.GetColor() == 0xFF_0000
    ensures StoredRGB(SHADER_RETURN.GetColor()) == 0xFF_FFFF && StoredRGB(SHADER_DISCARD.GetColor()) == 0xFF_0000
  {
    GetColorValue(SHADER_RETURN);
    GetColorValue(SHADER_DISCARD);
    assert Trunc(1.0 * 255.0) == 255;
    assert Trunc(0.0 * 255.0) == 0;
  }
}
