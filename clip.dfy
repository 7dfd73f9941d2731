/**
 * The geometric half of `Camera.renderTriangle`: the back-face test and the
 * near-plane clip. A view-space triangle becomes 0, 1 or 2 sub-triangles, each
 * vertex carrying a "weight": its barycentric coordinates with respect to the
 * original triangle, which the pixel loop later interpolates.
 */
module Clip {
  import opened Num
  import opened Vec
  import opened Maths

  /** `NEAR_CLIP_DST`: vertices at or behind this view depth are clipped. */
  const NEAR_CLIP_DST: real := 0.01

  /** `STANDARD_WEIGHTS[i]`: the weight of corner i of the original triangle. */
  function StandardWeight(i: int): Float3
    requires 0 <= i < 3
  {
    if i == 0 then Float3(1.0, 0.0, 0.0) else if i == 1 then Float3(0.0, 1.0, 0.0) else Float3(0.0, 0.0, 1.0)
  }

  /** A barycentric weight: three shares in [0,1] that add up to 1. */
  predicate IsWeight(w: Float3)
  {
    0.0 <= w.x <= 1.0 && 0.0 <= w.y <= 1.0 && 0.0 <= w.z <= 1.0 && w.x + w.y + w.z == 1.0
  }

  /** The point of a triangle with barycentric weight w: `tri[0] w.x + tri[1] w.y + tri[2] w.z`. */
  function Blend(tri: seq<Float3>, w: Float3): Float3
    requires |tri| == 3
  {
    Rotate(w, Basis(tri[0], tri[1], tri[2]))
  }

  /** `tri[i].z <= NEAR_CLIP_DST`. */
  predicate Clipped(v: Float3)
  {
    v.z <= NEAR_CLIP_DST
  }

  /** `clipCount`: how many of the three vertices are clipped. */
  function ClipCount(tri: seq<Float3>): (n: int)
    requires |tri| == 3
    ensures 0 <= n <= 3
    ensures n == 0 <==> !Clipped(tri[0]) && !Clipped(tri[1]) && !Clipped(tri[2])
    ensures n == 3 <==> Clipped(tri[0]) && Clipped(tri[1]) && Clipped(tri[2])
  {
    BoolToInt(Clipped(tri[0])) + BoolToInt(Clipped(tri[1])) + BoolToInt(Clipped(tri[2]))
  }

  /** `fracA`, `fracB`, `fracX`, `fracY`: how far along p -> q an edge with one clipped end meets the near plane. */
  function ClipFraction(p: Float3, q: Float3): (f: real)
    requires Clipped(p) != Clipped(q)
    ensures 0.0 <= f <= 1.0
    ensures p.z + (q.z - p.z) * f == NEAR_CLIP_DST
  {
    (NEAR_CLIP_DST - p.z) / (q.z - p.z)
  }

  /** A sub-triangle handed to `drawTriangle`: three view-space vertices and their weights. */
  datatype SubTri = SubTri(verts: seq<Float3>, weights: seq<Float3>)

  /**
   * `case 1`: the two edges leaving the clipped vertex are cut at the near
   * plane and the remaining quadrilateral is drawn as two triangles.
   */
  function ClipOne(tri: seq<Float3>, clipIndex: int): (r: seq<SubTri>)
    requires |tri| == 3 && 0 <= clipIndex < 3
    requires Clipped(tri[clipIndex]) && !Clipped(tri[(clipIndex + 1) % 3]) && !Clipped(tri[(clipIndex + 2) % 3])
    ensures |r| == 2
  {
    var nextI := (clipIndex + 1) % 3;
    var prevI := (clipIndex + 2) % 3;
    var clippedP, a, b := tri[clipIndex], tri[nextI], tri[prevI];
    var fracA := ClipFraction(clippedP, a);
    var fracB := ClipFraction(clippedP, b);
    var clipPointA := clippedP.Lerp(a, fracA);
    var clipPointB := clippedP.Lerp(b, fracB);
    var weightA := StandardWeight(clipIndex).Lerp(StandardWeight(nextI), fracA);
    var weightB := StandardWeight(clipIndex).Lerp(StandardWeight(prevI), fracB);
    [SubTri([a, b, clipPointB], [StandardWeight(nextI), StandardWeight(prevI), weightB]),
     SubTri([a, clipPointA, clipPointB], [StandardWeight(nextI), weightA, weightB])]
  }

  /** `case 2`: the two edges leaving the one kept vertex are cut, leaving one smaller triangle. */
  function ClipTwo(tri: seq<Float3>, nonClipI: int): (r: seq<SubTri>)
    requires |tri| == 3 && 0 <= nonClipI < 3
    requires !Clipped(tri[nonClipI]) && Clipped(tri[(nonClipI + 1) % 3]) && Clipped(tri[(nonClipI + 2) % 3])
    ensures |r| == 1
  {
    var clipIA := (nonClipI + 1) % 3;
    var clipIB := (nonClipI + 2) % 3;
    var p, clippedA, clippedB := tri[nonClipI], tri[clipIA], tri[clipIB];
    var fracX := ClipFraction(p, clippedA);
    var fracY := ClipFraction(p, clippedB);
    var clipPointX := p.Lerp(clippedA, fracX);
    var clipPointY := p.Lerp(clippedB, fracY);
    var weightX := StandardWeight(nonClipI).Lerp(StandardWeight(clipIA), fracX);
    var weightY := StandardWeight(nonClipI).Lerp(StandardWeight(clipIB), fracY);
    [SubTri([p, clipPointX, clipPointY], [StandardWeight(nonClipI), weightX, weightY])]
  }

  /** `clipIndex`: the first clipped vertex. */
  function FirstClipped(tri: seq<Float3>): (i: int)
    requires |tri| == 3 && ClipCount(tri) == 1
    ensures 0 <= i < 3 && Clipped(tri[i]) && !Clipped(tri[(i + 1) % 3]) && !Clipped(tri[(i + 2) % 3])
  {
    if Clipped(tri[0]) then 0 else if Clipped(tri[1]) then 1 else 2
  }

  /** `nonClipI`: the first vertex kept. */
  function FirstKept(tri: seq<Float3>): (i: int)
    requires |tri| == 3 && ClipCount(tri) == 2
    ensures 0 <= i < 3 && !Clipped(tri[i]) && Clipped(tri[(i + 1) % 3]) && Clipped(tri[(i + 2) % 3])
  {
    if !Clipped(tri[0]) then 0 else if !Clipped(tri[1]) then 1 else 2
  }

  /** The clip switch of `renderTriangle`, on the number of clipped vertices. */
  function ClipTriangle(tri: seq<Float3>): (r: seq<SubTri>)
    requires |tri| == 3
    ensures ClipCount(tri) == 0 ==> r == [SubTri(tri, [StandardWeight(0), StandardWeight(1), StandardWeight(2)])]
    ensures ClipCount(tri) == 1 ==> |r| == 2
    ensures ClipCount(tri) == 2 ==> |r| == 1
    ensures ClipCount(tri) == 3 ==> r == []
  {
    match ClipCount(tri)
    case 0 => [SubTri(tri, [StandardWeight(0), StandardWeight(1), StandardWeight(2)])]
    case 1 => ClipOne(tri, FirstClipped(tri))
    case 2 => ClipTwo(tri, FirstKept(tri))
    case _ => []
  }

  /** A vertex of a sub-triangle is sound when its weight is barycentric, locates it on the original triangle, and it lies in front of the near plane. */
  predicate SoundCorner(tri: seq<Float3>, v: Float3, w: Float3)
    requires |tri| == 3
  {
    IsWeight(w) && v == Blend(tri, w) && v.z >= NEAR_CLIP_DST
  }

  predicate Sound(tri: seq<Float3>, s: SubTri)
    requires |tri| == 3
  {
    && |s.verts| == 3 && |s.weights| == 3
    && SoundCorner(tri, s.verts[0], s.weights[0])
    && SoundCorner(tri, s.verts[1], s.weights[1])
    && SoundCorner(tri, s.verts[2], s.weights[2])
  }

  /** A share moved part of the way towards another share stays in [0,1]. */
  lemma LerpShare(a: real, b: real, t: real)
    requires 0.0 <= a <= 1.0 && 0.0 <= b <= 1.0 && 0.0 <= t <= 1.0
    ensures 0.0 <= a + (b - a) * t <= 1.0
  {
    assert a + (b - a) * t == a * (1.0 - t) + b * t;
    MulNonNeg(a, 1.0 - t);
    MulNonNeg(b, t);
    MulNonNeg(1.0 - a, 1.0 - t);
    MulNonNeg(1.0 - b, t);
  }

  /** Linear interpolation between two barycentric weights is a barycentric weight. */
  lemma LerpWeight(u: Float3, v: Float3, t: real)
    requires IsWeight(u) && IsWeight(v) && 0.0 <= t <= 1.0
    ensures IsWeight(u.Lerp(v, t))
  {
    LerpShare(u.x, v.x, t);
    LerpShare(u.y, v.y, t);
    LerpShare(u.z, v.z, t);
    var w := u.Lerp(v, t);
    assert w.x + w.y + w.z == (u.x + u.y + u.z) + ((v.x + v.y + v.z) - (u.x + u.y + u.z)) * t;
  }

  /** Corner i's own weight is barycentric and locates corner i. */
  lemma StandardCorner(tri: seq<Float3>, i: int)
    requires |tri| == 3 && 0 <= i < 3
    ensures IsWeight(StandardWeight(i))
    ensures Blend(tri, StandardWeight(i)) == tri[i]
  {
    var b := Basis(tri[0], tri[1], tri[2]);
    RotateAxes(tri[0], b);
    var w := StandardWeight(i);
    if i == 0 {
      assert w == Float3(1.0, 0.0, 0.0);
      assert Blend(tri, w) == Rotate(w, b);
    } else if i == 1 {
      assert w == Float3(0.0, 1.0, 0.0);
      assert Blend(tri, w) == Rotate(w, b);
    } else {
      assert w == Float3(0.0, 0.0, 1.0);
      assert Blend(tri, w) == Rotate(w, b);
    }
  }

  /** The depth of a point part of the way along an edge. */
  lemma LerpDepth(p: Float3, q: Float3, t: real)
    ensures p.Lerp(q, t).z == p.z + (q.z - p.z) * t
  {}

  /** The cut point lies on the near plane. */
  lemma CutDepth(p: Float3, q: Float3)
    requires Clipped(p) != Clipped(q)
    ensures p.Lerp(q, ClipFraction(p, q)).z == NEAR_CLIP_DST
  {
    var f := ClipFraction(p, q);
    LerpDepth(p, q, f);
  }

  /** Moving a weight along an edge moves its point along the same edge by the same fraction. */
  lemma EdgeBlend(tri: seq<Float3>, i: int, j: int, t: real)
    requires |tri| == 3 && 0 <= i < 3 && 0 <= j < 3
    ensures Blend(tri, StandardWeight(i).Lerp(StandardWeight(j), t)) == tri[i].Lerp(tri[j], t)
  {
    var b := Basis(tri[0], tri[1], tri[2]);
    var wi, wj := StandardWeight(i), StandardWeight(j);
    StandardCorner(tri, i);
    StandardCorner(tri, j);
    RotateLerp(wi, wj, t, b);
  }

  /** The cut point of edge i -> j, and its weight blended the same way, agree; the cut lies on the near plane. */
  lemma EdgeCorner(tri: seq<Float3>, i: int, j: int)
    requires |tri| == 3 && 0 <= i < 3 && 0 <= j < 3 && Clipped(tri[i]) != Clipped(tri[j])
    ensures var f := ClipFraction(tri[i], tri[j]);
      SoundCorner(tri, tri[i].Lerp(tri[j], f), StandardWeight(i).Lerp(StandardWeight(j), f))
  {
    var f := ClipFraction(tri[i], tri[j]);
    StandardCorner(tri, i);
    StandardCorner(tri, j);
    LerpWeight(StandardWeight(i), StandardWeight(j), f);
    EdgeBlend(tri, i, j, f);
    CutDepth(tri[i], tri[j]);
  }

  /** A vertex that is not clipped lies in front of the near plane and is its own corner. */
  lemma KeptCorner(tri: seq<Float3>, i: int)
    requires |tri| == 3 && 0 <= i < 3 && !Clipped(tri[i])
    ensures SoundCorner(tri, tri[i], StandardWeight(i))
  {
    StandardCorner(tri, i);
  }

  /**
   * Every sub-triangle the clip emits is sound: each weight handed to
   * `drawTriangle` has shares in [0,1] adding up to 1, each vertex is the point
   * of the original triangle with that weight, and each vertex has
   * z >= NEAR_CLIP_DST, so the perspective division never divides by 0.
   */
  lemma ClipSound(tri: seq<Float3>)
    requires |tri| == 3
    ensures forall s :: s in ClipTriangle(tri) ==> Sound(tri, s)
  {
    var n := ClipCount(tri);
    if n == 0 {
      ClipNoneSound(tri);
      SoundSingle(tri, ClipTriangle(tri));
    } else if n == 1 {
      ClipOneSound(tri, FirstClipped(tri));
    } else if n == 2 {
      ClipTwoSound(tri, FirstKept(tri));
    }
  }

  lemma ClipNoneSound(tri: seq<Float3>)
    requires |tri| == 3 && ClipCount(tri) == 0
    ensures Sound(tri, SubTri(tri, [StandardWeight(0), StandardWeight(1), StandardWeight(2)]))
  {
    var ws := [StandardWeight(0), StandardWeight(1), StandardWeight(2)];
    assert SoundCorner(tri, tri[0], ws[0]) by { KeptCorner(tri, 0); }
    assert SoundCorner(tri, tri[1], ws[1]) by { KeptCorner(tri, 1); }
    assert SoundCorner(tri, tri[2], ws[2]) by { KeptCorner(tri, 2); }
  }

  lemma ClipOneSound(tri: seq<Float3>, clipIndex: int)
    requires |tri| == 3 && 0 <= clipIndex < 3
    requires Clipped(tri[clipIndex]) && !Clipped(tri[(clipIndex + 1) % 3]) && !Clipped(tri[(clipIndex + 2) % 3])
    ensures forall s :: s in ClipOne(tri, clipIndex) ==> Sound(tri, s)
  {
    var nextI := (clipIndex + 1) % 3;
    var prevI := (clipIndex + 2) % 3;
    var p, a, b := tri[clipIndex], tri[nextI], tri[prevI];
    var fracA, fracB := ClipFraction(p, a), ClipFraction(p, b);
    var wA := StandardWeight(clipIndex).Lerp(StandardWeight(nextI), fracA);
    var wB := StandardWeight(clipIndex).Lerp(StandardWeight(prevI), fracB);
    var r := ClipOne(tri, clipIndex);
    assert r == [SubTri([a, b, p.Lerp(b, fracB)], [StandardWeight(nextI), StandardWeight(prevI), wB]),
                 SubTri([a, p.Lerp(a, fracA), p.Lerp(b, fracB)], [StandardWeight(nextI), wA, wB])];
    assert Sound(tri, r[0]) by {
      KeptCorner(tri, nextI);
      KeptCorner(tri, prevI);
      EdgeCorner(tri, clipIndex, prevI);
    }
    assert Sound(tri, r[1]) by {
      KeptCorner(tri, nextI);
      EdgeCorner(tri, clipIndex, nextI);
      EdgeCorner(tri, clipIndex, prevI);
    }
    SoundPair(tri, r);
  }

  lemma SoundSingle(tri: seq<Float3>, r: seq<SubTri>)
    requires |tri| == 3 && |r| == 1 && Sound(tri, r[0])
    ensures forall s :: s in r ==> Sound(tri, s)
  {}

  lemma SoundPair(tri: seq<Float3>, r: seq<SubTri>)
    requires |tri| == 3 && |r| == 2 && Sound(tri, r[0]) && Sound(tri, r[1])
    ensures forall s :: s in r ==> Sound(tri, s)
  {}

  lemma ClipTwoSound(tri: seq<Float3>, nonClipI: int)
    requires |tri| == 3 && 0 <= nonClipI < 3
    requires !Clipped(tri[nonClipI]) && Clipped(tri[(nonClipI + 1) % 3]) && Clipped(tri[(nonClipI + 2) % 3])
    ensures forall s :: s in ClipTwo(tri, nonClipI) ==> Sound(tri, s)
  {
    var clipIA := (nonClipI + 1) % 3;
    var clipIB := (nonClipI + 2) % 3;
    var p, a, b := tri[nonClipI], tri[clipIA], tri[clipIB];
    var fracX, fracY := ClipFraction(p, a), ClipFraction(p, b);
    KeptCorner(tri, nonClipI);
    EdgeCorner(tri, nonClipI, clipIA);
    EdgeCorner(tri, nonClipI, clipIB);
    var r := ClipTwo(tri, nonClipI);
    assert r[0] == SubTri([p, p.Lerp(a, fracX), p.Lerp(b, fracY)],
      [StandardWeight(nonClipI), StandardWeight(nonClipI).Lerp(StandardWeight(clipIA), fracX), StandardWeight(nonClipI).Lerp(StandardWeight(clipIB), fracY)]);
    assert Sound(tri, r[0]);
  }

  /** Starting the corner order at any index, as both clip cases do, keeps the triangle's winding. */
  lemma CyclicWinding(p: seq<Float2>, i: int)
    requires |p| == 3 && 0 <= i < 3
    ensures SignedTriArea(p[i], p[(i + 1) % 3], p[(i + 2) % 3]) == SignedTriArea(p[0], p[1], p[2])
  {
    var a, b, c := p[0], p[1], p[2];
    if i == 0 {
      assert p[i] == a && p[(i + 1) % 3] == b && p[(i + 2) % 3] == c;
    } else if i == 1 {
      assert p[i] == b && p[(i + 1) % 3] == c && p[(i + 2) % 3] == a;
      SignedTriAreaCyclic(a, b, c);
    } else {
      assert p[i] == c && p[(i + 1) % 3] == a && p[(i + 2) % 3] == b;
      SignedTriAreaCyclic(b, c, a);
      SignedTriAreaCyclic(a, b, c);
    }
  }

  /** The view-plane area of a triangle read from corner i onwards, as the clip cases read it, is the triangle's own. */
  lemma CornerOrder(tri: seq<Float3>, i: int)
    requires |tri| == 3 && 0 <= i < 3
    ensures SignedTriArea(tri[i].To2D(), tri[(i + 1) % 3].To2D(), tri[(i + 2) % 3].To2D()) == SignedTriArea(tri[0].To2D(), tri[1].To2D(), tri[2].To2D())
  {
    var q := [tri[0].To2D(), tri[1].To2D(), tri[2].To2D()];
    CyclicWinding(q, i);
  }

  /**
   * Case 2's sub-triangle keeps the winding of the corners it is read from:
   * pulling two corners toward the first along its edges scales the
   * view-plane area by both fractions, keeping its sign.
   */
  lemma PulledArea(p: Float3, a: Float3, b: Float3, s: real, t: real)
    ensures SignedTriArea(p.To2D(), p.Lerp(a, s).To2D(), p.Lerp(b, t).To2D()) == s * t * SignedTriArea(p.To2D(), a.To2D(), b.To2D())
  {
    var ux, uy, vx, vy := a.x - p.x, a.y - p.y, b.x - p.x, b.y - p.y;
    AreaFormula(p.To2D(), p.Lerp(a, s).To2D(), p.Lerp(b, t).To2D());
    AreaFormula(p.To2D(), a.To2D(), b.To2D());
    assert p.Lerp(a, s).x - p.x == ux * s && p.Lerp(a, s).y - p.y == uy * s;
    assert p.Lerp(b, t).x - p.x == vx * t && p.Lerp(b, t).y - p.y == vy * t;
    assert (vx * t) * (uy * s) - (vy * t) * (ux * s) == s * t * (vx * uy - vy * ux);
  }

  /**
   * The geometric part of `renderTriangle`: the face normal is turned into view
   * space with the inverse camera basis; a triangle whose normal does not point
   * against its first vertex faces away and yields nothing, any other is clipped.
   */
  function VisibleParts(tri: seq<Float3>, worldNormal: Float3, cameraBasis: Basis): (r: seq<SubTri>)
    requires |tri| == 3
    ensures Rotate(worldNormal, Transpose(cameraBasis)).Dot(tri[0]) >= 0.0 ==> r == []
    ensures Rotate(worldNormal, Transpose(cameraBasis)).Dot(tri[0]) < 0.0 ==> r == ClipTriangle(tri)
    ensures forall s :: s in r ==> Sound(tri, s)
    ensures |r| <= 2
  {
    var viewNormal := Rotate(worldNormal, Transpose(cameraBasis));
    var facingCam := viewNormal.Dot(tri[0]) < 0.0;
    ClipSound(tri);
    if facingCam then ClipTriangle(tri) else []
  }
}
