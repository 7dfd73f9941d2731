/**
 * game_engine.math.Maths: clamping, interpolation, the signed-area
 * point-in-triangle test, basis rotation, and the world/view/screen
 * transforms used by the rasterizer.
 */
module Maths {
  import opened Num
  import opened Vec
  import opened Wrappers

  /** `boolToInt`: 1 for true and 0 for false. */
  function BoolToInt(b: bool): (i: int)
    ensures 0 <= i <= 1
    ensures i == 1 <==> b
  {
    if b then 1 else 0
  }

  /** `clamp(min, max, val)` on ints, written `max(min(max, val), min)`. */
  function ClampI(min: int, max: int, val: int): (r: int)
    ensures r >= min
    ensures min <= max ==> r <= max
    ensures min <= val <= max ==> r == val
    ensures val <= min ==> r == min
    ensures min <= max <= val ==> r == max
  {
    MaxI(MinI(max, val), min)
  }

  /** `clamp(min, max, val)` on floats and doubles. */
  function ClampR(min: real, max: real, val: real): (r: real)
    ensures r >= min
    ensures min <= max ==> r <= max
    ensures min <= val <= max ==> r == val
    ensures val <= min ==> r == min
    ensures min <= max <= val ==> r == max
  {
    MaxR(MinR(max, val), min)
  }

  /** `lerp(a, b, t) = a + (b - a) t`. */
  function LerpR(a: real, b: real, t: real): (r: real)
    ensures t == 0.0 ==> r == a
    ensures t == 1.0 ==> r == b
    ensures a <= b && 0.0 <= t <= 1.0 ==> a <= r <= b
  {
    if a <= b && 0.0 <= t <= 1.0 then
      MulNonNeg(b - a, t);
      MulNonNeg(b - a, 1.0 - t);
      assert (b - a) * (1.0 - t) == (b - a) - (b - a) * t;
      a + (b - a) * t
    else
      a + (b - a) * t
  }

  /** Twice the signed area convention of `signedTriArea`: `(c - a) . rotate90(b - a) / 2`. */
  function SignedTriArea(a: Float2, b: Float2, c: Float2): real
  {
    c.Sub(a).Dot(b.Sub(a).Rotate90()) / 2.0
  }

  /** The area in coordinates: half the cross product of (c - a) and (b - a). */
  lemma AreaFormula(a: Float2, b: Float2, c: Float2)
    ensures SignedTriArea(a, b, c) == ((c.x - a.x) * (b.y - a.y) - (c.y - a.y) * (b.x - a.x)) / 2.0
  {}

  /** Swapping two corners negates the area. */
  lemma SignedTriAreaSwap(a: Float2, b: Float2, c: Float2)
    ensures SignedTriArea(a, c, b) == -SignedTriArea(a, b, c)
  {
    AreaFormula(a, b, c);
    AreaFormula(a, c, b);
  }

  /** Rotating the corners keeps the area. */
  lemma SignedTriAreaCyclic(a: Float2, b: Float2, c: Float2)
    ensures SignedTriArea(b, c, a) == SignedTriArea(a, b, c)
  {
    AreaFormula(a, b, c);
    AreaFormula(b, c, a);
    var ux, uy, vx, vy := b.x - a.x, b.y - a.y, c.x - a.x, c.y - a.y;
    assert (a.x - b.x) * (c.y - b.y) - (a.y - b.y) * (c.x - b.x) == (-ux) * (vy - uy) - (-uy) * (vx - ux);
    assert (-ux) * (vy - uy) - (-uy) * (vx - ux) == vx * uy - vy * ux;
  }

  /** A repeated corner gives zero area. */
  lemma SignedTriAreaDegenerate(a: Float2, b: Float2, c: Float2)
    ensures SignedTriArea(a, a, c) == 0.0 && SignedTriArea(a, b, a) == 0.0 && SignedTriArea(a, b, b) == 0.0
  {
    AreaFormula(a, a, c);
    AreaFormula(a, b, a);
    AreaFormula(a, b, b);
  }

  /** The three sub-areas of `pointTriangleTest`, in the order (BCP, CAP, ABP) of the weights they give. */
  function SubAreas(a: Float2, b: Float2, c: Float2, p: Float2): Float3
  {
    Float3(SignedTriArea(b, c, p), SignedTriArea(c, a, p), SignedTriArea(a, b, p))
  }

  function Total(s: Float3): real { s.x + s.y + s.z }

  /** The sub-areas always add up to the area of the triangle itself, wherever p is. */
  lemma SubAreasTotal(a: Float2, b: Float2, c: Float2, p: Float2)
    ensures Total(SubAreas(a, b, c, p)) == SignedTriArea(a, b, c)
  {
    AreaFormula(b, c, p);
    AreaFormula(c, a, p);
    AreaFormula(a, b, p);
    AreaFormula(a, b, c);
  }

  /** The outcome of a point-in-triangle test: inside or not, and the barycentric weights when the triangle is not degenerate. */
  datatype TriTest = TriTest(inside: bool, bary: Option<Float3>)

  /**
   * `pointTriangleTest`: no weights and "outside" when the sub-areas sum to 0,
   * otherwise the sub-areas divided by their sum; the point is inside when the
   * three sub-areas are all >= 0 or all < 0.
   */
  function PointTriangleTest(a: Float2, b: Float2, c: Float2, p: Float2): (r: TriTest)
    ensures var s := SubAreas(a, b, c, p);
      && (Total(s) == 0.0 <==> r.bary.None?)
      && (r.inside <==> Total(s) != 0.0 && ((s.x >= 0.0 && s.y >= 0.0 && s.z >= 0.0) || (s.x < 0.0 && s.y < 0.0 && s.z < 0.0)))
      && (r.bary.Some? ==> Total(r.bary.value) == 1.0)
      && (r.bary.Some? ==> r.bary.value.x * Total(s) == s.x && r.bary.value.y * Total(s) == s.y && r.bary.value.z * Total(s) == s.z)
  {
    var s := SubAreas(a, b, c, p);
    var abp, bcp, cap := s.z, s.x, s.y;
    var total := abp + bcp + cap;
    if total == 0.0 then TriTest(false, None)
    else
      var inv := 1.0 / total;
      var bary := Float3(bcp * inv, cap * inv, abp * inv);
      assert Total(bary) == total * inv;
      TriTest((abp >= 0.0) == (bcp >= 0.0) && (abp >= 0.0) == (cap >= 0.0), Some(bary))
  }

  /** Weighting the corners by their sub-areas gives the point scaled by the total, in x and in y. */
  lemma SubAreasBlend(a: Float2, b: Float2, c: Float2, p: Float2)
    ensures var s := SubAreas(a, b, c, p);
      && s.x * a.x + s.y * b.x + s.z * c.x == Total(s) * p.x
      && s.x * a.y + s.y * b.y + s.z * c.y == Total(s) * p.y
  {
    AreaFormula(b, c, p);
    AreaFormula(c, a, p);
    AreaFormula(a, b, p);
  }

  /** The weights are barycentric coordinates: blending the corners with them gives back the point. */
  lemma BaryBlendsToPoint(a: Float2, b: Float2, c: Float2, p: Float2)
    requires PointTriangleTest(a, b, c, p).bary.Some?
    ensures var w := PointTriangleTest(a, b, c, p).bary.value;
      && w.x * a.x + w.y * b.x + w.z * c.x == p.x
      && w.x * a.y + w.y * b.y + w.z * c.y == p.y
  {
    var s := SubAreas(a, b, c, p);
    var w := PointTriangleTest(a, b, c, p).bary.value;
    var t := Total(s);
    SubAreasBlend(a, b, c, p);
    assert (w.x * a.x + w.y * b.x + w.z * c.x) * t == s.x * a.x + s.y * b.x + s.z * c.x;
    assert (w.x * a.y + w.y * b.y + w.z * c.y) * t == s.x * a.y + s.y * b.y + s.z * c.y;
  }

  /** A point found inside has weights that are all non-negative, each the share of its sub-area. */
  lemma InsideWeightsNonNegative(a: Float2, b: Float2, c: Float2, p: Float2)
    requires PointTriangleTest(a, b, c, p).inside
    ensures var w := PointTriangleTest(a, b, c, p).bary;
      w.Some? && w.value.x >= 0.0 && w.value.y >= 0.0 && w.value.z >= 0.0
  {
    var s := SubAreas(a, b, c, p);
    var total := Total(s);
    var inv := 1.0 / total;
    if total > 0.0 {
      assert inv > 0.0;
      assert s.x >= 0.0 && s.y >= 0.0 && s.z >= 0.0;
      assert s.x * inv >= 0.0 && s.y * inv >= 0.0 && s.z * inv >= 0.0;
    } else {
      assert inv < 0.0;
      assert s.x < 0.0 && s.y < 0.0 && s.z < 0.0;
      assert s.x * inv > 0.0 && s.y * inv > 0.0 && s.z * inv > 0.0;
    }
  }

  /** `pointTriangleTest` as written: the weights go into `baryOut`, which a degenerate triangle leaves untouched. */
  method PointTriangleTestInto(a: Float2, b: Float2, c: Float2, p: Float2, baryOut: Float3Cell) returns (inside: bool)
    modifies baryOut
    ensures inside == PointTriangleTest(a, b, c, p).inside
    ensures PointTriangleTest(a, b, c, p).bary.None? ==> baryOut.Value() == old(baryOut.Value())
    ensures PointTriangleTest(a, b, c, p).bary.Some? ==> baryOut.Value() == PointTriangleTest(a, b, c, p).bary.value
  {
    var areaABP := SignedTriArea(a, b, p);
    var areaBCP := SignedTriArea(b, c, p);
    var areaCAP := SignedTriArea(c, a, p);
    var totalArea := areaABP + areaBCP + areaCAP;
    if totalArea == 0.0 {
      return false;
    }
    var invTotalArea := 1.0 / totalArea;
    baryOut.Set(areaBCP * invTotalArea, areaCAP * invTotalArea, areaABP * invTotalArea);
    inside := (areaABP >= 0.0) == (areaBCP >= 0.0) && (areaABP >= 0.0) == (areaCAP >= 0.0);
  }

  /** Three basis vectors: the images of the x, y and z axes. */
  datatype Basis = Basis(i: Float3, j: Float3, k: Float3)

  function StandardBasis(): Basis
  {
    Basis(Float3(1.0, 0.0, 0.0), Float3(0.0, 1.0, 0.0), Float3(0.0, 0.0, 1.0))
  }

  /** `rotate(f3, iHat, jHat, kHat) = iHat f3.x + jHat f3.y + kHat f3.z`. */
  function Rotate(f: Float3, b: Basis): Float3
  {
    b.i.Scale(f.x).Add(b.j.Scale(f.y)).Add(b.k.Scale(f.z))
  }

  /** A combination of three vectors, dotted with w, is the same combination of their dot products. */
  lemma DotCombination(p: Float3, q: Float3, r: Float3, s: real, t: real, u: real, w: Float3)
    ensures p.Scale(s).Add(q.Scale(t)).Add(r.Scale(u)).Dot(w) == s * p.Dot(w) + t * q.Dot(w) + u * r.Dot(w)
  {
    DotAdd(p.Scale(s).Add(q.Scale(t)), r.Scale(u), w);
    DotAdd(p.Scale(s), q.Scale(t), w);
    DotScale(p, s, w);
    DotScale(q, t, w);
    DotScale(r, u, w);
  }

  /** `rotate` in coordinates. */
  lemma RotateCoordinates(f: Float3, b: Basis)
    ensures Rotate(f, b).x == b.i.x * f.x + b.j.x * f.y + b.k.x * f.z
    ensures Rotate(f, b).y == b.i.y * f.x + b.j.y * f.y + b.k.y * f.z
    ensures Rotate(f, b).z == b.i.z * f.x + b.j.z * f.y + b.k.z * f.z
  {}

  lemma DistributeScale(p: real, q: real, r: real, x: real, y: real, z: real, s: real)
    ensures p * (x * s) + q * (y * s) + r * (z * s) == (p * x + q * y + r * z) * s
  {}

  lemma DistributeAdd(p: real, q: real, r: real, x: real, y: real, z: real, x': real, y': real, z': real)
    ensures p * (x + x') + q * (y + y') + r * (z + z') == (p * x + q * y + r * z) + (p * x' + q * y' + r * z')
  {}

  /** `rotate` sends the axes to the basis vectors, and the standard basis leaves vectors alone. */
  lemma RotateAxes(f: Float3, b: Basis)
    ensures Rotate(Float3(1.0, 0.0, 0.0), b) == b.i
    ensures Rotate(Float3(0.0, 1.0, 0.0), b) == b.j
    ensures Rotate(Float3(0.0, 0.0, 1.0), b) == b.k
    ensures Rotate(f, StandardBasis()) == f
  {
    RotateCoordinates(Float3(1.0, 0.0, 0.0), b);
    RotateCoordinates(Float3(0.0, 1.0, 0.0), b);
    RotateCoordinates(Float3(0.0, 0.0, 1.0), b);
    RotateCoordinates(f, StandardBasis());
  }

  /** `rotate` is linear: it distributes over a sum ... */
  lemma RotateLinear(f: Float3, g: Float3, b: Basis)
    ensures Rotate(f.Add(g), b) == Rotate(f, b).Add(Rotate(g, b))
  {
    ScaleSum(b.i, f.x, g.x);
    ScaleSum(b.j, f.y, g.y);
    ScaleSum(b.k, f.z, g.z);
    AddShuffle(b.i.Scale(f.x), b.j.Scale(f.y), b.k.Scale(f.z), b.i.Scale(g.x), b.j.Scale(g.y), b.k.Scale(g.z));
  }

  /** ... and commutes with scaling. */
  lemma RotateHomogeneous(f: Float3, s: real, b: Basis)
    ensures Rotate(f.Scale(s), b) == Rotate(f, b).Scale(s)
  {
    var p, q, r := b.i.Scale(f.x), b.j.Scale(f.y), b.k.Scale(f.z);
    ScaleAdd(p.Add(q), r, s);
    ScaleAdd(p, q, s);
    ScaleScale(b.i, f.x, s);
    ScaleScale(b.j, f.y, s);
    ScaleScale(b.k, f.z, s);
    var g := f.Scale(s);
    assert g.x == f.x * s && g.y == f.y * s && g.z == f.z * s;
    calc {
      Rotate(g, b);
      b.i.Scale(g.x).Add(b.j.Scale(g.y)).Add(b.k.Scale(g.z));
      b.i.Scale(f.x * s).Add(b.j.Scale(f.y * s)).Add(b.k.Scale(f.z * s));
      p.Scale(s).Add(q.Scale(s)).Add(r.Scale(s));
      p.Add(q).Add(r).Scale(s);
    }
  }

  /** ... so it also distributes over a difference ... */
  lemma RotateSub(f: Float3, g: Float3, b: Basis)
    ensures Rotate(f.Sub(g), b) == Rotate(f, b).Sub(Rotate(g, b))
  {
    var m := g.Scale(-1.0);
    assert f.Sub(g) == f.Add(m);
    RotateLinear(f, m, b);
    RotateHomogeneous(g, -1.0, b);
    var rg := Rotate(g, b);
    assert Rotate(f, b).Add(rg.Scale(-1.0)) == Rotate(f, b).Sub(rg);
  }

  /** ... and over linear interpolation: the image of a blend is the blend of the images. */
  lemma RotateLerp(f: Float3, g: Float3, t: real, b: Basis)
    ensures Rotate(f.Lerp(g, t), b) == Rotate(f, b).Lerp(Rotate(g, b), t)
  {
    RotateLinear(f, g.Sub(f).Scale(t), b);
    RotateHomogeneous(g.Sub(f), t, b);
    RotateSub(g, f, b);
  }

  /** `getInverseBasisVectors`: the transpose, whose vectors are the rows of the original. */
  function Transpose(b: Basis): Basis
  {
    Basis(Float3(b.i.x, b.j.x, b.k.x), Float3(b.i.y, b.j.y, b.k.y), Float3(b.i.z, b.j.z, b.k.z))
  }

  lemma TransposeTwice(b: Basis)
    ensures Transpose(Transpose(b)) == b
    ensures Transpose(StandardBasis()) == StandardBasis()
  {}

  /** Unit basis vectors that are pairwise perpendicular. */
  predicate Orthonormal(b: Basis)
  {
    && b.i.Dot(b.i) == 1.0 && b.j.Dot(b.j) == 1.0 && b.k.Dot(b.k) == 1.0
    && b.i.Dot(b.j) == 0.0 && b.i.Dot(b.k) == 0.0 && b.j.Dot(b.k) == 0.0
  }

  /** The dot product of a rotated vector with a basis vector reads off one coordinate. */
  lemma RotateDotBasis(v: Float3, b: Basis)
    requires Orthonormal(b)
    ensures Rotate(v, b).Dot(b.i) == v.x
    ensures Rotate(v, b).Dot(b.j) == v.y
    ensures Rotate(v, b).Dot(b.k) == v.z
  {
    DotCombination(b.i, b.j, b.k, v.x, v.y, v.z, b.i);
    DotCombination(b.i, b.j, b.k, v.x, v.y, v.z, b.j);
    DotCombination(b.i, b.j, b.k, v.x, v.y, v.z, b.k);
  }

  /** For an orthonormal basis the transpose undoes the rotation, so it is the inverse the name promises. */
  lemma TransposeUndoesRotate(v: Float3, b: Basis)
    requires Orthonormal(b)
    ensures Rotate(Rotate(v, b), Transpose(b)) == v
  {
    var w := Rotate(v, b);
    RotateDotBasis(v, b);
    assert Rotate(w, Transpose(b)) == Float3(w.Dot(b.i), w.Dot(b.j), w.Dot(b.k));
  }

  /** A rotation by an orthonormal basis keeps dot products. */
  lemma RotateKeepsDot(u: Float3, v: Float3, b: Basis)
    requires Orthonormal(b)
    ensures Rotate(u, b).Dot(Rotate(v, b)) == u.Dot(v)
  {
    var w := Rotate(v, b);
    RotateDotBasis(v, b);
    DotCombination(b.i, b.j, b.k, u.x, u.y, u.z, w);
    assert b.i.Dot(w) == w.Dot(b.i) && b.j.Dot(w) == w.Dot(b.j) && b.k.Dot(w) == w.Dot(b.k);
  }

  /** Sine and cosine of an angle in degrees, supplied by the caller (`Math.sin(a * DEG_TO_RAD)`). */
  datatype Trig = Trig(sin: real -> real, cos: real -> real)

  predicate Pythagorean(trig: Trig, angle: real)
  {
    trig.sin(angle) * trig.sin(angle) + trig.cos(angle) * trig.cos(angle) == 1.0
  }

  function PitchBasis(s: real, c: real): Basis
  {
    Basis(Float3(1.0, 0.0, 0.0), Float3(0.0, c, -s), Float3(0.0, s, c))
  }

  function YawBasis(s: real, c: real): Basis
  {
    Basis(Float3(c, 0.0, s), Float3(0.0, 1.0, 0.0), Float3(-s, 0.0, c))
  }

  function RollBasis(s: real, c: real): Basis
  {
    Basis(Float3(c, s, 0.0), Float3(-s, c, 0.0), Float3(0.0, 0.0, 1.0))
  }

  /** Rotates each vector of `inner` by `outer`. */
  function Compose(inner: Basis, outer: Basis): Basis
  {
    Basis(Rotate(inner.i, outer), Rotate(inner.j, outer), Rotate(inner.k, outer))
  }

  /** `getBasisVectors(rot)`: pitch about x, then yaw about y, then roll about z, in degrees. */
  function GetBasisVectors(rot: Float3, trig: Trig): Basis
  {
    var pitch := PitchBasis(trig.sin(rot.x), trig.cos(rot.x));
    var yaw := YawBasis(trig.sin(rot.y), trig.cos(rot.y));
    var roll := RollBasis(trig.sin(rot.z), trig.cos(rot.z));
    Compose(roll, Compose(pitch, yaw))
  }

  lemma ElementaryOrthonormal(s: real, c: real)
    requires s * s + c * c == 1.0
    ensures Orthonormal(PitchBasis(s, c)) && Orthonormal(YawBasis(s, c)) && Orthonormal(RollBasis(s, c))
  {}

  /** Rotating an orthonormal basis by an orthonormal basis gives an orthonormal basis. */
  lemma ComposeOrthonormal(inner: Basis, outer: Basis)
    requires Orthonormal(inner) && Orthonormal(outer)
    ensures Orthonormal(Compose(inner, outer))
  {
    RotateKeepsDot(inner.i, inner.i, outer);
    RotateKeepsDot(inner.j, inner.j, outer);
    RotateKeepsDot(inner.k, inner.k, outer);
    RotateKeepsDot(inner.i, inner.j, outer);
    RotateKeepsDot(inner.i, inner.k, outer);
    RotateKeepsDot(inner.j, inner.k, outer);
  }

  lemma ComposedOrthonormal(sp: real, cp: real, sy: real, cy: real, sr: real, cr: real)
    requires sp * sp + cp * cp == 1.0 && sy * sy + cy * cy == 1.0 && sr * sr + cr * cr == 1.0
    ensures Orthonormal(Compose(RollBasis(sr, cr), Compose(PitchBasis(sp, cp), YawBasis(sy, cy))))
  {
    ElementaryOrthonormal(sp, cp);
    ElementaryOrthonormal(sy, cy);
    ElementaryOrthonormal(sr, cr);
    ComposeOrthonormal(PitchBasis(sp, cp), YawBasis(sy, cy));
    ComposeOrthonormal(RollBasis(sr, cr), Compose(PitchBasis(sp, cp), YawBasis(sy, cy)));
  }

  /** Whenever sin^2 + cos^2 = 1 for the three angles, `getBasisVectors` yields an orthonormal basis. */
  lemma BasisOrthonormal(rot: Float3, trig: Trig)
    requires Pythagorean(trig, rot.x) && Pythagorean(trig, rot.y) && Pythagorean(trig, rot.z)
    ensures Orthonormal(GetBasisVectors(rot, trig))
  {
    ComposedOrthonormal(trig.sin(rot.x), trig.cos(rot.x), trig.sin(rot.y), trig.cos(rot.y), trig.sin(rot.z), trig.cos(rot.z));
  }

  /** With sin 0 = 0 and cos 0 = 1, no rotation gives the standard axes. */
  lemma BasisOfNoRotation(trig: Trig)
    requires trig.sin(0.0) == 0.0 && trig.cos(0.0) == 1.0
    ensures GetBasisVectors(Zero(), trig) == StandardBasis()
  {
    var e := StandardBasis();
    assert PitchBasis(trig.sin(0.0), trig.cos(0.0)) == e;
    assert YawBasis(trig.sin(0.0), trig.cos(0.0)) == e;
    assert RollBasis(trig.sin(0.0), trig.cos(0.0)) == e;
    RotateAxes(e.i, e);
    RotateAxes(e.j, e);
    RotateAxes(e.k, e);
    assert Compose(e, e) == e;
  }

  /** What the maths functions read from a Transform: position, basis vectors and scale. */
  datatype Pose = Pose(pos: Float3, basis: Basis, scale: Float3)

  /** `transform(f3, transform)`: scale, rotate by the basis, then translate. */
  function TransformPoint(f: Float3, pose: Pose): (r: Float3)
    ensures f == Zero() ==> r == pose.pos
  {
    Rotate(f.Multiply(pose.scale), pose.basis).Add(pose.pos)
  }

  /** `transformTri`: each of the three vertices transformed, in order. */
  function TransformTri(tri: seq<Float3>, pose: Pose): (r: seq<Float3>)
    requires |tri| == 3
    ensures |r| == 3 && forall n :: 0 <= n < 3 ==> r[n] == TransformPoint(tri[n], pose)
  {
    [TransformPoint(tri[0], pose), TransformPoint(tri[1], pose), TransformPoint(tri[2], pose)]
  }

  /** `vertexToView`: relative to the camera position, rotated by the inverse (transposed) camera basis. */
  function VertexToView(vertex: Float3, camera: Pose): (r: Float3)
    ensures vertex == camera.pos ==> r == Zero()
  {
    Rotate(vertex.Sub(camera.pos), Transpose(camera.basis))
  }

  /** For an orthonormal camera basis, viewing a point placed at `pos + rotate(v)` recovers v. */
  lemma ViewUndoesPlacement(v: Float3, camera: Pose)
    requires Orthonormal(camera.basis)
    ensures VertexToView(Rotate(v, camera.basis).Add(camera.pos), camera) == v
  {
    AddSubDot(Rotate(v, camera.basis), camera.pos);
    TransposeUndoesRotate(v, camera.basis);
  }

  /** `triToView`: each vertex brought into view space, in order. */
  function TriToView(tri: seq<Float3>, camera: Pose): (r: seq<Float3>)
    requires |tri| == 3
    ensures |r| == 3 && forall n :: 0 <= n < 3 ==> r[n] == VertexToView(tri[n], camera)
  {
    [VertexToView(tri[0], camera), VertexToView(tri[1], camera), VertexToView(tri[2], camera)]
  }

  /** `vertexToScreen`: perspective division by z around the screen centre, keeping z as the depth. */
  function VertexToScreen(vertex: Float3, screenSize: Float2, zScale: real): (r: Float3)
    requires vertex.z != 0.0
    ensures r.z == vertex.z
    ensures vertex.x == 0.0 && vertex.y == 0.0 ==> r.x == screenSize.x / 2.0 && r.y == screenSize.y / 2.0
    ensures vertex.z > 0.0 && zScale > 0.0 ==> (r.x < screenSize.x / 2.0 <==> vertex.x > 0.0)
  {
    var k := zScale / vertex.z;
    var offset := Float2(-vertex.x, -vertex.y).Scale(k);
    var screenPos := screenSize.Scale(0.5).Add(offset);
    assert vertex.z > 0.0 && zScale > 0.0 ==> k > 0.0 && (-vertex.x * k < 0.0 <==> vertex.x > 0.0);
    Float3(screenPos.x, screenPos.y, vertex.z)
  }

  /** `triToScreen`: the three vertices projected, in order. */
  function TriToScreen(a: Float3, b: Float3, c: Float3, screenSize: Float2, zScale: real): (r: seq<Float3>)
    requires a.z != 0.0 && b.z != 0.0 && c.z != 0.0
    ensures |r| == 3 && r[0].z == a.z && r[1].z == b.z && r[2].z == c.z
  {
    [VertexToScreen(a, screenSize, zScale), VertexToScreen(b, screenSize, zScale), VertexToScreen(c, screenSize, zScale)]
  }
}
