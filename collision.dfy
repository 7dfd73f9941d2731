/**
 * game_engine.physics.collision: the closest point of a triangle to a
 * position, in clamped barycentric coordinates, and the search of
 * `uv_collision` for the triangle of an object nearest to a position.
 */
module Collision {
  import opened Num
  import opened Vec
  import opened Wrappers
  import opened Mesh

  /** Below this |D| a triangle is degenerate. */
  const DEGENERATE_EPS: real := 0.000001

  /** `{u, v, dist_sq}`: weight of V1, weight of V2, squared distance to the closest point. */
  datatype Closest = Closest(u: real, v: real, distSq: real)

  /** The branch of the clamping chain the unclamped coordinates fall in, tested in the source's order. */
  datatype Region = Face | AtV0 | AtV1 | AtV2 | EdgeV0V1 | EdgeV0V2 | EdgeV1V2 | Fallback

  function RegionOf(up: real, vp: real): (r: Region)
    ensures r == Face <==> (up >= 0.0 && vp >= 0.0 && up + vp <= 1.0)
  {
    if up >= 0.0 && vp >= 0.0 && up + vp <= 1.0 then Face
    else if up < 0.0 && vp < 0.0 then AtV0
    else if up > 1.0 && vp < 0.0 then AtV1
    else if up < 0.0 && vp > 1.0 then AtV2
    else if vp < 0.0 && up >= 0.0 && up <= 1.0 then EdgeV0V1
    else if up < 0.0 && vp >= 0.0 && vp <= 1.0 then EdgeV0V2
    else if up + vp > 1.0 then EdgeV1V2
    else Fallback
  }

  /** Over the reals the chain is exhaustive: its last "safe fallback" branch is never taken. */
  lemma FallbackUnreachable(up: real, vp: real)
    ensures RegionOf(up, vp) != Fallback
  {}

  /** The point v0 + u·e1 + v·e2 of the triangle's plane. */
  function PointAt(tri: seq<Float3>, u: real, v: real): Float3
    requires |tri| == 3
  {
    tri[0].Add(tri[1].Sub(tri[0]).Scale(u)).Add(tri[2].Sub(tri[0]).Scale(v))
  }

  /** D = |e1|²·|e2|² − (e1·e2)², the Gram determinant of the two edges. */
  function Gram(tri: seq<Float3>): real
    requires |tri| == 3
  {
    var e1, e2 := tri[1].Sub(tri[0]), tri[2].Sub(tri[0]);
    e1.Dot(e1) * e2.Dot(e2) - e1.Dot(e2) * e1.Dot(e2)
  }

  /**
   * a·b as a function of its own, so that facts about the squares of a
   * vector's components stay attached to one term each.
   */
  function Product(a: real, b: real): real
  {
    a * b
  }

  /** Two factors of the same sign have a positive product. */
  lemma ProductSameSign(a: real, b: real)
    requires (a > 0.0 && b > 0.0) || (a < 0.0 && b < 0.0)
    ensures Product(a, b) > 0.0
  {
    if a < 0.0 {
      MulPos(-a, -b);
    } else {
      MulPos(a, b);
    }
  }

  /** A square is never negative, and is positive for a non-zero number. */
  lemma SquareSign(a: real)
    ensures Product(a, a) >= 0.0
    ensures a != 0.0 ==> Product(a, a) > 0.0
  {
    if a != 0.0 {
      ProductSameSign(a, a);
    }
  }

  lemma DotSelf(w: Float3)
    ensures w.Dot(w) == Product(w.x, w.x) + Product(w.y, w.y) + Product(w.z, w.z)
  {}

  /** A squared length is never negative, and is positive for a non-zero vector. */
  lemma DotSign(w: Float3)
    ensures w.Dot(w) >= 0.0
    ensures w != Float3(0.0, 0.0, 0.0) ==> w.Dot(w) > 0.0
  {
    DotSelf(w);
    SquareSign(w.x);
    SquareSign(w.y);
    SquareSign(w.z);
  }

  /** When V1 = V2 the two edges coincide and D = 0, so a triangle that passes the degeneracy test has V1 ≠ V2. */
  lemma EdgeV1V2NonZero(tri: seq<Float3>)
    requires |tri| == 3 && AbsR(Gram(tri)) >= DEGENERATE_EPS
    ensures var d := tri[2].Sub(tri[0]).Sub(tri[1].Sub(tri[0])); d.Dot(d) > 0.0
  {
    var e1, e2 := tri[1].Sub(tri[0]), tri[2].Sub(tri[0]);
    var d := e2.Sub(e1);
    if d == Float3(0.0, 0.0, 0.0) {
      assert false;
    }
    DotSign(d);
  }

  /**
   * `closest_point_on_triangle(p, tri)`: None for a degenerate triangle,
   * otherwise the clamped (u, v) of the point of the triangle nearest to
   * the projection of p, and the squared distance from p to it.
   */
  function ClosestPoint(p: Float3, tri: seq<Float3>): (r: Option<Closest>)
    requires |tri| == 3
    ensures r.None? <==> AbsR(Gram(tri)) < DEGENERATE_EPS
    ensures r.Some? ==> r.value == Nearest(p, tri)
  {
    if AbsR(Gram(tri)) < DEGENERATE_EPS then None else Some(Nearest(p, tri))
  }

  /**
   * The non-degenerate case of `ClosestPoint`: (u, v) lie in the triangle
   * and distSq is the squared distance from p to the point they name.
   */
  function Nearest(p: Float3, tri: seq<Float3>): (c: Closest)
    requires |tri| == 3 && AbsR(Gram(tri)) >= DEGENERATE_EPS
    ensures 0.0 <= c.u <= 1.0 && 0.0 <= c.v <= 1.0 && c.u + c.v <= 1.0
    ensures c.distSq == DistSq(p, PointAt(tri, c.u, c.v))
  {
    var pr := Projection(p, tri);
    var uv := Clamp(p, tri, pr.x, pr.y);
    Closest(uv.x, uv.y, DistSq(p, PointAt(tri, uv.x, uv.y)))
  }

  /** |a − b|²: never negative, and zero exactly when the points coincide. */
  function DistSq(a: Float3, b: Float3): (r: real)
    ensures r >= 0.0
    ensures r == 0.0 <==> a == b
  {
    var d := a.Sub(b);
    assert d == Float3(0.0, 0.0, 0.0) <==> a == b;
    DotSign(d);
    d.Dot(d)
  }

  /** The clamped (u, v) for the region the unclamped (up, vp) fall in. */
  function Clamp(p: Float3, tri: seq<Float3>, up: real, vp: real): (uv: Float2)
    requires |tri| == 3 && AbsR(Gram(tri)) >= DEGENERATE_EPS
    ensures 0.0 <= uv.x <= 1.0 && 0.0 <= uv.y <= 1.0 && uv.x + uv.y <= 1.0
  {
    match RegionOf(up, vp)
    case Face => Float2(up, vp)
    case AtV0 => Float2(0.0, 0.0)
    case AtV1 => Float2(1.0, 0.0)
    case AtV2 => Float2(0.0, 1.0)
    case EdgeV0V1 => Float2(up, 0.0)
    case EdgeV0V2 => Float2(0.0, vp)
    case EdgeV1V2 =>
      var t := EdgeParameter(p, tri);
      Float2(1.0 - t, t)
    case Fallback => Float2(0.0, 0.0)
  }

  /** `t = max(0, min(1, dot / len_sq))`: the clamped position along V1→V2 of the projection of p. */
  function EdgeParameter(p: Float3, tri: seq<Float3>): (t: real)
    requires |tri| == 3 && AbsR(Gram(tri)) >= DEGENERATE_EPS
    ensures 0.0 <= t <= 1.0
  {
    var e1, e2 := tri[1].Sub(tri[0]), tri[2].Sub(tri[0]);
    var d := e2.Sub(e1);
    EdgeV1V2NonZero(tri);
    MaxR(0.0, MinR(1.0, d.Dot(p.Sub(tri[1])) / d.Dot(d)))
  }

  /** The unclamped barycentric coordinates of the projection of p, for a non-degenerate triangle. */
  function Projection(p: Float3, tri: seq<Float3>): Float2
    requires |tri| == 3 && AbsR(Gram(tri)) >= DEGENERATE_EPS
  {
    var e1, e2, pv0 := tri[1].Sub(tri[0]), tri[2].Sub(tri[0]), p.Sub(tri[0]);
    var dot01, dot02, dot12 := e1.Dot(e2), e1.Dot(pv0), e2.Dot(pv0);
    var D := Gram(tri);
    Float2((e2.Dot(e2) * dot02 - dot01 * dot12) / D, (e1.Dot(e1) * dot12 - dot01 * dot02) / D)
  }

  /** The case analysis of `ClosestPoint`, by region of the projection. */
  lemma ClosestByRegion(p: Float3, tri: seq<Float3>)
    requires |tri| == 3 && AbsR(Gram(tri)) >= DEGENERATE_EPS
    ensures var pr := Projection(p, tri); var c := ClosestPoint(p, tri).value;
      && (RegionOf(pr.x, pr.y) == Face ==> c.u == pr.x && c.v == pr.y)
      && (RegionOf(pr.x, pr.y) == AtV0 ==> c.u == 0.0 && c.v == 0.0)
      && (RegionOf(pr.x, pr.y) == AtV1 ==> c.u == 1.0 && c.v == 0.0)
      && (RegionOf(pr.x, pr.y) == AtV2 ==> c.u == 0.0 && c.v == 1.0)
      && (RegionOf(pr.x, pr.y) == EdgeV0V1 ==> c.u == pr.x && c.v == 0.0)
      && (RegionOf(pr.x, pr.y) == EdgeV0V2 ==> c.u == 0.0 && c.v == pr.y)
      && (RegionOf(pr.x, pr.y) == EdgeV1V2 ==> c.u + c.v == 1.0 && c.v == EdgeParameter(p, tri))
  {}

  /** A projection inside the triangle is its own closest point: the face case returns it unchanged. */
  lemma InsideUnchanged(p: Float3, tri: seq<Float3>)
    requires |tri| == 3 && AbsR(Gram(tri)) >= DEGENERATE_EPS
    requires var pr := Projection(p, tri); pr.x >= 0.0 && pr.y >= 0.0 && pr.x + pr.y <= 1.0
    ensures var pr := Projection(p, tri); ClosestPoint(p, tri) == Some(Closest(pr.x, pr.y, ClosestPoint(p, tri).value.distSq))
  {
    ClosestByRegion(p, tri);
  }

  /** The candidate of triangle i of the model: its closest point to pos, if it is not degenerate. */
  function Candidate(pos: Float3, m: Model, i: int): Option<Closest>
    requires m.Valid() && 0 <= i < m.TriangleCount()
  {
    ClosestPoint(pos, m.GetTriVertexes(i))
  }

  /** Does triangle i qualify against the running minimum d (`dist_sq < min_dist_sq`)? */
  predicate Beats(pos: Float3, m: Model, i: int, d: real)
    requires m.Valid() && 0 <= i < m.TriangleCount()
  {
    Candidate(pos, m, i).Some? && Candidate(pos, m, i).value.distSq < d
  }

  /** The running minimum after triangles 0 <= i < n, starting from `Double.MAX_VALUE`. */
  function MinDist(pos: Float3, m: Model, n: int): (d: real)
    requires m.Valid() && 0 <= n <= m.TriangleCount()
    ensures d <= DOUBLE_MAX
    decreases n
  {
    if n == 0 then DOUBLE_MAX
    else
      var d := MinDist(pos, m, n - 1);
      if Beats(pos, m, n - 1, d) then Candidate(pos, m, n - 1).value.distSq else d
  }

  /** The triangle chosen after triangles 0 <= i < n: the last one that beat the running minimum. */
  function Best(pos: Float3, m: Model, n: int): (b: Option<nat>)
    requires m.Valid() && 0 <= n <= m.TriangleCount()
    ensures b.Some? ==> b.value < n && Beats(pos, m, b.value, MinDist(pos, m, b.value))
    ensures b.Some? ==> Candidate(pos, m, b.value).value.distSq == MinDist(pos, m, n)
    ensures b.None? ==> MinDist(pos, m, n) == DOUBLE_MAX
    decreases n
  {
    if n == 0 then None
    else if Beats(pos, m, n - 1, MinDist(pos, m, n - 1)) then Some(n - 1)
    else Best(pos, m, n - 1)
  }

  /** The running minimum only decreases, and is no larger than any qualifying candidate seen so far. */
  lemma {:induction false} MinDistBelow(pos: Float3, m: Model, n: int, i: int)
    requires m.Valid() && 0 <= i < n <= m.TriangleCount()
    requires Candidate(pos, m, i).Some?
    ensures MinDist(pos, m, n) <= Candidate(pos, m, i).value.distSq
    decreases n
  {
    if i < n - 1 {
      MinDistBelow(pos, m, n - 1, i);
    }
  }

  /**
   * The chosen triangle is a nearest one, and the first of the nearest:
   * every qualifying triangle is at least as far, and every earlier one is
   * strictly farther.
   */
  lemma {:induction false} BestIsFirstNearest(pos: Float3, m: Model, n: int)
    requires m.Valid() && 0 <= n <= m.TriangleCount() && Best(pos, m, n).Some?
    ensures var k := Best(pos, m, n).value; var dk := Candidate(pos, m, k).value.distSq;
      && (forall i :: 0 <= i < n && Candidate(pos, m, i).Some? ==> dk <= Candidate(pos, m, i).value.distSq)
      && (forall i :: 0 <= i < k && Candidate(pos, m, i).Some? ==> dk < Candidate(pos, m, i).value.distSq)
    decreases n
  {
    var k := Best(pos, m, n).value;
    var dk := Candidate(pos, m, k).value.distSq;
    forall i | 0 <= i < n && Candidate(pos, m, i).Some?
      ensures dk <= Candidate(pos, m, i).value.distSq
    {
      MinDistBelow(pos, m, n, i);
    }
    forall i | 0 <= i < k && Candidate(pos, m, i).Some?
      ensures dk < Candidate(pos, m, i).value.distSq
    {
      EarlierFarther(pos, m, k, i);
    }
  }

  /** The triangle that beats the minimum of those before it is strictly nearer than every earlier one. */
  lemma EarlierFarther(pos: Float3, m: Model, k: int, i: int)
    requires m.Valid() && 0 <= i < k < m.TriangleCount()
    requires Beats(pos, m, k, MinDist(pos, m, k)) && Candidate(pos, m, i).Some?
    ensures Candidate(pos, m, k).value.distSq < Candidate(pos, m, i).value.distSq
  {
    MinDistBelow(pos, m, k, i);
  }

  /** No triangle is chosen exactly when none qualifies: each is degenerate or at least `Double.MAX_VALUE` away. */
  lemma {:induction false} BestNoneIff(pos: Float3, m: Model, n: int)
    requires m.Valid() && 0 <= n <= m.TriangleCount()
    ensures Best(pos, m, n).None? <==> forall i :: 0 <= i < n ==> !Beats(pos, m, i, DOUBLE_MAX)
    decreases n
  {
    if n > 0 {
      BestNoneIff(pos, m, n - 1);
    }
  }

  /** `UV = w·UV0 + u·UV1 + v·UV2` with the fixed test UVs (0,0), (1,0), (0,1) of `uv_collision`. */
  function OverrideUV(c: Closest): (uv: Float2)
    ensures uv == Float2(c.u, c.v)
  {
    var w := 1.0 - c.u - c.v;
    var uv0, uv1, uv2 := Float2(0.0, 0.0), Float2(1.0, 0.0), Float2(0.0, 1.0);
    Float2(w * uv0.x + c.u * uv1.x + c.v * uv2.x, w * uv0.y + c.u * uv1.y + c.v * uv2.y)
  }

  /** What `uv_collision` returns for the object the collision query found: its name and model. */
  function UVCollision(name: string, m: Model, pos: Float3): (r: Option<Float2>)
    requires m.Valid()
    ensures name == "none" ==> r.None?
    ensures r.Some? ==> 0.0 <= r.value.x && 0.0 <= r.value.y && r.value.x + r.value.y <= 1.0
  {
    if name == "none" then None
    else
      match Best(pos, m, m.TriangleCount())
      case None => None
      case Some(k) => Some(OverrideUV(Candidate(pos, m, k).value))
  }

  /** The loop of `uv_collision`: the running minimum and UV updated triangle by triangle. */
  method UVCollisionLoop(name: string, m: Model, pos: Float3) returns (finalUV: Option<Float2>)
    requires m.Valid()
    ensures finalUV == UVCollision(name, m, pos)
  {
    if name == "none" {
      return None;
    }
    var triangles := m.TriangleCount();
    var minDistSq := DOUBLE_MAX;
    finalUV := None;
    var i := 0;
    while i < triangles
      invariant 0 <= i <= triangles
      invariant minDistSq == MinDist(pos, m, i)
      invariant finalUV == match Best(pos, m, i) case None => None case Some(k) => Some(OverrideUV(Candidate(pos, m, k).value))
    {
      var baryAndDist := ClosestPoint(pos, m.GetTriVertexes(i));
      if baryAndDist.Some? {
        var c := baryAndDist.value;
        if c.distSq < minDistSq {
          minDistSq := c.distSq;
          finalUV := Some(OverrideUV(c));
        }
      }
      i := i + 1;
    }
  }
}
