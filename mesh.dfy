/**
 * game_engine.scene.Triangle and game_engine.scene.Model: a triangle is seven
 * indices (three vertexes, three UVs, one normal) into the pools of its model.
 * Both are immutable, so both are values here. A Java array read outside its
 * bounds throws; here every lookup requires its index to be inside its pool.
 */
module Mesh {
  import opened Vec

  datatype Triangle = Triangle(a: int, b: int, c: int, uvA: int, uvB: int, uvC: int, n: int)
  {
    predicate VertexesInside(vertexCount: nat) { 0 <= a < vertexCount && 0 <= b < vertexCount && 0 <= c < vertexCount }
    predicate UVsInside(uvCount: nat) { 0 <= uvA < uvCount && 0 <= uvB < uvCount && 0 <= uvC < uvCount }
    predicate NormalInside(normalCount: nat) { 0 <= n < normalCount }

    /** `getVertexes`: the three corner positions, in the order A, B, C. */
    function GetVertexes(vertexes: seq<Float3>): (r: seq<Float3>)
      requires VertexesInside(|vertexes|)
      ensures |r| == 3 && r[0] == vertexes[a] && r[1] == vertexes[b] && r[2] == vertexes[c]
    {
      [vertexes[a], vertexes[b], vertexes[c]]
    }

    /** `getUVs`: the three corner UVs, in the order uvA, uvB, uvC. */
    function GetUVs(uvs: seq<Float2>): (r: seq<Float2>)
      requires UVsInside(|uvs|)
      ensures |r| == 3 && r[0] == uvs[uvA] && r[1] == uvs[uvB] && r[2] == uvs[uvC]
    {
      [uvs[uvA], uvs[uvB], uvs[uvC]]
    }

    /** `getNormal`: the face normal. */
    function GetNormal(normals: seq<Float3>): (r: Float3)
      requires NormalInside(|normals|)
      ensures r == normals[n] && r in normals
    {
      normals[n]
    }
  }

  datatype Model = Model(vertexes: seq<Float3>, uvs: seq<Float2>, normals: seq<Float3>, triangles: seq<Triangle>)
  {
    /** Every triangle indexes inside the vertex, UV and normal pools. */
    predicate Valid()
    {
      forall t :: t in triangles ==> t.VertexesInside(|vertexes|) && t.UVsInside(|uvs|) && t.NormalInside(|normals|)
    }

    /** `triangleCount`: the length of the triangle array. */
    function TriangleCount(): (k: nat)
      ensures k == |triangles|
    {
      |triangles|
    }

    /** `getTriVertexes(i)`: triangle i's corners, read from the vertex pool. */
    function GetTriVertexes(i: int): (r: seq<Float3>)
      requires Valid() && 0 <= i < TriangleCount()
      ensures |r| == 3 && forall k :: 0 <= k < 3 ==> r[k] in vertexes
      ensures r == triangles[i].GetVertexes(vertexes)
    {
      triangles[i].GetVertexes(vertexes)
    }

    /** `getTriUVs(i)`: the same triangle's UVs, read from the UV pool. */
    function GetTriUVs(i: int): (r: seq<Float2>)
      requires Valid() && 0 <= i < TriangleCount()
      ensures |r| == 3 && forall k :: 0 <= k < 3 ==> r[k] in uvs
      ensures triangles[i].UVsInside(|uvs|)
      ensures r == [uvs[triangles[i].uvA], uvs[triangles[i].uvB], uvs[triangles[i].uvC]]
    {
      triangles[i].GetUVs(uvs)
    }

    /** `getTriNormal(i)`: the same triangle's normal, read from the normal pool. */
    function GetTriNormal(i: int): (r: Float3)
      requires Valid() && 0 <= i < TriangleCount()
      ensures r in normals
      ensures triangles[i].NormalInside(|normals|)
      ensures r == normals[triangles[i].n]
    {
      triangles[i].GetNormal(normals)
    }
  }

  /** Valid stated triangle by triangle, the form in which a literal mesh is checked. */
  lemma ValidFromIndexes(m: Model)
    requires forall i :: 0 <= i < |m.triangles| ==>
      m.triangles[i].VertexesInside(|m.vertexes|) && m.triangles[i].UVsInside(|m.uvs|) && m.triangles[i].NormalInside(|m.normals|)
    ensures m.Valid()
  {
    forall t | t in m.triangles
      ensures t.VertexesInside(|m.vertexes|) && t.UVsInside(|m.uvs|) && t.NormalInside(|m.normals|)
    {
      var i :| 0 <= i < |m.triangles| && m.triangles[i] == t;
    }
  }
}
