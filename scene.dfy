/**
 * game_engine.scene.GameObject and game_engine.scene.Scene. The Java Scene is a
 * set of static fields; here it is one object whose fields are that state:
 * the model registry (falling back to the built-in error mesh), the object
 * registry keyed by name, the camera object and the sun.
 */
module Scenes {
  import opened Num
  import opened Vec
  import opened Wrappers
  import opened Maths
  import opened Mesh
  import opened Materials
  import opened Transforms

  /** The scripts of the repository; what their `update` does is not part of this model. */
  datatype ScriptKind = CameraScript | RotationScript | LightScript

  /** `Scene.errorModel`: a square with a diagonal cross, drawn when a model key is missing. */
  function ErrorModel(): (m: Model)
    ensures m.Valid()
    ensures |m.vertexes| == 12 && |m.uvs| == 4 && |m.normals| == 2 && m.TriangleCount() == 6
  {
    var m := Model(
      [Float3(1.0, 1.0, 0.0), Float3(-1.0, 1.0, 0.0),
       Float3(1.0, -1.0, 0.0), Float3(-1.0, -1.0, 0.0),
       Float3(1.0, 0.9, 0.0), Float3(0.9, 1.0, 0.0),
       Float3(-0.9, -1.0, 0.0), Float3(-1.0, -0.9, 0.0),
       Float3(-1.0, 0.9, 0.0), Float3(-0.9, 1.0, 0.0),
       Float3(0.9, -1.0, 0.0), Float3(1.0, -0.9, 0.0)],
      [Float2(0.0, 0.0), Float2(1.0, 0.0), Float2(0.0, 1.0), Float2(1.0, 1.0)],
      [Float3(0.0, 0.0, 1.0), Float3(0.0, 0.0, -1.0)],
      [Triangle(0, 3, 1, 1, 2, 0, 0), Triangle(0, 3, 2, 1, 2, 3, 0),
       Triangle(4, 7, 5, 0, 3, 1, 1), Triangle(4, 7, 6, 0, 3, 2, 1),
       Triangle(8, 11, 9, 0, 3, 1, 1), Triangle(8, 11, 10, 0, 3, 2, 1)]);
    ValidFromIndexes(m);
    m
  }

  function CubeVertexes(): seq<Float3>
  {
    [Float3(1.0, 1.0, 1.0), Float3(-1.0, 1.0, 1.0),
     Float3(1.0, -1.0, 1.0), Float3(-1.0, -1.0, 1.0),
     Float3(1.0, 1.0, -1.0), Float3(-1.0, 1.0, -1.0),
     Float3(1.0, -1.0, -1.0), Float3(-1.0, -1.0, -1.0)]
  }

  function CubeUVs(): seq<Float2>
  {
    [Float2(0.0, 0.0), Float2(0.5, 0.0), Float2(0.0, 0.25), Float2(0.5, 0.25),
     Float2(0.5, 0.0), Float2(1.0, 0.0), Float2(0.5, 0.25), Float2(1.0, 0.25),
     Float2(0.0, 0.25), Float2(0.5, 0.25), Float2(0.0, 0.5), Float2(0.5, 0.5),
     Float2(0.5, 0.25), Float2(1.0, 0.25), Float2(0.5, 0.5), Float2(1.0, 0.5),
     Float2(0.0, 0.5), Float2(0.5, 0.5), Float2(0.0, 0.75), Float2(0.5, 0.75),
     Float2(0.5, 0.5), Float2(1.0, 0.5), Float2(0.5, 0.75), Float2(1.0, 0.75)]
  }

  function CubeTriangles(): seq<Triangle>
  {
    [Triangle(0, 3, 1, 0, 3, 1, 0), Triangle(0, 3, 2, 0, 3, 2, 0),
     Triangle(4, 7, 5, 4, 7, 5, 1), Triangle(4, 7, 6, 4, 7, 6, 1),
     Triangle(0, 6, 2, 8, 11, 9, 2), Triangle(0, 6, 4, 8, 11, 10, 2),
     Triangle(1, 7, 3, 12, 15, 13, 3), Triangle(1, 7, 5, 12, 15, 14, 3),
     Triangle(0, 5, 1, 16, 19, 17, 4), Triangle(0, 5, 4, 16, 19, 18, 4),
     Triangle(2, 7, 3, 20, 23, 21, 5), Triangle(2, 7, 6, 20, 23, 22, 5)]
  }

  /** Every cube triangle indexes below 8 vertexes, 24 UVs and 6 normals. */
  lemma CubeTrianglesInside()
    ensures forall i :: 0 <= i < |CubeTriangles()| ==>
      CubeTriangles()[i].VertexesInside(8) && CubeTriangles()[i].UVsInside(24) && CubeTriangles()[i].NormalInside(6)
  {
    var ts := CubeTriangles();
    assert ts[0].VertexesInside(8) && ts[0].UVsInside(24) && ts[0].NormalInside(6);
    assert ts[11].VertexesInside(8) && ts[11].UVsInside(24) && ts[11].NormalInside(6);
  }

  /** The "cube" of `initializeScene`: 8 corners, 24 UVs, 6 outward normals, 12 triangles. */
  function Cube(): (m: Model)
    ensures m.Valid()
    ensures |m.vertexes| == 8 && |m.uvs| == 24 && |m.normals| == 6 && m.TriangleCount() == 12
  {
    var m := Model(CubeVertexes(), CubeUVs(),
      [Float3(0.0, 0.0, 1.0), Float3(0.0, 0.0, -1.0),
       Float3(1.0, 0.0, 0.0), Float3(-1.0, 0.0, 0.0),
       Float3(0.0, 1.0, 0.0), Float3(0.0, -1.0, 0.0)],
      CubeTriangles());
    CubeTrianglesInside();
    ValidFromIndexes(m);
    m
  }

  /** The "cubeInv" of `initializeScene`: the cube with every normal reversed. */
  function CubeInv(): (m: Model)
    ensures m.Valid()
    ensures m.vertexes == Cube().vertexes && m.uvs == Cube().uvs && m.triangles == Cube().triangles
    ensures |m.normals| == |Cube().normals| && forall n :: 0 <= n < |m.normals| ==> m.normals[n] == Cube().normals[n].Scale(-1.0)
  {
    var m := Model(CubeVertexes(), CubeUVs(),
      [Float3(0.0, 0.0, -1.0), Float3(0.0, 0.0, 1.0),
       Float3(-1.0, 0.0, 0.0), Float3(1.0, 0.0, 0.0),
       Float3(0.0, -1.0, 0.0), Float3(0.0, 1.0, 0.0)],
      CubeTriangles());
    CubeTrianglesInside();
    ValidFromIndexes(m);
    m
  }

  /** The "quad" of `initializeScene`: a unit square facing -z, two triangles. */
  function Quad(): (m: Model)
    ensures m.Valid()
    ensures |m.vertexes| == 4 && |m.uvs| == 4 && |m.normals| == 1 && m.TriangleCount() == 2
  {
    var m := Model(
      [Float3(1.0, 1.0, 0.0), Float3(-1.0, 1.0, 0.0), Float3(1.0, -1.0, 0.0), Float3(-1.0, -1.0, 0.0)],
      [Float2(0.0, 0.0), Float2(1.0, 0.0), Float2(0.0, 1.0), Float2(1.0, 1.0)],
      [Float3(0.0, 0.0, -1.0)],
      [Triangle(0, 3, 1, 0, 3, 1, 0), Triangle(0, 3, 2, 0, 3, 2, 0)]);
    ValidFromIndexes(m);
    m
  }

  /** `Scene.getModel(key)`: the stored model, or the error mesh for a key with no model. */
  function LookupModel(models: map<string, Model>, key: string): (m: Model)
    ensures key in models ==> m == models[key]
    ensures key !in models ==> m == ErrorModel()
  {
    if key in models then models[key] else ErrorModel()
  }

  /** Every stored model keeps its indexes inside its pools. */
  predicate AllValid(models: map<string, Model>)
  {
    forall k :: k in models ==> models[k].Valid()
  }

  /** A lookup in a registry of valid models always yields a valid model, the fallback included. */
  lemma LookupValid(models: map<string, Model>, key: string)
    requires AllValid(models)
    ensures LookupModel(models, key).Valid()
  {}

  /** Removing a key before storing under it, as `replaceModel` does, is the same as storing directly. */
  lemma ReplaceIsAdd(models: map<string, Model>, key: string, m: Model)
    ensures (models - {key})[key := m] == models[key := m]
  {}

  /** The vertexes of model triangle i placed by a pose: `transformTri` of `getTriVertexes`. */
  function PlacedVertexes(m: Model, i: int, pose: Pose): (r: seq<Float3>)
    requires m.Valid() && 0 <= i < m.TriangleCount()
    ensures |r| == 3 && forall n :: 0 <= n < 3 ==> r[n] == TransformPoint(m.GetTriVertexes(i)[n], pose)
  {
    TransformTri(m.GetTriVertexes(i), pose)
  }

  /** The normal of model triangle i turned by a basis: `rotate` of `getTriNormal`. */
  function PlacedNormal(m: Model, i: int, basis: Basis): (r: Float3)
    requires m.Valid() && 0 <= i < m.TriangleCount()
    ensures m.triangles[i].NormalInside(|m.normals|)
    ensures r == Rotate(m.normals[m.triangles[i].n], basis)
    ensures Orthonormal(basis) ==> r.Dot(r) == m.normals[m.triangles[i].n].Dot(m.normals[m.triangles[i].n])
  {
    var nrm := m.GetTriNormal(i);
    if Orthonormal(basis) then
      RotateKeepsDot(nrm, nrm, basis);
      Rotate(nrm, basis)
    else
      Rotate(nrm, basis)
  }

  /** The pose of an object at the origin, unrotated, at unit scale. */
  function IdentityPose(): Pose
  {
    Pose(Zero(), StandardBasis(), Float3(1.0, 1.0, 1.0))
  }

  /** The identity pose leaves a point where it is. */
  lemma IdentityPoseKeeps(f: Float3)
    ensures TransformPoint(f, IdentityPose()) == f
  {
    var g := f.Multiply(Float3(1.0, 1.0, 1.0));
    assert g == f;
    RotateAxes(f, StandardBasis());
  }

  /** At the identity pose, an object's triangle is the model's own triangle. */
  lemma PlacedAtIdentity(m: Model, i: int)
    requires m.Valid() && 0 <= i < m.TriangleCount()
    ensures PlacedVertexes(m, i, IdentityPose()) == m.GetTriVertexes(i)
    ensures PlacedNormal(m, i, StandardBasis()) == m.GetTriNormal(i)
  {
    var tri := m.GetTriVertexes(i);
    var r := PlacedVertexes(m, i, IdentityPose());
    IdentityPoseKeeps(tri[0]);
    IdentityPoseKeeps(tri[1]);
    IdentityPoseKeeps(tri[2]);
    assert r[0] == tri[0] && r[1] == tri[1] && r[2] == tri[2];
    RotateAxes(m.GetTriNormal(i), StandardBasis());
  }

  /** Moving an object translates every vertex by the same offset. */
  lemma PlacedTranslates(m: Model, i: int, pose: Pose, d: Float3)
    requires m.Valid() && 0 <= i < m.TriangleCount()
    ensures forall n :: 0 <= n < 3 ==>
      PlacedVertexes(m, i, pose.(pos := pose.pos.Add(d)))[n] == PlacedVertexes(m, i, pose)[n].Add(d)
  {}

  /** A game object: a named, placed instance of a model key, with an optional material and script. */
  class GameObject {
    var active: bool
    var name: string
    var transform: Transform
    var mat: Option<Material>
    var script: Option<ScriptKind>
    var modelKey: string

    predicate Valid()
      reads this, transform
    {
      transform.Valid()
    }

    /** The full constructor; every shorter one fills in defaults before reaching it. */
    constructor (name: string, model: string, xP: real, yP: real, zP: real, pR: real, yR: real, rR: real,
                 xS: real, yS: real, zS: real, mat: Option<Material>, script: Option<ScriptKind>, basisOf: Float3 -> Basis)
      ensures Valid() && fresh(transform)
      ensures active && this.name == name && modelKey == model && this.mat == mat && this.script == script
      ensures transform.pos == Float3(xP, yP, zP) && transform.scale == Float3(xS, yS, zS)
      ensures transform.rot == WrapAngles(Float3(pR, yR, rR)) && transform.basisOf == basisOf
    {
      active := true;
      this.name := name;
      modelKey := model;
      transform := new Transform(xP, yP, zP, pR, yR, rR, xS, yS, zS, basisOf);
      this.mat := mat;
      this.script := script;
    }

    /** One scale factor for all three axes. */
    constructor Uniform(name: string, model: string, xP: real, yP: real, zP: real, pR: real, yR: real, rR: real,
                        s: real, mat: Option<Material>, script: Option<ScriptKind>, basisOf: Float3 -> Basis)
      ensures Valid() && fresh(transform)
      ensures active && this.name == name && modelKey == model && this.mat == mat && this.script == script
      ensures transform.pos == Float3(xP, yP, zP) && transform.scale == Float3(s, s, s)
      ensures transform.rot == WrapAngles(Float3(pR, yR, rR)) && transform.basisOf == basisOf
    {
      active := true;
      this.name := name;
      modelKey := model;
      transform := new Transform(xP, yP, zP, pR, yR, rR, s, s, s, basisOf);
      this.mat := mat;
      this.script := script;
    }

    /** Position and rotation; unit scale. */
    constructor Rotated(name: string, model: string, xP: real, yP: real, zP: real, pR: real, yR: real, rR: real,
                        mat: Option<Material>, script: Option<ScriptKind>, basisOf: Float3 -> Basis)
      ensures Valid() && fresh(transform)
      ensures active && this.name == name && modelKey == model && this.mat == mat && this.script == script
      ensures transform.pos == Float3(xP, yP, zP) && transform.scale == Float3(1.0, 1.0, 1.0)
      ensures transform.rot == WrapAngles(Float3(pR, yR, rR)) && transform.basisOf == basisOf
    {
      active := true;
      this.name := name;
      modelKey := model;
      transform := new Transform(xP, yP, zP, pR, yR, rR, 1.0, 1.0, 1.0, basisOf);
      this.mat := mat;
      this.script := script;
    }

    /** Position only; no rotation, unit scale. */
    constructor Placed(name: string, model: string, xP: real, yP: real, zP: real,
                       mat: Option<Material>, script: Option<ScriptKind>, basisOf: Float3 -> Basis)
      ensures Valid() && fresh(transform)
      ensures active && this.name == name && modelKey == model && this.mat == mat && this.script == script
      ensures transform.pos == Float3(xP, yP, zP) && transform.scale == Float3(1.0, 1.0, 1.0)
      ensures transform.rot == Zero() && transform.basisOf == basisOf
    {
      active := true;
      this.name := name;
      modelKey := model;
      transform := new Transform(xP, yP, zP, 0.0, 0.0, 0.0, 1.0, 1.0, 1.0, basisOf);
      this.mat := mat;
      this.script := script;
    }

    /** At the origin, unrotated, unit scale. */
    constructor AtOrigin(name: string, model: string, mat: Option<Material>, script: Option<ScriptKind>, basisOf: Float3 -> Basis)
      ensures Valid() && fresh(transform)
      ensures active && this.name == name && modelKey == model && this.mat == mat && this.script == script
      ensures transform.pos == Zero() && transform.scale == Float3(1.0, 1.0, 1.0)
      ensures transform.rot == Zero() && transform.basisOf == basisOf
    {
      active := true;
      this.name := name;
      modelKey := model;
      transform := new Transform(0.0, 0.0, 0.0, 0.0, 0.0, 0.0, 1.0, 1.0, 1.0, basisOf);
      this.mat := mat;
      this.script := script;
    }

    /** `GameObject(name)`: the empty model key, no material, no script. */
    constructor Named(name: string, basisOf: Float3 -> Basis)
      ensures Valid() && fresh(transform)
      ensures active && this.name == name && modelKey == "" && mat.None? && script.None?
      ensures transform.pos == Zero() && transform.scale == Float3(1.0, 1.0, 1.0)
      ensures transform.rot == Zero() && transform.basisOf == basisOf
    {
      active := true;
      this.name := name;
      modelKey := "";
      transform := new Transform(0.0, 0.0, 0.0, 0.0, 0.0, 0.0, 1.0, 1.0, 1.0, basisOf);
      mat := None;
      script := None;
    }

    /** `getModel`: the scene's model under this object's key. */
    function GetModel(models: map<string, Model>): (m: Model)
      reads this
      ensures modelKey in models ==> m == models[modelKey]
      ensures modelKey !in models ==> m == ErrorModel()
    {
      LookupModel(models, modelKey)
    }

    /** `triangleCount`: the model's triangle count. */
    function TriangleCount(models: map<string, Model>): (k: nat)
      reads this
      ensures k == |GetModel(models).triangles|
      ensures modelKey !in models ==> k == 6
    {
      GetModel(models).TriangleCount()
    }

    /** `getTriVertexes(i)`: the model's triangle placed by this object's transform. */
    function GetTriVertexes(models: map<string, Model>, i: int): (r: seq<Float3>)
      reads this, transform
      requires GetModel(models).Valid() && 0 <= i < TriangleCount(models)
      ensures |r| == 3 && forall n :: 0 <= n < 3 ==> r[n] == TransformPoint(GetModel(models).GetTriVertexes(i)[n], transform.Pose())
    {
      PlacedVertexes(GetModel(models), i, transform.Pose())
    }

    /** `getTriUVs(i)`: the model's UVs; the transform is not read. */
    function GetTriUVs(models: map<string, Model>, i: int): (r: seq<Float2>)
      reads this
      requires GetModel(models).Valid() && 0 <= i < TriangleCount(models)
      ensures GetModel(models).triangles[i].UVsInside(|GetModel(models).uvs|)
      ensures var m := GetModel(models); var t := m.triangles[i];
        r == [m.uvs[t.uvA], m.uvs[t.uvB], m.uvs[t.uvC]]
    {
      GetModel(models).GetTriUVs(i)
    }

    /** `getTriNormal(i)`: the model's normal turned by the basis vectors only; position and scale are not read. */
    function GetTriNormal(models: map<string, Model>, i: int): (r: Float3)
      reads this, transform
      requires GetModel(models).Valid() && 0 <= i < TriangleCount(models)
      ensures GetModel(models).triangles[i].NormalInside(|GetModel(models).normals|)
      ensures var m := GetModel(models); r == Rotate(m.normals[m.triangles[i].n], transform.basisVectors)
      ensures Orthonormal(transform.basisVectors) ==>
        var nrm := GetModel(models).normals[GetModel(models).triangles[i].n]; r.Dot(r) == nrm.Dot(nrm)
    {
      PlacedNormal(GetModel(models), i, transform.basisVectors)
    }

    /** `updateScript`: the script to run on this object, if there is one; the object itself is not changed here. */
    method UpdateScript() returns (run: Option<ScriptKind>)
      ensures run == script
      ensures script.None? ==> run.None?
    {
      if script.Some? {
        run := script;
      } else {
        run := None;
      }
    }
  }

  class Scene {
    var dirToSun: Float3
    var sunAngle: Float2
    var envLight: real
    var camera: GameObject?
    var models: map<string, Model>
    var objects: map<string, GameObject>
    /** `Maths.getBasisVectors`, as for Transform. */
    const basisOf: Float3 -> Basis

    /** The static initial values: no sun angle, no ambient light, no camera, empty registries. */
    constructor (basisOf: Float3 -> Basis)
      ensures dirToSun == Zero() && sunAngle == Float2(0.0, 0.0) && envLight == 0.0
      ensures camera == null && models == map[] && objects == map[] && this.basisOf == basisOf
    {
      dirToSun := Zero();
      sunAngle := Float2(0.0, 0.0);
      envLight := 0.0;
      camera := null;
      models := map[];
      objects := map[];
      this.basisOf := basisOf;
    }

    /** `setSunAngle`: the sun direction is the third basis vector of the rotation (pitch, yaw, 0). */
    method SetSunAngle(angle: Float2)
      modifies this
      ensures sunAngle == angle && dirToSun == basisOf(angle.To3D()).k
      ensures envLight == old(envLight) && camera == old(camera) && models == old(models) && objects == old(objects)
    {
      sunAngle := angle;
      dirToSun := basisOf(Float3(sunAngle.x, sunAngle.y, 0.0)).k;
    }

    /** `updateCamera`: the camera object's script, which runs only when there is one. */
    method UpdateCamera() returns (run: Option<ScriptKind>)
      requires camera != null
      ensures run == camera.script
    {
      run := camera.UpdateScript();
    }

    /** `getModel(key)`. */
    function GetModel(key: string): (m: Model)
      reads this
      ensures key in models ==> m == models[key]
      ensures key !in models ==> m == ErrorModel()
    {
      LookupModel(models, key)
    }

    /** `addModel(key, model)`: stores or overwrites one key. */
    method AddModel(key: string, m: Model)
      modifies this
      ensures models == old(models)[key := m]
      ensures GetModel(key) == m && forall k :: k != key ==> GetModel(k) == old(GetModel(k))
      ensures objects == old(objects) && camera == old(camera)
      ensures sunAngle == old(sunAngle) && dirToSun == old(dirToSun) && envLight == old(envLight)
    {
      models := models[key := m];
    }

    /** `removeModel(key)`: afterwards the key reads as the error mesh. */
    method RemoveModel(key: string)
      modifies this
      ensures models == old(models) - {key}
      ensures GetModel(key) == ErrorModel() && forall k :: k != key ==> GetModel(k) == old(GetModel(k))
      ensures objects == old(objects) && camera == old(camera)
      ensures sunAngle == old(sunAngle) && dirToSun == old(dirToSun) && envLight == old(envLight)
    {
      models := models - {key};
    }

    /** `replaceModel(key, model)`: remove, then add, which is the same as adding. */
    method ReplaceModel(key: string, m: Model)
      modifies this
      ensures models == old(models)[key := m]
      ensures objects == old(objects) && camera == old(camera)
      ensures sunAngle == old(sunAngle) && dirToSun == old(dirToSun) && envLight == old(envLight)
    {
      RemoveModel(key);
      AddModel(key, m);
      ReplaceIsAdd(old(models), key, m);
    }

    /** `add(object)`: keyed by the object's name; an object of the same name is replaced. */
    method Add(obj: GameObject)
      modifies this
      ensures objects == old(objects)[obj.name := obj]
      ensures obj.name in old(objects) ==> ObjectCount() == old(ObjectCount())
      ensures obj.name !in old(objects) ==> ObjectCount() == old(ObjectCount()) + 1
      ensures models == old(models) && camera == old(camera)
      ensures sunAngle == old(sunAngle) && dirToSun == old(dirToSun) && envLight == old(envLight)
    {
      objects := objects[obj.name := obj];
    }

    /** `delete(name)`: afterwards no object has that name. */
    method Delete(name: string)
      modifies this
      ensures objects == old(objects) - {name}
      ensures GetObject(name).None?
      ensures models == old(models) && camera == old(camera)
      ensures sunAngle == old(sunAngle) && dirToSun == old(dirToSun) && envLight == old(envLight)
    {
      objects := objects - {name};
    }

    /** `getObject(name)`: None stands for Java's null. */
    function GetObject(name: string): (r: Option<GameObject>)
      reads this
      ensures r.Some? <==> name in objects
      ensures r.Some? ==> r.value == objects[name]
    {
      if name in objects then Some(objects[name]) else None
    }

    /** `getObject(index)`: some stored object; the HashMap's order is unspecified, so which one is not. */
    method GetObjectAt(index: int) returns (obj: GameObject)
      requires 0 <= index < ObjectCount()
      ensures obj in objects.Values
    {
      var name :| name in objects;
      obj := objects[name];
    }

    /** `objectCount`: the number of names in the registry. */
    function ObjectCount(): (n: nat)
      reads this
      ensures n == |objects.Keys|
    {
      |objects|
    }

    /** `initializeScene`: registers the built-in "cube", "cubeInv" and "quad" meshes. */
    method InitializeScene()
      modifies this
      ensures models == old(models)["cube" := Cube()]["cubeInv" := CubeInv()]["quad" := Quad()]
      ensures old(AllValid(models)) ==> AllValid(models)
      ensures objects == old(objects) && camera == old(camera)
      ensures sunAngle == old(sunAngle) && dirToSun == old(dirToSun) && envLight == old(envLight)
    {
      AddModel("cube", Cube());
      AddModel("cubeInv", CubeInv());
      AddModel("quad", Quad());
    }
  }
}
