/**
 * game_engine.render.Camera: the two per-pixel buffers and the loops that
 * fill them. `ResetBuffers` is the frame-start clear of `paintComponent`,
 * `DrawTriangle` the nested pixel loop of `drawTriangle`, `RenderTriangle`
 * the cull-and-clip dispatch of `renderTriangle`, `RenderObject` the
 * per-triangle loop of `renderObject` and `RenderFrame` the object loop of
 * `paintComponent`. Each is proved against a pure description of the grid
 * of cells it leaves behind (`Step`, `ApplyAll`), and properties of single
 * cells (`CellAfter`, `CellAfterAll`) carry over to the grid (`ApplyAllAt`).
 */
module Render {
  import opened Num
  import opened Vec
  import opened Wrappers
  import opened Maths
  import opened Mesh
  import opened Materials
  import opened Shaders
  import opened Clip
  import opened Raster
  import opened Scenes

  /** What one pixel holds: the depth-buffer value and the packed colour. */
  datatype Cell = Cell(depth: real, color: int)

  /** The contents of a cell after one `drawTriangle` call: the pixel write when there is one inside the box, otherwise the old contents. */
  function CellAfter(s: Settings, call: DrawCall, x: int, y: int, c: Cell): (r: Cell)
    requires call.Valid() && s.resX > 0 && s.resY > 0
    ensures !BoundingBox(call.tri, s.resX, s.resY).Contains(x, y) ==> r == c
    ensures r != c ==> PointTriangleTest(call.tri[0].To2D(), call.tri[1].To2D(), call.tri[2].To2D(), Float2(x as real, y as real)).inside
    ensures !s.showOverdraw ==> r.depth <= c.depth
    ensures !s.showOverdraw && r.depth != c.depth ==> 0.0 < r.depth < c.depth
    ensures PixelWrite(s, call, x, y, c.depth).None? ==> r == c
    ensures BoundingBox(call.tri, s.resX, s.resY).Contains(x, y) && PixelWrite(s, call, x, y, c.depth).Some? ==>
      var w := PixelWrite(s, call, x, y, c.depth).value;
      r.depth == w.depth && r.color == w.color
  {
    if BoundingBox(call.tri, s.resX, s.resY).Contains(x, y) then
      match PixelWrite(s, call, x, y, c.depth)
      case Some(w) => Cell(w.depth, w.color)
      case None => c
    else c
  }

  /** A discarded fragment (`continue` in the pixel loop) leaves both buffers' cell as it was, whatever the depth test said. */
  lemma DiscardKeepsCell(s: Settings, call: DrawCall, x: int, y: int, c: Cell)
    requires call.Valid() && s.resX > 0 && s.resY > 0
    requires PixelTest(call, x, y).inside && PixelShade(s, call, x, y).None?
    ensures !s.shaderStatus
    ensures CellAfter(s, call, x, y, c) == c
  {
  }

  /** All the calls are drawable. */
  predicate AllValid(calls: seq<DrawCall>)
  {
    forall call :: call in calls ==> call.Valid()
  }

  /** The contents of a cell after the calls, drawn in order, starting from c. */
  function CellAfterAll(s: Settings, calls: seq<DrawCall>, x: int, y: int, c: Cell): (r: Cell)
    requires AllValid(calls) && s.resX > 0 && s.resY > 0
    decreases |calls|
  {
    if calls == [] then c
    else CellAfter(s, calls[|calls| - 1], x, y, CellAfterAll(s, calls[..|calls| - 1], x, y, c))
  }


  /** The two buffers as one value: column x, row y. */
  type Grid = seq<seq<Cell>>

  /** A grid of w columns of h cells. */
  predicate Shaped(g: Grid, w: int, h: int)
  {
    |g| == w && forall x :: 0 <= x < w ==> |g[x]| == h
  }

  /** One `drawTriangle` call applied to every cell of the grid. */
  function Step(s: Settings, call: DrawCall, g: Grid): (r: Grid)
    requires call.Valid() && s.resX > 0 && s.resY > 0
    ensures |r| == |g| && forall x :: 0 <= x < |g| ==> |r[x]| == |g[x]|
  {
    seq(|g|, x requires 0 <= x < |g| => seq(|g[x]|, y requires 0 <= y < |g[x]| => CellAfter(s, call, x, y, g[x][y])))
  }

  /** The calls applied in order to every cell of the grid. */
  function ApplyAll(s: Settings, calls: seq<DrawCall>, g: Grid): (r: Grid)
    requires AllValid(calls) && s.resX > 0 && s.resY > 0
    ensures |r| == |g| && forall x :: 0 <= x < |g| ==> |r[x]| == |g[x]|
    decreases |calls|
  {
    if calls == [] then g
    else Step(s, calls[|calls| - 1], ApplyAll(s, calls[..|calls| - 1], g))
  }

  /** Each cell of the result is that cell's own history: the calls only ever combine a cell with itself. */
  lemma {:induction false} ApplyAllAt(s: Settings, calls: seq<DrawCall>, g: Grid, x: int, y: int)
    requires AllValid(calls) && s.resX > 0 && s.resY > 0
    requires 0 <= x < |g| && 0 <= y < |g[x]|
    ensures ApplyAll(s, calls, g)[x][y] == CellAfterAll(s, calls, x, y, g[x][y])
    decreases |calls|
  {
    if calls != [] {
      ApplyAllAt(s, calls[..|calls| - 1], g, x, y);
    }
  }

  /** Drawing a + b is drawing a, then b. */
  lemma {:induction false} ApplyAllAppend(s: Settings, a: seq<DrawCall>, b: seq<DrawCall>, g: Grid)
    requires AllValid(a) && AllValid(b) && s.resX > 0 && s.resY > 0
    ensures AllValid(a + b)
    ensures ApplyAll(s, a + b, g) == ApplyAll(s, b, ApplyAll(s, a, g))
    decreases |b|
  {
    if b == [] {
      assert a + b == a;
    } else {
      var b' := b[..|b| - 1];
      assert (a + b)[..|a + b| - 1] == a + b';
      assert (a + b)[|a + b| - 1] == b[|b| - 1];
      ApplyAllAppend(s, a, b', g);
    }
  }

  lemma ApplyOne(s: Settings, calls: seq<DrawCall>, g: Grid)
    requires AllValid(calls) && |calls| == 1 && s.resX > 0 && s.resY > 0
    ensures ApplyAll(s, calls, g) == Step(s, calls[0], g)
  {
    assert calls[..0] == [];
  }

  lemma ApplyTwo(s: Settings, calls: seq<DrawCall>, g: Grid)
    requires AllValid(calls) && |calls| == 2 && s.resX > 0 && s.resY > 0
    ensures ApplyAll(s, calls, g) == Step(s, calls[1], Step(s, calls[0], g))
  {
    assert calls[..1] == [calls[0]];
    ApplyOne(s, calls[..1], g);
  }

  /** The grid `paintComponent` starts each frame from: every depth `Float.MAX_VALUE`, every colour black. */
  function Cleared(w: nat, h: nat): (g: Grid)
    ensures Shaped(g, w, h)
    ensures forall x, y :: 0 <= x < w && 0 <= y < h ==> g[x][y] == Cell(FLOAT_MAX, 0)
  {
    seq(w, x => seq(h, y => Cell(FLOAT_MAX, 0)))
  }

  /**
   * Outside overdraw mode the depth test makes the stored depth only go down,
   * whatever the calls; a cell whose depth changed holds a positive depth.
   */
  lemma {:induction false} DepthNeverIncreases(s: Settings, calls: seq<DrawCall>, x: int, y: int, c: Cell)
    requires AllValid(calls) && s.resX > 0 && s.resY > 0 && !s.showOverdraw
    ensures CellAfterAll(s, calls, x, y, c).depth <= c.depth
    ensures CellAfterAll(s, calls, x, y, c).depth != c.depth ==> CellAfterAll(s, calls, x, y, c).depth > 0.0
    decreases |calls|
  {
    if calls != [] {
      DepthNeverIncreases(s, calls[..|calls| - 1], x, y, c);
    }
  }

  /** In overdraw mode whether a pixel is written does not depend on what is stored there. */
  lemma OverdrawWriteIgnoresStored(s: Settings, call: DrawCall, x: int, y: int, d1: real, d2: real)
    requires call.Valid() && s.resX > 0 && s.resY > 0 && s.showOverdraw
    ensures PixelWrite(s, call, x, y, d1).Some? <==> PixelWrite(s, call, x, y, d2).Some?
  {}

  /** In overdraw mode: does this call write the pixel (with any stored value)? */
  predicate Covers(s: Settings, call: DrawCall, x: int, y: int)
    requires call.Valid() && s.resX > 0 && s.resY > 0
  {
    BoundingBox(call.tri, s.resX, s.resY).Contains(x, y) && PixelWrite(s, call, x, y, FLOAT_MAX).Some?
  }

  /** How many of the calls write the pixel. */
  function CoverCount(s: Settings, calls: seq<DrawCall>, x: int, y: int): (n: nat)
    requires AllValid(calls) && s.resX > 0 && s.resY > 0
    ensures n <= |calls|
    decreases |calls|
  {
    if calls == [] then 0
    else CoverCount(s, calls[..|calls| - 1], x, y) + (if Covers(s, calls[|calls| - 1], x, y) then 1 else 0)
  }

  /**
   * Overdraw mode counts writes: starting from the cleared value FLOAT_MAX,
   * a pixel covered by n >= 1 of the calls ends up holding n, and an
   * uncovered one still holds FLOAT_MAX.
   */
  lemma {:induction false} OverdrawCounts(s: Settings, calls: seq<DrawCall>, x: int, y: int, color: int)
    requires AllValid(calls) && s.resX > 0 && s.resY > 0 && s.showOverdraw
    requires (|calls| as real) < FLOAT_MAX
    ensures var n := CoverCount(s, calls, x, y);
      CellAfterAll(s, calls, x, y, Cell(FLOAT_MAX, color)).depth == if n == 0 then FLOAT_MAX else n as real
    decreases |calls|
  {
    if calls != [] {
      var init := calls[..|calls| - 1];
      var last := calls[|calls| - 1];
      OverdrawCounts(s, init, x, y, color);
      var before := CellAfterAll(s, init, x, y, Cell(FLOAT_MAX, color));
      OverdrawWriteIgnoresStored(s, last, x, y, before.depth, FLOAT_MAX);
    }
  }

  /** The draw call for one visible part of a view-space triangle, projected to the screen. */
  function PartCall(part: SubTri, worldNormal: Float3, uvs: seq<Float2>, mat: Material, resX: int, resY: int, fov: real): (r: DrawCall)
    requires |part.verts| == 3 && |part.weights| == 3 && |uvs| >= 3
    requires part.verts[0].z > 0.0 && part.verts[1].z > 0.0 && part.verts[2].z > 0.0
    ensures r.Valid() && r.triWeights == part.weights
    ensures r.worldNormal == worldNormal && r.uvs == uvs && r.mat == mat
    ensures r.tri[0].z == part.verts[0].z && r.tri[1].z == part.verts[1].z && r.tri[2].z == part.verts[2].z
  {
    DrawCall(TriToScreen(part.verts[0], part.verts[1], part.verts[2], Float2(resX as real, resY as real), fov),
             part.weights, worldNormal, uvs, mat)
  }

  /** The vertices of a sound part are in front of the near plane. */
  lemma SoundInFront(tri: seq<Float3>, part: SubTri)
    requires |tri| == 3 && Sound(tri, part)
    ensures |part.verts| == 3 && |part.weights| == 3
    ensures part.verts[0].z >= NEAR_CLIP_DST && part.verts[1].z >= NEAR_CLIP_DST && part.verts[2].z >= NEAR_CLIP_DST
    ensures IsWeight(part.weights[0]) && IsWeight(part.weights[1]) && IsWeight(part.weights[2])
  {}

  /** A call whose vertices are at or beyond the near plane and whose weights are barycentric. */
  predicate Clipped(call: DrawCall)
  {
    call.Valid()
    && call.tri[0].z >= NEAR_CLIP_DST && call.tri[1].z >= NEAR_CLIP_DST && call.tri[2].z >= NEAR_CLIP_DST
    && IsWeight(call.triWeights[0]) && IsWeight(call.triWeights[1]) && IsWeight(call.triWeights[2])
  }

  predicate AllClipped(calls: seq<DrawCall>)
  {
    forall call :: call in calls ==> Clipped(call)
  }

  /** The call for a sound part keeps the part's depths and weights. */
  lemma PartCallClipped(tri: seq<Float3>, part: SubTri, worldNormal: Float3, uvs: seq<Float2>, mat: Material, resX: int, resY: int, fov: real)
    requires |tri| == 3 && Sound(tri, part) && |uvs| >= 3
    ensures |part.verts| == 3 && |part.weights| == 3
    ensures part.verts[0].z > 0.0 && part.verts[1].z > 0.0 && part.verts[2].z > 0.0
    ensures Clipped(PartCall(part, worldNormal, uvs, mat, resX, resY, fov))
  {
    SoundInFront(tri, part);
  }

  /** Every part of a clip is sound, so every call made for one is drawable and clipped. */
  lemma PartCallsClipped(tri: seq<Float3>, parts: seq<SubTri>, worldNormal: Float3, uvs: seq<Float2>, mat: Material, resX: int, resY: int, fov: real)
    requires |tri| == 3 && |uvs| >= 3 && forall s :: s in parts ==> Sound(tri, s)
    ensures forall i :: 0 <= i < |parts| ==> |parts[i].verts| == 3 && |parts[i].weights| == 3
    ensures forall i :: 0 <= i < |parts| ==> parts[i].verts[0].z > 0.0 && parts[i].verts[1].z > 0.0 && parts[i].verts[2].z > 0.0
    ensures forall i :: 0 <= i < |parts| ==> Clipped(PartCall(parts[i], worldNormal, uvs, mat, resX, resY, fov))
  {
    forall i | 0 <= i < |parts|
      ensures |parts[i].verts| == 3 && |parts[i].weights| == 3
      ensures parts[i].verts[0].z > 0.0 && parts[i].verts[1].z > 0.0 && parts[i].verts[2].z > 0.0
      ensures Clipped(PartCall(parts[i], worldNormal, uvs, mat, resX, resY, fov))
    {
      PartCallClipped(tri, parts[i], worldNormal, uvs, mat, resX, resY, fov);
    }
  }

  /** One call per sound part, in order, each drawable and clipped. */
  function PartCalls(tri: seq<Float3>, parts: seq<SubTri>, worldNormal: Float3, uvs: seq<Float2>, mat: Material, resX: int, resY: int, fov: real): (r: seq<DrawCall>)
    requires |tri| == 3 && |uvs| >= 3 && forall s :: s in parts ==> Sound(tri, s)
    ensures |r| == |parts|
    ensures forall i :: 0 <= i < |r| ==>
      && r[i].triWeights == parts[i].weights
      && r[i].worldNormal == worldNormal && r[i].uvs == uvs && r[i].mat == mat
    ensures AllValid(r) && AllClipped(r)
  {
    PartCallsClipped(tri, parts, worldNormal, uvs, mat, resX, resY, fov);
    seq(|parts|, i requires 0 <= i < |parts| => PartCall(parts[i], worldNormal, uvs, mat, resX, resY, fov))
  }

  /**
   * The `drawTriangle` calls `renderTriangle` makes for a view-space
   * triangle: none when it faces away, otherwise one per visible part. Every
   * call has its vertices at or beyond the near plane and barycentric weights.
   */
  function TriangleCalls(tri: seq<Float3>, worldNormal: Float3, uvs: seq<Float2>, mat: Material, cameraBasis: Basis,
                         resX: int, resY: int, fov: real): (r: seq<DrawCall>)
    requires |tri| == 3 && |uvs| >= 3
    ensures Rotate(worldNormal, Transpose(cameraBasis)).Dot(tri[0]) >= 0.0 ==> r == []
    ensures |r| == |VisibleParts(tri, worldNormal, cameraBasis)| && |r| <= 2
    ensures Rotate(worldNormal, Transpose(cameraBasis)).Dot(tri[0]) < 0.0 ==>
      && (ClipCount(tri) == 0 ==> |r| == 1)
      && (ClipCount(tri) == 1 ==> |r| == 2)
      && (ClipCount(tri) == 2 ==> |r| == 1)
      && (ClipCount(tri) == 3 ==> r == [])
    ensures forall i :: 0 <= i < |r| ==>
      && r[i].triWeights == VisibleParts(tri, worldNormal, cameraBasis)[i].weights
      && r[i].worldNormal == worldNormal && r[i].uvs == uvs && r[i].mat == mat
    ensures AllValid(r) && AllClipped(r)
  {
    PartCalls(tri, VisibleParts(tri, worldNormal, cameraBasis), worldNormal, uvs, mat, resX, resY, fov)
  }

  /** `(mat == null) ? Scene.errorMat : mat`. */
  function MaterialOf(mat: Option<Material>): (m: Material)
    ensures mat.Some? ==> m == mat.value
    ensures mat.None? ==> m == ErrorMat() && m.shader == Some(Unlit) && m.tex == Some(Texture(2, 2))
  {
    if mat.Some? then mat.value else ErrorMat()
  }

  /**
   * The calls `renderObject` makes for triangle t of a model placed at pose:
   * the placed triangle moved into the camera's view, drawn with the
   * object's material or the error material.
   */
  function ModelTriangleCalls(m: Model, pose: Pose, mat: Option<Material>, camera: Pose, resX: int, resY: int, fov: real, t: int): (r: seq<DrawCall>)
    requires m.Valid() && 0 <= t < m.TriangleCount()
    ensures AllValid(r) && AllClipped(r) && |r| <= 2
  {
    var tri := TriToView(PlacedVertexes(m, t, pose), camera);
    TriangleCalls(tri, PlacedNormal(m, t, pose.basis), m.GetTriUVs(t), MaterialOf(mat), camera.basis, resX, resY, fov)
  }

  /** The calls `renderObject` makes for the model's first n triangles, in order. */
  function ModelCalls(m: Model, pose: Pose, mat: Option<Material>, camera: Pose, resX: int, resY: int, fov: real, n: int): (r: seq<DrawCall>)
    requires m.Valid() && 0 <= n <= m.TriangleCount()
    ensures AllValid(r) && |r| <= 2 * n
    decreases n
  {
    if n == 0 then []
    else
      var prev := ModelCalls(m, pose, mat, camera, resX, resY, fov, n - 1);
      var more := ModelTriangleCalls(m, pose, mat, camera, resX, resY, fov, n - 1);
      AppendValid(prev, more);
      prev + more
  }

  lemma AppendValid(a: seq<DrawCall>, b: seq<DrawCall>)
    requires AllValid(a) && AllValid(b)
    ensures AllValid(a + b)
  {}

  /** The calls one `renderObject` makes for a scene object: its model (the error mesh when the key is absent) at its transform. */
  function ObjectCalls(obj: GameObject, models: map<string, Model>, camera: Pose, resX: int, resY: int, fov: real): (r: seq<DrawCall>)
    requires Scenes.AllValid(models)
    reads obj, obj.transform
    ensures AllValid(r) && |r| <= 2 * obj.TriangleCount(models)
  {
    LookupValid(models, obj.modelKey);
    ModelCalls(obj.GetModel(models), obj.transform.Pose(), obj.mat, camera, resX, resY, fov, obj.TriangleCount(models))
  }

  /** The calls of one frame: every object's, in the order the objects are visited. */
  function FrameCalls(objects: seq<GameObject>, models: map<string, Model>, camera: Pose, resX: int, resY: int, fov: real): (r: seq<DrawCall>)
    requires Scenes.AllValid(models)
    reads set o | o in objects, set o | o in objects :: o.transform
    ensures AllValid(r)
    decreases |objects|
  {
    if objects == [] then []
    else
      var prev := FrameCalls(objects[..|objects| - 1], models, camera, resX, resY, fov);
      var more := ObjectCalls(objects[|objects| - 1], models, camera, resX, resY, fov);
      AppendValid(prev, more);
      prev + more
  }

  /** The frame's calls for the first i + 1 objects extend those for the first i by object i's. */
  lemma FrameCallsStep(objects: seq<GameObject>, models: map<string, Model>, camera: Pose, resX: int, resY: int, fov: real, i: int)
    requires Scenes.AllValid(models) && 0 <= i < |objects|
    ensures FrameCalls(objects[..i + 1], models, camera, resX, resY, fov)
         == FrameCalls(objects[..i], models, camera, resX, resY, fov) + ObjectCalls(objects[i], models, camera, resX, resY, fov)
  {
    assert objects[..i + 1][..i] == objects[..i];
  }

  /** Outside overdraw mode no cell of a drawn grid is deeper than it was, and a changed depth is positive. */
  lemma GridDepthNeverIncreases(s: Settings, calls: seq<DrawCall>, g: Grid, x: int, y: int)
    requires AllValid(calls) && s.resX > 0 && s.resY > 0 && !s.showOverdraw
    requires 0 <= x < |g| && 0 <= y < |g[x]|
    ensures ApplyAll(s, calls, g)[x][y].depth <= g[x][y].depth
    ensures ApplyAll(s, calls, g)[x][y].depth != g[x][y].depth ==> ApplyAll(s, calls, g)[x][y].depth > 0.0
  {
    ApplyAllAt(s, calls, g, x, y);
    DepthNeverIncreases(s, calls, x, y, g[x][y]);
  }

  /** In overdraw mode a frame drawn from the cleared grid holds in each cell the number of calls that wrote it (`Float.MAX_VALUE` for none). */
  lemma OverdrawFrame(s: Settings, calls: seq<DrawCall>, w: nat, h: nat, x: int, y: int)
    requires AllValid(calls) && s.resX > 0 && s.resY > 0 && s.showOverdraw
    requires (|calls| as real) < FLOAT_MAX && 0 <= x < w && 0 <= y < h
    ensures var n := CoverCount(s, calls, x, y);
      ApplyAll(s, calls, Cleared(w, h))[x][y].depth == if n == 0 then FLOAT_MAX else n as real
  {
    ApplyAllAt(s, calls, Cleared(w, h), x, y);
    OverdrawCounts(s, calls, x, y, 0);
  }

  /** Where the camera renders into, and the debug flags it reads. */
  class Camera {
    var fov: real
    const resX: int
    const resY: int
    const width: int
    const height: int
    var showOverdraw: bool
    var shaderStatus: bool
    var shaderOverride: bool
    /** `depthBuffer[x][y]`, resX columns of resY cells. */
    const depthBuffer: array2<real>
    /** The render image's pixels as packed RGB, indexed the same way. */
    const renderBuffer: array2<int>
    /** The engine's texture sampler. */
    const sample: (Texture, Float2) -> Float3

    /** Both buffers are resX x resY and the resolution is positive. */
    predicate Valid()
      reads this
    {
      resX > 0 && resY > 0
      && depthBuffer.Length0 == resX && depthBuffer.Length1 == resY
      && renderBuffer.Length0 == resX && renderBuffer.Length1 == resY
    }

    /** The settings `drawTriangle` reads, with the camera object's shader for `shaderOverride`. */
    function SettingsFor(cameraShader: Option<Shader>): (s: Settings)
      reads this
      ensures s.resX == resX && s.resY == resY && s.showOverdraw == showOverdraw
      ensures s.shaderStatus == shaderStatus && s.shaderOverride == shaderOverride && s.cameraShader == cameraShader
    {
      Settings(resX, resY, showOverdraw, shaderStatus, shaderOverride, cameraShader, sample)
    }

    /** The buffers' contents as a grid. */
    function Cells(): (g: Grid)
      reads this, depthBuffer, renderBuffer
      requires Valid()
      ensures Shaped(g, resX, resY)
      ensures forall x, y :: 0 <= x < resX && 0 <= y < resY ==> g[x][y] == Cell(depthBuffer[x, y], renderBuffer[x, y])
    {
      seq(resX, x requires 0 <= x < resX reads depthBuffer, renderBuffer =>
        seq(resY, y requires 0 <= y < resY reads depthBuffer, renderBuffer => Cell(depthBuffer[x, y], renderBuffer[x, y])))
    }

    /** `new Camera(fov, resX, resY, width, height)`: zero-filled buffers, every debug flag off. */
    constructor (camFov: real, resolutionX: int, resolutionY: int, screenWidth: int, screenHeight: int, sample: (Texture, Float2) -> Float3)
      requires resolutionX > 0 && resolutionY > 0
      ensures Valid() && fresh(depthBuffer) && fresh(renderBuffer)
      ensures fov == camFov && resX == resolutionX && resY == resolutionY && width == screenWidth && height == screenHeight
      ensures !showOverdraw && !shaderStatus && !shaderOverride && this.sample == sample
      ensures forall x, y :: 0 <= x < resX && 0 <= y < resY ==> depthBuffer[x, y] == 0.0 && renderBuffer[x, y] == 0
    {
      fov := camFov;
      resX := resolutionX;
      resY := resolutionY;
      width := screenWidth;
      height := screenHeight;
      showOverdraw := false;
      shaderStatus := false;
      shaderOverride := false;
      this.sample := sample;
      depthBuffer := new real[resolutionX, resolutionY]((x, y) => 0.0);
      renderBuffer := new int[resolutionX, resolutionY]((x, y) => 0);
    }

    /** The frame-start clear: every colour black and every depth `Float.MAX_VALUE`. */
    method ResetBuffers()
      requires Valid()
      modifies depthBuffer, renderBuffer
      ensures Cells() == Cleared(resX, resY)
    {
      var i := 0;
      while i < resX
        invariant 0 <= i <= resX
        invariant forall x, y :: 0 <= x < i && 0 <= y < resY ==> depthBuffer[x, y] == FLOAT_MAX && renderBuffer[x, y] == 0
      {
        var j := 0;
        while j < resY
          invariant 0 <= j <= resY
          invariant forall x, y :: 0 <= x < i && 0 <= y < resY ==> depthBuffer[x, y] == FLOAT_MAX && renderBuffer[x, y] == 0
          invariant forall y :: 0 <= y < j ==> depthBuffer[i, y] == FLOAT_MAX && renderBuffer[i, y] == 0
        {
          renderBuffer[i, j] := 0;
          depthBuffer[i, j] := FLOAT_MAX;
          j := j + 1;
        }
        i := i + 1;
      }
      SameGrid(Cells(), Cleared(resX, resY));
    }

    /** Two grids of the camera's shape that agree cell by cell are equal. */
    lemma SameGrid(g: Grid, h: Grid)
      requires Shaped(g, resX, resY) && Shaped(h, resX, resY)
      requires forall x, y :: 0 <= x < resX && 0 <= y < resY ==> g[x][y] == h[x][y]
      ensures g == h
    {
      forall x | 0 <= x < resX
        ensures g[x] == h[x]
      {
        assert forall y :: 0 <= y < resY ==> g[x][y] == h[x][y];
      }
    }

    /**
     * `drawTriangle`: the bounding box, then its pixels scanned row by row.
     * Since a write at (x, y) reads only the depth stored at (x, y), every
     * cell ends up as `CellAfter` of its old contents, whatever the scan order.
     */
    method DrawTriangle(call: DrawCall, cameraShader: Option<Shader>)
      requires Valid() && call.Valid()
      modifies depthBuffer, renderBuffer
      ensures Cells() == Step(SettingsFor(cameraShader), call, old(Cells()))
    {
      ghost var before := Cells();
      ScanBox(call, SettingsFor(cameraShader));
      SameGrid(Cells(), Step(SettingsFor(cameraShader), call, before));
    }

    /** The nested loops of `drawTriangle`: rows startY <= y < endY of the bounding box, each scanned by `ScanRow`. */
    method ScanBox(call: DrawCall, s: Settings)
      requires Valid() && call.Valid() && s.resX == resX && s.resY == resY
      modifies depthBuffer, renderBuffer
      ensures forall x, y :: 0 <= x < resX && 0 <= y < resY ==>
        Cell(depthBuffer[x, y], renderBuffer[x, y]) == CellAfter(s, call, x, y, Cell(old(depthBuffer[x, y]), old(renderBuffer[x, y])))
    {
      var box := BoundingBox(call.tri, resX, resY);
      var y := box.startY;
      while y < box.endY
        invariant box.startY <= y <= MaxI(box.startY, box.endY)
        invariant forall i, j :: 0 <= i < resX && 0 <= j < resY ==>
          Cell(depthBuffer[i, j], renderBuffer[i, j])
          == if j < y then CellAfter(s, call, i, j, Cell(old(depthBuffer[i, j]), old(renderBuffer[i, j])))
             else Cell(old(depthBuffer[i, j]), old(renderBuffer[i, j]))
      {
        ScanRow(call, s, box, y);
        y := y + 1;
      }
    }

    /** The inner loop of `drawTriangle`: columns startX <= x < endX of row y, one pixel write each. */
    method ScanRow(call: DrawCall, s: Settings, box: Box, y: int)
      requires Valid() && call.Valid() && s.resX == resX && s.resY == resY
      requires box == BoundingBox(call.tri, resX, resY) && box.startY <= y < box.endY
      modifies depthBuffer, renderBuffer
      ensures forall i, j :: 0 <= i < resX && 0 <= j < resY ==>
        Cell(depthBuffer[i, j], renderBuffer[i, j])
        == if j == y then CellAfter(s, call, i, j, Cell(old(depthBuffer[i, j]), old(renderBuffer[i, j])))
           else Cell(old(depthBuffer[i, j]), old(renderBuffer[i, j]))
    {
      var x := box.startX;
      while x < box.endX
        invariant box.startX <= x <= MaxI(box.startX, box.endX)
        invariant forall i, j :: 0 <= i < resX && 0 <= j < resY ==>
          Cell(depthBuffer[i, j], renderBuffer[i, j])
          == if j == y && i < x then CellAfter(s, call, i, j, Cell(old(depthBuffer[i, j]), old(renderBuffer[i, j])))
             else Cell(old(depthBuffer[i, j]), old(renderBuffer[i, j]))
      {
        DrawPixel(call, s, x, y);
        x := x + 1;
      }
    }

    /** The body of `drawTriangle`'s inner loop for a pixel of the bounding box: the depth test, the shading and the write of both buffers. */
    method DrawPixel(call: DrawCall, s: Settings, x: int, y: int)
      requires Valid() && call.Valid() && s.resX == resX && s.resY == resY
      requires BoundingBox(call.tri, resX, resY).Contains(x, y)
      modifies depthBuffer, renderBuffer
      ensures Cell(depthBuffer[x, y], renderBuffer[x, y]) == CellAfter(s, call, x, y, Cell(old(depthBuffer[x, y]), old(renderBuffer[x, y])))
      ensures forall i, j :: 0 <= i < resX && 0 <= j < resY && (i != x || j != y) ==>
        depthBuffer[i, j] == old(depthBuffer[i, j]) && renderBuffer[i, j] == old(renderBuffer[i, j])
    {
      var w := PixelWrite(s, call, x, y, depthBuffer[x, y]);
      if w.Some? {
        renderBuffer[x, y] := w.value.color;
        depthBuffer[x, y] := w.value.depth;
      }
    }

    /**
     * `renderTriangle` for a view-space triangle: the calls of
     * `TriangleCalls` (none for a back face, one or two for the visible parts
     * after near-plane clipping) drawn in order.
     */
    method RenderTriangle(tri: seq<Float3>, worldNormal: Float3, uvs: seq<Float2>, mat: Material, cameraBasis: Basis,
                          cameraShader: Option<Shader>)
      requires Valid() && |tri| == 3 && |uvs| >= 3
      modifies depthBuffer, renderBuffer
      ensures Cells() == ApplyAll(SettingsFor(cameraShader), TriangleCalls(tri, worldNormal, uvs, mat, cameraBasis, resX, resY, fov), old(Cells()))
    {
      var calls := TriangleCalls(tri, worldNormal, uvs, mat, cameraBasis, resX, resY, fov);
      ghost var s := SettingsFor(cameraShader);
      if |calls| == 1 {
        DrawTriangle(calls[0], cameraShader);
        ApplyOne(s, calls, old(Cells()));
      } else if |calls| == 2 {
        DrawTriangle(calls[0], cameraShader);
        DrawTriangle(calls[1], cameraShader);
        ApplyTwo(s, calls, old(Cells()));
      }
    }

    /** `renderObject`: every triangle of the object's model, placed by its transform and seen from the camera pose, with the error material when it has none. */
    method RenderObject(obj: GameObject, models: map<string, Model>, camera: Pose, cameraShader: Option<Shader>)
      requires Valid() && Scenes.AllValid(models)
      modifies depthBuffer, renderBuffer
      ensures Cells() == ApplyAll(SettingsFor(cameraShader), ObjectCalls(obj, models, camera, resX, resY, fov), old(Cells()))
    {
      LookupValid(models, obj.modelKey);
      RenderModel(obj.GetModel(models), obj.transform.Pose(), obj.mat, camera, cameraShader);
    }

    /**
     * The loop of `renderObject` over triangles 0 <= t < triangleCount of a
     * model placed at pose (the object's `getTriVertexes`, `getTriNormal`
     * and `getTriUVs` are these placed-model functions).
     */
    method RenderModel(m: Model, pose: Pose, mat: Option<Material>, camera: Pose, cameraShader: Option<Shader>)
      requires Valid() && m.Valid()
      modifies depthBuffer, renderBuffer
      ensures Cells() == ApplyAll(SettingsFor(cameraShader), ModelCalls(m, pose, mat, camera, resX, resY, fov, m.TriangleCount()), old(Cells()))
    {
      ghost var start := Cells();
      var t := 0;
      while t < m.TriangleCount()
        invariant 0 <= t <= m.TriangleCount()
        invariant Cells() == ApplyAll(SettingsFor(cameraShader), ModelCalls(m, pose, mat, camera, resX, resY, fov, t), start)
      {
        RenderModelTriangle(m, pose, mat, camera, cameraShader, t, start);
        t := t + 1;
      }
    }

    /** One iteration of the loop of `renderObject`: triangle t drawn over what triangles 0 <= i < t left. */
    method RenderModelTriangle(m: Model, pose: Pose, mat: Option<Material>, camera: Pose, cameraShader: Option<Shader>, t: int, ghost start: Grid)
      requires Valid() && m.Valid() && 0 <= t < m.TriangleCount()
      requires Cells() == ApplyAll(SettingsFor(cameraShader), ModelCalls(m, pose, mat, camera, resX, resY, fov, t), start)
      modifies depthBuffer, renderBuffer
      ensures Cells() == ApplyAll(SettingsFor(cameraShader), ModelCalls(m, pose, mat, camera, resX, resY, fov, t + 1), start)
    {
      ghost var s := SettingsFor(cameraShader);
      ghost var prev := ModelCalls(m, pose, mat, camera, resX, resY, fov, t);
      ghost var more := ModelTriangleCalls(m, pose, mat, camera, resX, resY, fov, t);
      var tri := TriToView(PlacedVertexes(m, t, pose), camera);
      ghost var before := Cells();
      RenderTriangle(tri, PlacedNormal(m, t, pose.basis), m.GetTriUVs(t), MaterialOf(mat), camera.basis, cameraShader);
      assert more == TriangleCalls(tri, PlacedNormal(m, t, pose.basis), m.GetTriUVs(t), MaterialOf(mat), camera.basis, resX, resY, fov);
      assert Cells() == ApplyAll(s, more, before);
      assert ModelCalls(m, pose, mat, camera, resX, resY, fov, t + 1) == prev + more;
      ApplyAllAppend(s, prev, more, start);
    }

    /**
     * The rendering half of `paintComponent`: clear both buffers, then
     * `renderObject` for each object in the order `getObjects` yields them.
     */
    method RenderFrame(objects: seq<GameObject>, models: map<string, Model>, camera: Pose, cameraShader: Option<Shader>)
      requires Valid() && Scenes.AllValid(models)
      modifies depthBuffer, renderBuffer
      ensures Cells() == ApplyAll(SettingsFor(cameraShader), FrameCalls(objects, models, camera, resX, resY, fov), Cleared(resX, resY))
    {
      ResetBuffers();
      var i := 0;
      while i < |objects|
        invariant 0 <= i <= |objects|
        invariant Cells() == ApplyAll(SettingsFor(cameraShader), FrameCalls(objects[..i], models, camera, resX, resY, fov), Cleared(resX, resY))
      {
        RenderFrameObject(objects, models, camera, cameraShader, i);
        i := i + 1;
      }
      assert objects[..|objects|] == objects;
    }

    /** One iteration of the object loop of `paintComponent`. */
    method RenderFrameObject(objects: seq<GameObject>, models: map<string, Model>, camera: Pose, cameraShader: Option<Shader>, i: int)
      requires Valid() && Scenes.AllValid(models) && 0 <= i < |objects|
      requires Cells() == ApplyAll(SettingsFor(cameraShader), FrameCalls(objects[..i], models, camera, resX, resY, fov), Cleared(resX, resY))
      modifies depthBuffer, renderBuffer
      ensures Cells() == ApplyAll(SettingsFor(cameraShader), FrameCalls(objects[..i + 1], models, camera, resX, resY, fov), Cleared(resX, resY))
    {
      ghost var s := SettingsFor(cameraShader);
      ghost var prev := FrameCalls(objects[..i], models, camera, resX, resY, fov);
      ghost var more := ObjectCalls(objects[i], models, camera, resX, resY, fov);
      RenderObject(objects[i], models, camera, cameraShader);
      FrameCallsStep(objects, models, camera, resX, resY, fov, i);
      ApplyAllAppend(s, prev, more, Cleared(resX, resY));
    }
  }
}
