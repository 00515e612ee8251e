/**
 * `js/RenderEngine.js` without the GPU: which objects each pass draws and
 * with what settings. A draw is recorded as the values the engine would
 * send for it: the model-matrix steps in order, the bound textures, the
 * material settings and flags, or for a box wireframe its colour and
 * vertices. Matrices built by the glMatrix library are kept as the
 * arguments they are built from.
 */
module Rendering {
  import opened Wrappers
  import opened Numbers
  import opened JsValues
  import opened Utils
  import opened Meshes
  import opened Textures
  import opened Materials
  import opened Models
  import opened BoundingBoxes
  import opened WorldObjects
  import opened Scenes

  /** One step of building a model matrix, in the order applied. */
  datatype Op =
    | Translation(offset: Vec3)
    | RotateX(degrees: real)
    | RotateY(degrees: real)
    | RotateZ(degrees: real)
    | Scaling(factors: Vec3)
    /** Rotation by `time * speedFactor` radians about `axis`. */
    | Rotate(time: real, speedFactor: Value, axis: Value)

  /**
   * The draws a pass issued, in order, and whether it stopped with the
   * `TypeError` that `mat4.scale` throws when `drawModel` is given an
   * object without a scale; the exception ends the pass (and `render`),
   * so no later object is drawn.
   */
  datatype Pass<T> = Pass(draws: seq<T>, thrown: bool)

  /** A view matrix built by `mat4.lookAt(eye, target, up)`. */
  datatype View = LookAt(eye: Vec3, target: Vec3, up: Vec3)

  /**
   * The animation clock of a frame: `time`, and `Math.sin(time) / 2 + 0.5`
   * and `Math.cos(time) / 2 + 0.5` as the caller computed them.
   */
  datatype Clock = Clock(time: real, sinAnim: real, cosAnim: real)

  /** What `drawModel` sends for one object. `textures` holds the bound diffuse and normal textures, when the pass binds any. */
  datatype ModelDraw = ModelDraw(
    obj: WorldObject,
    ops: seq<Op>,
    highlight: Vec3,
    recieveShadow: int,
    recieveLighting: int,
    texScale: Value,
    specularExponent: real,
    specularStrength: real,
    diffuseStrength: real,
    normals: bool,
    textures: Option<(Texture, Texture)>,
    vertexCount: nat)

  /** What `drawAABBs` sends for one object: colour, translation and the line vertices, 24 of which are drawn. */
  datatype BoxDraw = BoxDraw(obj: WorldObject, color: Vec3, translate: Vec3, vertices: seq<Ext>, vertexCount: nat)

  datatype Draw = DrawModel(model: ModelDraw) | DrawBox(box: BoxDraw)

  /** The uniforms the main pass sets once for all objects. */
  datatype SceneUniforms = SceneUniforms(
    projection: Projection,
    view: View,
    lightDirection: Vec3,
    cameraPos: Vec3,
    lightSpaceCamera: Option<View>,
    lightSpaceProjection: Option<Projection>,
    shadowBias: real)

  /** A default material whose textures the fallbacks can use. */
  predicate UsableDefault(d: Material) {
    d.diffuseTexture.Some? && d.normalTexture.Some?
  }

  /** The shadow pass draws an object with a model that has a mesh and casts shadows. */
  predicate CastsShadow(o: WorldObject)
    reads o
  {
    o.model.Some? && o.model.value.mesh.Some? && Truthy(o.model.value.castShadow)
  }

  /** The main pass draws the model of an object with a model that has a mesh and is rendered. */
  predicate Renders(o: WorldObject)
    reads o
  {
    o.model.Some? && o.model.value.mesh.Some? && Truthy(o.model.value.render)
  }

  /** The main pass draws the box of an object whose box is shown, whatever its model. */
  predicate ShowsBox(o: WorldObject)
    reads o, o.aabb
  {
    o.aabb != null && o.aabb.render
  }

  /** The material a model is drawn with: its own, or the scene's default when it has none. */
  function MaterialFor(m: Model, default: Material): Material {
    if m.material.Some? then m.material.value else default
  }

  /** The diffuse texture bound: the material's own when it is used and set, else the default material's. */
  function DiffuseFor(mat: Material, default: Material): (t: Texture)
    requires UsableDefault(default)
    ensures mat.useDiffuse && mat.diffuseTexture.Some? ==> t == mat.diffuseTexture.value
    ensures !(mat.useDiffuse && mat.diffuseTexture.Some?) ==> t == default.diffuseTexture.value
  {
    if mat.useDiffuse && mat.diffuseTexture.Some? then mat.diffuseTexture.value else default.diffuseTexture.value
  }

  /** The normal map bound: the material's own when it is used and set, else the default material's. */
  function NormalFor(mat: Material, default: Material): (t: Texture)
    requires UsableDefault(default)
    ensures mat.useNormal && mat.normalTexture.Some? ==> t == mat.normalTexture.value
    ensures !(mat.useNormal && mat.normalTexture.Some?) ==> t == default.normalTexture.value
  {
    if mat.useNormal && mat.normalTexture.Some? then mat.normalTexture.value else default.normalTexture.value
  }

  /**
   * A model without a material is drawn with the default material's
   * textures and settings; a material that turns a texture off is drawn
   * with the default's texture whatever its own is.
   */
  lemma MaterialFallback(m: Model, mat: Material, default: Material, other: Option<Texture>)
    requires UsableDefault(default)
    ensures m.material.None? ==> DiffuseFor(MaterialFor(m, default), default) == default.diffuseTexture.value
    ensures m.material.None? ==> NormalFor(MaterialFor(m, default), default) == default.normalTexture.value
    ensures !mat.useDiffuse ==> DiffuseFor(mat.(diffuseTexture := other), default) == DiffuseFor(mat, default)
    ensures !mat.useNormal ==> NormalFor(mat.(normalTexture := other), default) == NormalFor(mat, default)
  {
  }

  /**
   * The model matrix: translate to the position, rotate about x, y and z
   * by the rotation's degrees, scale, then the animated translation and
   * the animated rotation when the model has them.
   */
  function ModelOps(position: Vec3, rotation: Vec3, scale: Vec3, m: Model, clock: Clock): (ops: seq<Op>)
    ensures |ops| == 5 + (if Truthy(m.animateTrans) then 1 else 0) + (if Truthy(m.animateRot) then 1 else 0)
    ensures ops[..5] == [Translation(position), RotateX(rotation.x), RotateY(rotation.y), RotateZ(rotation.z), Scaling(scale)]
    ensures Truthy(m.animateTrans) ==>
              ops[5] == Translation(Vec3(6.0 * clock.sinAnim - 3.0, 0.0, 6.0 * clock.cosAnim - 3.0))
    ensures Truthy(m.animateRot) ==> ops[|ops| - 1] == Rotate(clock.time, m.rotSpeedFactor, m.rotAxis)
  {
    [Translation(position), RotateX(rotation.x), RotateY(rotation.y), RotateZ(rotation.z), Scaling(scale)]
    + (if Truthy(m.animateTrans) then [Translation(Vec3(6.0 * clock.sinAnim - 3.0, 0.0, 6.0 * clock.cosAnim - 3.0))] else [])
    + (if Truthy(m.animateRot) then [Rotate(clock.time, m.rotSpeedFactor, m.rotAxis)] else [])
  }

  /** The placement part of the matrix never depends on the animation settings. */
  lemma PlacementFirst(position: Vec3, rotation: Vec3, scale: Vec3, m: Model, n: Model, clock: Clock)
    ensures ModelOps(position, rotation, scale, m, clock)[..5] == ModelOps(position, rotation, scale, n, clock)[..5]
  {
  }

  /**
   * `drawModel(worldObject, time, shader, normals, textures)`: `None` when
   * the object has no scale, where `mat4.scale` throws before anything is
   * sent.
   */
  function ModelDrawOf(o: WorldObject, clock: Clock, default: Material, normals: bool, textures: bool): (d: Option<ModelDraw>)
    reads o
    requires o.model.Some? && o.model.value.mesh.Some? && UsableDefault(default)
    ensures d.None? <==> o.scale.None?
    ensures d.Some? ==> d.value.obj == o && d.value.normals == normals && (d.value.textures.Some? <==> textures)
    ensures d.Some? ==> d.value.ops == ModelOps(o.position, o.rotation, o.scale.value, o.model.value, clock)
    ensures d.Some? ==> d.value.highlight == (if o.selected then Vec3(50.0, 0.0, 0.0) else Vec3(0.0, 0.0, 0.0))
    ensures d.Some? ==> d.value.recieveShadow == (if Truthy(o.model.value.recieveShadow) then 1 else 0)
    ensures d.Some? ==> d.value.recieveLighting == (if Truthy(o.model.value.recieveLighting) then 1 else 0)
    ensures d.Some? ==> d.value.vertexCount == |o.model.value.mesh.value.vertIndices|
  {
    if o.scale.None? then None
    else
      var m := o.model.value;
      var mat := MaterialFor(m, default);
      Some(ModelDraw(o, ModelOps(o.position, o.rotation, o.scale.value, m, clock),
                     if o.selected then Vec3(50.0, 0.0, 0.0) else Vec3(0.0, 0.0, 0.0),
                     if Truthy(m.recieveShadow) then 1 else 0,
                     if Truthy(m.recieveLighting) then 1 else 0,
                     mat.scale, mat.specularExponent, mat.specularStrength, mat.diffuseStrength,
                     normals,
                     if textures then Some((DiffuseFor(mat, default), NormalFor(mat, default))) else None,
                     GetNumVerts(m.mesh.value)))
  }

  /** `drawAABBs(worldObject, ...)`: red when colliding, blue otherwise; 24 line vertices from the box's buffer. */
  function BoxDrawOf(o: WorldObject): (d: BoxDraw)
    reads o, o.aabb
    requires o.aabb != null
    ensures d.obj == o && d.vertexCount == 24 && d.translate == o.position
    ensures d.color == Vec3(1.0, 0.0, 0.0) <==> o.isColliding
    ensures d.color == Vec3(0.0, 0.0, 1.0) <==> !o.isColliding
  {
    BoxDraw(o, if o.isColliding then Vec3(1.0, 0.0, 0.0) else Vec3(0.0, 0.0, 1.0), o.position, o.aabb.renderBuffer, 24)
  }

  /** The 24 vertices drawn for a box whose buffer is current are the 12 edges of its bounds. */
  lemma BoxDrawsEdges(o: WorldObject)
    requires o.aabb != null && o.aabb.Valid()
    ensures |BoxDrawOf(o).vertices| == 3 * BoxDrawOf(o).vertexCount
    ensures forall s :: 0 <= s < 12 ==> SameSegment(Segment(BoxDrawOf(o).vertices, s), EdgeOf(o.aabb.bounds, SegmentEdge(s)))
  {
    AabbSegmentsAreEdges(o.aabb.bounds);
  }

  /** The objects a list of model draws draws, in order. */
  function Drawn(calls: seq<ModelDraw>): (objs: seq<WorldObject>)
    ensures |objs| == |calls|
  {
    seq(|calls|, k requires 0 <= k < |calls| => calls[k].obj)
  }

  /** The shadow pass throws at a shadow caster without a scale. */
  predicate ShadowStops(o: WorldObject)
    reads o
  {
    CastsShadow(o) && o.scale.None?
  }

  /** The main pass throws at a rendered object without a scale. */
  predicate SceneStops(o: WorldObject)
    reads o
  {
    Renders(o) && o.scale.None?
  }

  /**
   * The draws of `drawShadowmap` over the objects in visiting order: the
   * shadow casters, without normals or textures, until the first caster
   * without a scale, where the pass throws.
   */
  function ShadowPass(objs: seq<WorldObject>, clock: Clock, default: Material): (p: Pass<ModelDraw>)
    reads objs
    requires UsableDefault(default)
    ensures p.thrown <==> exists k :: 0 <= k < |objs| && ShadowStops(objs[k])
    ensures forall k :: 0 <= k < |p.draws| ==>
              p.draws[k].obj in objs && CastsShadow(p.draws[k].obj) &&
              ModelDrawOf(p.draws[k].obj, clock, default, false, false) == Some(p.draws[k])
  {
    if objs == [] then Pass([], false)
    else
      var init := ShadowPass(objs[..|objs| - 1], clock, default);
      var o := objs[|objs| - 1];
      assert forall i :: 0 <= i < |objs| - 1 ==> objs[..|objs| - 1][i] == objs[i];
      if init.thrown || !CastsShadow(o) then init
      else if o.scale.None? then Pass(init.draws, true)
      else Pass(init.draws + [ModelDrawOf(o, clock, default, false, false).value], false)
  }

  /** Once the shadow pass has thrown, the objects after that point change nothing. */
  lemma {:induction false} ShadowPassStays(objs: seq<WorldObject>, clock: Clock, default: Material, i: nat)
    requires UsableDefault(default) && i <= |objs| && ShadowPass(objs[..i], clock, default).thrown
    ensures ShadowPass(objs, clock, default) == ShadowPass(objs[..i], clock, default)
  {
    if i < |objs| {
      var n := |objs| - 1;
      assert objs[..n][..i] == objs[..i];
      ShadowPassStays(objs[..n], clock, default, i);
    } else {
      assert objs[..i] == objs;
    }
  }

  /** The shadow pass draws every shadow caster that no caster without a scale precedes. */
  lemma {:induction false} ShadowPassDraws(objs: seq<WorldObject>, clock: Clock, default: Material, i: nat)
    requires UsableDefault(default) && i < |objs| && CastsShadow(objs[i])
    requires forall k :: 0 <= k <= i ==> !ShadowStops(objs[k])
    ensures objs[i] in Drawn(ShadowPass(objs, clock, default).draws)
  {
    var n := |objs| - 1;
    var init := objs[..n];
    var calls := ShadowPass(objs, clock, default).draws;
    var before := ShadowPass(init, clock, default).draws;
    assert calls[..|before|] == before;
    if i < n {
      assert init[i] == objs[i];
      assert forall k :: 0 <= k <= i ==> init[k] == objs[k];
      ShadowPassDraws(init, clock, default, i);
      var k :| 0 <= k < |before| && Drawn(before)[k] == objs[i];
      assert Drawn(calls)[k] == objs[i];
    } else {
      assert forall k :: 0 <= k < n ==> init[k] == objs[k];
      assert Drawn(calls)[|calls| - 1] == objs[i];
    }
  }

  /**
   * At the first shadow caster without a scale the pass throws: it has
   * drawn exactly what it drew for the objects before it, and nothing
   * after it.
   */
  lemma ShadowPassThrows(objs: seq<WorldObject>, clock: Clock, default: Material, i: nat)
    requires UsableDefault(default) && i < |objs| && ShadowStops(objs[i])
    requires forall k :: 0 <= k < i ==> !ShadowStops(objs[k])
    ensures ShadowPass(objs, clock, default) == Pass(ShadowPass(objs[..i], clock, default).draws, true)
  {
    assert objs[..i + 1][..i] == objs[..i];
    ShadowPassStays(objs, clock, default, i + 1);
  }

  /**
   * The draws of the main pass for one object: its model if rendered, then
   * its box if shown; a rendered object without a scale throws before
   * either is drawn.
   */
  function ObjectDraws(o: WorldObject, clock: Clock, default: Material): (p: Pass<Draw>)
    reads o, o.aabb
    requires UsableDefault(default)
  {
    if SceneStops(o) then Pass([], true)
    else
      Pass((if Renders(o) then [DrawModel(ModelDrawOf(o, clock, default, true, true).value)] else [])
           + (if ShowsBox(o) then [DrawBox(BoxDrawOf(o))] else []), false)
  }

  /**
   * One object's draws: the pass throws there exactly when the object
   * renders without a scale; otherwise its model is drawn exactly when it
   * renders, its box exactly when the box is shown, and nothing else.
   */
  lemma ObjectDrawsFacts(o: WorldObject, clock: Clock, default: Material)
    requires UsableDefault(default)
    ensures ObjectDraws(o, clock, default).thrown <==> SceneStops(o)
    ensures SceneStops(o) ==> ObjectDraws(o, clock, default).draws == []
    ensures Renders(o) && !SceneStops(o) ==>
              DrawModel(ModelDrawOf(o, clock, default, true, true).value) in ObjectDraws(o, clock, default).draws
    ensures ShowsBox(o) && !SceneStops(o) ==> DrawBox(BoxDrawOf(o)) in ObjectDraws(o, clock, default).draws
    ensures var ds := ObjectDraws(o, clock, default).draws;
            forall k :: 0 <= k < |ds| ==>
              (ds[k].DrawModel? ==> Renders(o) && ModelDrawOf(o, clock, default, true, true) == Some(ds[k].model)) &&
              (ds[k].DrawBox? ==> ShowsBox(o) && ds[k] == DrawBox(BoxDrawOf(o)))
  {
  }

  /** `drawScene`'s loop over the objects in visiting order, up to the first rendered object without a scale. */
  function ScenePass(objs: seq<WorldObject>, clock: Clock, default: Material): (p: Pass<Draw>)
    reads objs, set i | 0 <= i < |objs| :: objs[i].aabb
    requires UsableDefault(default)
    ensures p.thrown <==> exists k :: 0 <= k < |objs| && SceneStops(objs[k])
  {
    if objs == [] then Pass([], false)
    else
      var init := ScenePass(objs[..|objs| - 1], clock, default);
      assert forall i :: 0 <= i < |objs| - 1 ==> objs[..|objs| - 1][i] == objs[i];
      if init.thrown then init
      else
        var step := ObjectDraws(objs[|objs| - 1], clock, default);
        Pass(init.draws + step.draws, step.thrown)
  }

  class RenderEngine {
    var scene: Scene?
    /** The light-space matrices the shadow pass last built. */
    var shadowmapProjection: Option<Projection>
    var shadowmapCamera: Option<View>

    const shadowmapResolution: nat := 4096
    const shadowmapFieldOfView: real := 81.0
    const shadowmapZNear: real := 1.0
    const shadowmapZFar: real := 100.0
    const shadowBias: real := 0.0002

    /** The GPU set-up of the constructor is not modelled; no scene yet. */
    constructor ()
      ensures scene == null && shadowmapProjection.None? && shadowmapCamera.None?
    {
      scene := null;
      shadowmapProjection := None;
      shadowmapCamera := None;
    }

    /** The scene can be drawn: its defaults exist and `order` is the key order of its objects. */
    ghost predicate Drawable(order: seq<string>)
      reads this, scene
    {
      scene != null && Enumerates(order, scene.worldObjects) &&
      scene.defaultMaterial.Some? && UsableDefault(scene.defaultMaterial.value)
    }

    /**
     * `drawShadowmap(time, frameBuffer)`: without a scene nothing is drawn
     * (`None`). Otherwise the light-space projection (81 degrees, square,
     * depth 1 to 100) and the view from the light towards the origin are
     * built and kept for the main pass, and the shadow casters are drawn
     * until one without a scale throws.
     */
    method DrawShadowmap(order: seq<string>, clock: Clock) returns (calls: Option<Pass<ModelDraw>>)
      requires scene != null ==> Drawable(order)
      modifies this`shadowmapProjection, this`shadowmapCamera
      ensures scene == null ==> calls.None? && shadowmapProjection == old(shadowmapProjection) && shadowmapCamera == old(shadowmapCamera)
      ensures scene != null ==>
                shadowmapProjection == Some(Perspective(shadowmapFieldOfView, 1.0, shadowmapZNear, shadowmapZFar)) &&
                shadowmapCamera == Some(LookAt(scene.light, Vec3(0.0, 0.0, 0.0), Vec3(0.0, 1.0, 0.0))) &&
                calls == Some(ShadowPass(Values(scene.worldObjects, order), clock, scene.defaultMaterial.value))
    {
      if scene == null {
        return None;
      }
      shadowmapProjection := Some(Perspective(shadowmapFieldOfView, 1.0, shadowmapZNear, shadowmapZFar));
      shadowmapCamera := Some(LookAt(scene.light, Vec3(0.0, 0.0, 0.0), Vec3(0.0, 1.0, 0.0)));
      var drawn := DrawCasters(scene.worldObjects, order, clock, scene.defaultMaterial.value);
      calls := Some(drawn);
    }

    /** The loop of the shadow pass over the objects in key order; a throw ends it. */
    static method DrawCasters(objects: map<string, WorldObject>, order: seq<string>, clock: Clock, default: Material)
      returns (calls: Pass<ModelDraw>)
      requires Enumerates(order, objects) && UsableDefault(default)
      ensures calls == ShadowPass(Values(objects, order), clock, default)
    {
      ghost var objs := Values(objects, order);
      calls := Pass([], false);
      var i := 0;
      while i < |order|
        invariant 0 <= i <= |order|
        invariant calls == ShadowPass(objs[..i], clock, default) && !calls.thrown
      {
        calls := DrawCaster(objects, order, i, clock, default, calls.draws);
        if calls.thrown {
          ShadowPassStays(objs, clock, default, i + 1);
          return;
        }
        i := i + 1;
      }
      assert objs[..|order|] == objs;
    }

    /** One turn of the shadow pass loop: the `i`-th object drawn when it casts shadows, or the throw. */
    static method DrawCaster(objects: map<string, WorldObject>, order: seq<string>, i: nat, clock: Clock, default: Material,
                             drawn: seq<ModelDraw>) returns (calls: Pass<ModelDraw>)
      requires Enumerates(order, objects) && UsableDefault(default) && i < |order|
      requires ShadowPass(Values(objects, order)[..i], clock, default) == Pass(drawn, false)
      ensures calls == ShadowPass(Values(objects, order)[..i + 1], clock, default)
    {
      ghost var objs := Values(objects, order);
      var o := objects[order[i]];
      assert objs[..i + 1][..i] == objs[..i] && objs[..i + 1][i] == o;
      calls := Pass(drawn, false);
      if CastsShadow(o) {
        var d := ModelDrawOf(o, clock, default, false, false);
        if d.None? {
          return Pass(drawn, true);
        }
        calls := Pass(drawn + [d.value], false);
      }
    }

    /**
     * `drawScene(camera, time)`: without a scene nothing is drawn (`None`).
     * Otherwise the uniforms are set (the camera's projection and view,
     * the light, the scene camera's position, and the light-space
     * matrices the shadow pass kept), and each object's model and box are
     * drawn as the pass rules say, until a rendered object without a scale
     * throws.
     */
    method DrawScene(camera: WorldObject, order: seq<string>, clock: Clock) returns (frame: Option<(SceneUniforms, Pass<Draw>)>)
      requires scene != null ==> Drawable(order) && scene.camera != null
      requires camera.projection.Some?
      ensures scene == null ==> frame.None?
      ensures scene != null ==> frame.Some?
      ensures scene != null ==>
                frame.value.0 == SceneUniforms(camera.projection.value,
                                               LookAt(camera.position, Plus3(camera.position, camera.front), camera.up),
                                               scene.light, scene.camera.position,
                                               shadowmapCamera, shadowmapProjection, shadowBias)
      ensures scene != null ==> frame.value.1 == ScenePass(Values(scene.worldObjects, order), clock, scene.defaultMaterial.value)
    {
      if scene == null {
        return None;
      }
      var uniforms := SceneUniforms(camera.projection.value,
                                    LookAt(camera.position, Plus3(camera.position, camera.front), camera.up),
                                    scene.light, scene.camera.position,
                                    shadowmapCamera, shadowmapProjection, shadowBias);
      var draws := DrawObjects(scene.worldObjects, order, clock, scene.defaultMaterial.value);
      frame := Some((uniforms, draws));
    }

    /** The loop of the main pass over the objects in key order; a throw ends it. */
    static method DrawObjects(objects: map<string, WorldObject>, order: seq<string>, clock: Clock, default: Material)
      returns (draws: Pass<Draw>)
      requires Enumerates(order, objects) && UsableDefault(default)
      ensures draws == ScenePass(Values(objects, order), clock, default)
    {
      ghost var objs := Values(objects, order);
      draws := Pass([], false);
      var i := 0;
      while i < |order|
        invariant 0 <= i <= |order|
        invariant draws == ScenePass(objs[..i], clock, default) && !draws.thrown
      {
        draws := DrawNext(objects, order, i, clock, default, draws.draws);
        if draws.thrown {
          ScenePassStays(objs, clock, default, i + 1);
          return;
        }
        i := i + 1;
      }
      assert objs[..|order|] == objs;
    }

    /** One turn of the main pass loop: the draws of the `i`-th object appended, or the throw. */
    static method DrawNext(objects: map<string, WorldObject>, order: seq<string>, i: nat, clock: Clock, default: Material,
                           drawn: seq<Draw>) returns (draws: Pass<Draw>)
      requires Enumerates(order, objects) && UsableDefault(default) && i < |order|
      requires ScenePass(Values(objects, order)[..i], clock, default) == Pass(drawn, false)
      ensures draws == ScenePass(Values(objects, order)[..i + 1], clock, default)
    {
      ghost var objs := Values(objects, order);
      var o := objects[order[i]];
      assert objs[..i + 1] == objs[..i] + [o];
      ScenePassAppend(objs[..i], o, clock, default);
      var step := DrawObject(o, clock, default);
      draws := Pass(drawn + step.draws, step.thrown);
    }

    /** One iteration of the main pass: the model when it renders, then the box when it is shown. */
    static method DrawObject(o: WorldObject, clock: Clock, default: Material) returns (step: Pass<Draw>)
      requires UsableDefault(default)
      ensures step == ObjectDraws(o, clock, default)
    {
      var drawn: seq<Draw> := [];
      if Renders(o) {
        var d := ModelDrawOf(o, clock, default, true, true);
        if d.None? {
          return Pass([], true);
        }
        drawn := [DrawModel(d.value)];
      }
      if o.aabb != null && o.aabb.render {
        drawn := drawn + [DrawBox(BoxDrawOf(o))];
      }
      step := Pass(drawn, false);
    }

    /**
     * `render(time)`: the shadow pass, then the main pass with the scene's
     * camera. The main pass uses the light-space matrices the shadow pass
     * just built; when the shadow pass throws, the main pass never runs.
     * Without a scene the shadow pass draws nothing and `render` then throws
     * reading `this.scene.camera`, so there is no frame either.
     */
    method Render(order: seq<string>, clock: Clock) returns (shadow: Pass<ModelDraw>, frame: Option<(SceneUniforms, Pass<Draw>)>)
      requires scene != null ==> Drawable(order) && scene.camera != null && scene.camera.projection.Some?
      modifies this`shadowmapProjection, this`shadowmapCamera
      ensures scene == null ==> shadow == Pass([], false) && frame.None? &&
                                shadowmapProjection == old(shadowmapProjection) && shadowmapCamera == old(shadowmapCamera)
      ensures scene != null ==> shadow == ShadowPass(Values(scene.worldObjects, order), clock, scene.defaultMaterial.value)
      ensures frame.None? <==> scene == null || shadow.thrown
      ensures frame.Some? ==>
                scene != null &&
                frame.value.0.lightSpaceCamera == Some(LookAt(scene.light, Vec3(0.0, 0.0, 0.0), Vec3(0.0, 1.0, 0.0))) &&
                frame.value.0.lightSpaceProjection == Some(Perspective(shadowmapFieldOfView, 1.0, shadowmapZNear, shadowmapZFar)) &&
                frame.value.1 == ScenePass(Values(scene.worldObjects, order), clock, scene.defaultMaterial.value)
    {
      var s := DrawShadowmap(order, clock);
      if s.None? {
        return Pass([], false), None;
      }
      shadow := s.value;
      if shadow.thrown {
        return shadow, None;
      }
      frame := DrawScene(scene.camera, order, clock);
    }
  }

  /** `vec3.add(target, a, b)`. */
  function Plus3(a: Vec3, b: Vec3): Vec3 {
    Vec3(a.x + b.x, a.y + b.y, a.z + b.z)
  }

  /** Visiting one more object, before any throw, appends its draws and takes on its throw. */
  lemma ScenePassAppend(objs: seq<WorldObject>, o: WorldObject, clock: Clock, default: Material)
    requires UsableDefault(default) && !ScenePass(objs, clock, default).thrown
    ensures ScenePass(objs + [o], clock, default) ==
            Pass(ScenePass(objs, clock, default).draws + ObjectDraws(o, clock, default).draws, ObjectDraws(o, clock, default).thrown)
  {
    assert (objs + [o])[..|objs|] == objs;
  }

  /** Once the main pass has thrown, the objects after that point change nothing. */
  lemma {:induction false} ScenePassStays(objs: seq<WorldObject>, clock: Clock, default: Material, i: nat)
    requires UsableDefault(default) && i <= |objs| && ScenePass(objs[..i], clock, default).thrown
    ensures ScenePass(objs, clock, default) == ScenePass(objs[..i], clock, default)
  {
    if i < |objs| {
      var n := |objs| - 1;
      assert objs[..n][..i] == objs[..i];
      ScenePassStays(objs[..n], clock, default, i);
    } else {
      assert objs[..i] == objs;
    }
  }

  /**
   * The main pass draws an object's model when it renders and its box when
   * the box is shown, provided no rendered object without a scale comes
   * before it or is it.
   */
  lemma ScenePassDraws(objs: seq<WorldObject>, clock: Clock, default: Material, i: nat)
    requires UsableDefault(default) && i < |objs|
    requires forall k :: 0 <= k <= i ==> !SceneStops(objs[k])
    ensures Renders(objs[i]) ==> objs[i].scale.Some? && DrawModel(ModelDrawOf(objs[i], clock, default, true, true).value) in ScenePass(objs, clock, default).draws
    ensures ShowsBox(objs[i]) ==> DrawBox(BoxDrawOf(objs[i])) in ScenePass(objs, clock, default).draws
  {
    var pre := objs[..i + 1];
    assert forall k :: 0 <= k < |pre| ==> pre[k] == objs[k];
    ScenePassLast(pre, clock, default);
    ObjectDrawsFacts(objs[i], clock, default);
    ScenePassPrefix(objs, clock, default, i + 1);
  }

  /** The draws of the pass over a prefix of the objects are all among the draws over all of them. */
  lemma {:induction false} ScenePassPrefix(objs: seq<WorldObject>, clock: Clock, default: Material, j: nat)
    requires UsableDefault(default) && j <= |objs|
    ensures forall d :: d in ScenePass(objs[..j], clock, default).draws ==> d in ScenePass(objs, clock, default).draws
  {
    if j < |objs| {
      var n := |objs| - 1;
      assert objs[..n][..j] == objs[..j];
      ScenePassPrefix(objs[..n], clock, default, j);
      ScenePassGrows(objs, clock, default);
    } else {
      assert objs[..j] == objs;
    }
  }

  /** When no object stops the pass, it ends with the draws of the last object. */
  lemma ScenePassLast(objs: seq<WorldObject>, clock: Clock, default: Material)
    requires UsableDefault(default) && objs != [] && forall k :: 0 <= k < |objs| ==> !SceneStops(objs[k])
    ensures ScenePass(objs, clock, default).draws ==
            ScenePass(objs[..|objs| - 1], clock, default).draws + ObjectDraws(objs[|objs| - 1], clock, default).draws
  {
    assert forall k :: 0 <= k < |objs| - 1 ==> objs[..|objs| - 1][k] == objs[k];
  }

  /** Every draw of the pass over the objects but the last is still there after the last. */
  lemma ScenePassGrows(objs: seq<WorldObject>, clock: Clock, default: Material)
    requires UsableDefault(default) && objs != []
    ensures forall d :: d in ScenePass(objs[..|objs| - 1], clock, default).draws ==> d in ScenePass(objs, clock, default).draws
  {
    var before := ScenePass(objs[..|objs| - 1], clock, default).draws;
    assert ScenePass(objs, clock, default).draws[..|before|] == before;
  }

  /**
   * At the first rendered object without a scale the main pass throws: it
   * has drawn exactly what it drew for the objects before it, neither the
   * model nor the box of that object, and nothing after it.
   */
  lemma ScenePassThrows(objs: seq<WorldObject>, clock: Clock, default: Material, i: nat)
    requires UsableDefault(default) && i < |objs| && SceneStops(objs[i])
    requires forall k :: 0 <= k < i ==> !SceneStops(objs[k])
    ensures ScenePass(objs, clock, default) == Pass(ScenePass(objs[..i], clock, default).draws, true)
  {
    assert objs[..i + 1][..i] == objs[..i];
    ScenePassStays(objs, clock, default, i + 1);
  }

  /** Every draw of the main pass is the model of a rendered object or the box of an object whose box is shown. */
  lemma {:induction false} ScenePassOnly(objs: seq<WorldObject>, clock: Clock, default: Material)
    requires UsableDefault(default)
    ensures forall k :: 0 <= k < |ScenePass(objs, clock, default).draws| ==>
              var d := ScenePass(objs, clock, default).draws[k];
              (d.DrawModel? ==> d.model.obj in objs && Renders(d.model.obj) &&
                                ModelDrawOf(d.model.obj, clock, default, true, true) == Some(d.model)) &&
              (d.DrawBox? ==> d.box.obj in objs && ShowsBox(d.box.obj) && d.box == BoxDrawOf(d.box.obj))
  {
    if objs != [] {
      var n := |objs| - 1;
      ScenePassOnly(objs[..n], clock, default);
      ObjectDrawsFacts(objs[n], clock, default);
      assert forall j :: 0 <= j < n ==> objs[..n][j] == objs[j];
    }
  }
}
