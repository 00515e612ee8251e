/**
 * The `GameEngine` of `js/GameEngine.js`: loading a scene file, the
 * completion counters of the asset loads, building the composite assets
 * once every atomic asset is in, casting the view ray, and adding default
 * assets from the editor. Fetching files and images is left to the caller:
 * a completed load arrives as a call to `MeshLoaded` or `TextureLoaded`
 * with the file's text or the image's size.
 */
module GameEngines {
  import opened Wrappers
  import opened Numbers
  import opened JsValues
  import opened Text
  import opened Utils
  import opened ObjParser
  import opened SceneFile
  import opened Meshes
  import opened Textures
  import opened Materials
  import opened Models
  import opened BoundingBoxes
  import opened WorldObjects
  import opened Controllers
  import opened Scenes
  import opened SceneDefaults
  import opened RayCasting
  import opened Rendering
  import opened SceneLoading
  import Physics

  // ---------------------------------------------------------------------------
  // The defaults of `createDefaults` (their values are in SceneDefaults)

  /** The default material has both textures, so the render fallbacks always find one. */
  lemma DefaultMaterialUsable()
    ensures UsableDefault(DefaultMaterial())
    ensures DefaultModel().mesh.Some? && GetNumVerts(DefaultModel().mesh.value) == 36
  {
  }

  /** `Math.floor(r * 100000).toString()` for `r = Math.random()`. */
  function RandomId(r: real): (id: string)
    requires 0.0 <= r < 1.0
    ensures ParseInt(id).Some? && 0 <= ParseInt(id).value < 100000
  {
    var n := (r * 100000.0).Floor;
    assert 0 <= n < 100000;
    ParseIntOfNatToString(n);
    NatToString(n)
  }

  // ---------------------------------------------------------------------------
  // The world objects of a scene file

  /** The objects built for the entries, paired with the entries' ids. */
  function Stored(es: seq<WorldObjectEntry>, wos: seq<WorldObject>): (kvs: seq<(string, WorldObject)>)
    requires |wos| == |es|
    ensures |kvs| == |es|
    ensures forall j :: 0 <= j < |es| ==> kvs[j] == (es[j].id, wos[j])
  {
    seq(|es|, j requires 0 <= j < |es| => (es[j].id, wos[j]))
  }

  /** Building one more object appends its pair. */
  lemma StoredAppend(es: seq<WorldObjectEntry>, wos: seq<WorldObject>, wo: WorldObject)
    requires |wos| < |es|
    ensures Stored(es[..|wos| + 1], wos + [wo]) == Stored(es[..|wos|], wos) + [(es[|wos|].id, wo)]
  {
  }

  /**
   * The world object built for an entry: id and type from the entry, the
   * resolved model and box, position and rotation when given (the pending
   * rotation stays the default one), the scale as given, and each flag
   * when given, else true; everything else as the constructor leaves it:
   * at rest, airborne, not flying, not colliding, not selected, the initial
   * space vectors and no projection.
   */
  ghost predicate LoadedAs(wo: WorldObject, e: WorldObjectEntry, models: map<string, Model>, defaultModel: Option<Model>)
    reads wo, wo.aabb
  {
    var model := ResolveModel(e.model, models, defaultModel);
    var bounds := ResolveBounds(e.aabb, model);
    wo.id == e.id && wo.kind == e.kind && wo.model == model &&
    (wo.aabb == null <==> bounds.None?) &&
    (wo.aabb != null ==> wo.aabb.bounds == bounds.value && !wo.aabb.render && wo.aabb.Valid()) &&
    wo.position == (if e.position.Some? then e.position.value else Vec3(0.0, 0.0, 0.0)) &&
    wo.rotation == (if e.rotation.Some? then e.rotation.value else Vec3(0.0, -90.0, 0.0)) &&
    wo.newRotation == Vec3(0.0, -90.0, 0.0) &&
    wo.scale == e.scale &&
    wo.isImmovable == Override(e.isImmovable, JBool(true)) &&
    wo.hasCollision == Override(e.hasCollision, JBool(true)) &&
    wo.hasGravity == Override(e.hasGravity, JBool(true)) &&
    wo.velocity == Vec3(0.0, 0.0, 0.0) && !wo.isColliding && !wo.selected &&
    wo.airborne && !wo.flying &&
    wo.front == Vec3(0.0, 0.0, -1.0) && wo.right == Vec3(1.0, 0.0, 0.0) && wo.up == Vec3(0.0, 1.0, 0.0) &&
    wo.projection.None?
  }

  /**
   * `objects` is `objects0` with the objects `wos` stored under the ids of
   * the entries in order, each built from its entry.
   */
  ghost predicate WorldObjectsLoaded(objects0: map<string, WorldObject>, es: seq<WorldObjectEntry>,
                                     models: map<string, Model>, defaultModel: Option<Model>,
                                     objects: map<string, WorldObject>, wos: seq<WorldObject>)
    reads wos, set j | 0 <= j < |wos| :: wos[j].aabb
  {
    |wos| == |es| && objects == InsertAll(objects0, Stored(es, wos)) &&
    forall j :: 0 <= j < |es| ==> LoadedAs(wos[j], es[j], models, defaultModel)
  }

  /** Storing the object built for the next entry extends the account of the loaded entries by one. */
  lemma StoreLoaded(objects0: map<string, WorldObject>, es: seq<WorldObjectEntry>,
                    models: map<string, Model>, defaultModel: Option<Model>,
                    objects: map<string, WorldObject>, wos: seq<WorldObject>, wo: WorldObject)
    requires |wos| < |es| && WorldObjectsLoaded(objects0, es[..|wos|], models, defaultModel, objects, wos)
    requires LoadedAs(wo, es[|wos|], models, defaultModel)
    ensures WorldObjectsLoaded(objects0, es[..|wos| + 1], models, defaultModel, objects[es[|wos|].id := wo], wos + [wo])
  {
    var i := |wos|;
    StoredAppend(es, wos, wo);
    InsertAllAppend(objects0, Stored(es[..i], wos), es[i].id, wo);
    var wos' := wos + [wo];
    forall j | 0 <= j < i + 1
      ensures LoadedAs(wos'[j], es[..i + 1][j], models, defaultModel)
    {
      if j < i {
        assert wos'[j] == wos[j] && es[..i + 1][j] == es[..i][j];
      }
    }
  }

  /**
   * After loading, every entry's id is in the pool, and the object under
   * an id is the one built from the last entry with that id; ids of no
   * entry keep their old object.
   */
  lemma WorldObjectsLastWins(objects0: map<string, WorldObject>, es: seq<WorldObjectEntry>,
                             models: map<string, Model>, defaultModel: Option<Model>,
                             objects: map<string, WorldObject>, wos: seq<WorldObject>, j: nat)
    requires WorldObjectsLoaded(objects0, es, models, defaultModel, objects, wos)
    requires j < |es| && forall j' :: j < j' < |es| ==> es[j'].id != es[j].id
    ensures es[j].id in objects && objects[es[j].id] == wos[j]
    ensures LoadedAs(objects[es[j].id], es[j], models, defaultModel)
    ensures forall k :: k in objects0 && (forall i :: 0 <= i < |es| ==> es[i].id != k) ==> k in objects && objects[k] == objects0[k]
  {
    var kvs := Stored(es, wos);
    InsertAllLast(objects0, kvs, j);
    InsertAllDomain(objects0, kvs);
  }

  /**
   * What composite loading leaves behind: the materials of the file built
   * against the textures, then the models against the meshes and the new
   * materials, then the world objects against the new models.
   */
  ghost predicate CompositeLoaded(json: SceneJson, textures: map<string, Texture>, meshes: map<string, Mesh>,
                                  defaultMesh: Option<Mesh>, defaultModel: Option<Model>,
                                  materials0: map<string, Material>, materials: map<string, Material>,
                                  models0: map<string, Model>, models: map<string, Model>,
                                  objects0: map<string, WorldObject>, objects: map<string, WorldObject>,
                                  wos: seq<WorldObject>)
    reads wos, set j | 0 <= j < |wos| :: wos[j].aabb
  {
    materials == InsertAll(materials0, MaterialPairs(json.materials, textures)) &&
    models == InsertAll(models0, ModelPairs(json.models, meshes, materials, defaultMesh)) &&
    WorldObjectsLoaded(objects0, json.worldObjects, models, defaultModel, objects, wos)
  }

  /** Storing one more pair. */
  lemma InsertAllAppend<T>(pool: map<string, T>, kvs: seq<(string, T)>, k: string, v: T)
    ensures InsertAll(pool, kvs + [(k, v)]) == InsertAll(pool, kvs)[k := v]
  {
    assert (kvs + [(k, v)])[..|kvs|] == kvs;
  }

  // ---------------------------------------------------------------------------
  // castRay

  /** The ray test is defined for the box of every object the ray is aimed at. */
  ghost predicate Aimable(o: WorldObject, origin: Vec3, dir: Vec3)
    reads o, o.aabb
  {
    o.aabb != null ==> RayDefined(origin, dir, o.GetWorldSpaceAABBBounds().value)
  }

  /** The result of the ray test for one object: skipped (a miss) without a box or with id "camera". */
  function Candidate(o: WorldObject, origin: Vec3, dir: Vec3): (t: Option<Ext>)
    reads o, o.aabb
    requires Aimable(o, origin, dir)
    ensures o.aabb == null || o.id == "camera" ==> t.None?
    ensures o.aabb != null && o.id != "camera" ==> t == RayAABBIntersect(origin, dir, Translate(o.aabb.bounds, o.position))
  {
    if o.aabb == null || o.id == "camera" then None
    else RayAABBIntersect(origin, dir, o.GetWorldSpaceAABBBounds().value)
  }

  /**
   * The state of the `castRay` loop after the first `i` of the ray-test
   * results `ts` of `objs`: the closest hit so far, its index and its object.
   */
  ghost predicate ClosestSoFar(ts: seq<Option<Ext>>, objs: seq<WorldObject>, i: nat,
                               minT: real, minObj: WorldObject?, minIdx: Option<nat>)
  {
    i <= |ts| == |objs| && (minT, minIdx) == Closest(ts[..i]) &&
    minObj == (if minIdx.Some? then objs[minIdx.value] else null)
  }

  /**
   * What a ray cast over `world`, visited in `order`, settles on: the
   * smallest truthy distance (the first on ties) and the object it belongs
   * to, or `Number.MAX_VALUE` and no object.
   */
  ghost function Aim(world: map<string, WorldObject>, order: seq<string>, origin: Vec3, dir: Vec3): (WorldObject?, real)
    requires Enumerates(order, world)
    requires AllAimable(Values(world, order), origin, dir)
    reads Values(world, order), set i | 0 <= i < |order| :: Values(world, order)[i].aabb
  {
    var objs := Values(world, order);
    var pick := Closest(Candidates(objs, origin, dir));
    (if pick.1.Some? then objs[pick.1.value] else null, pick.0)
  }

  /** The ray test is defined for every object of `objs`. */
  ghost predicate AllAimable(objs: seq<WorldObject>, origin: Vec3, dir: Vec3)
    reads objs, set i | 0 <= i < |objs| :: objs[i].aabb
  {
    forall i :: 0 <= i < |objs| ==> Aimable(objs[i], origin, dir)
  }

  /** The results of the ray test in visiting order. */
  function Candidates(objs: seq<WorldObject>, origin: Vec3, dir: Vec3): (ts: seq<Option<Ext>>)
    reads objs, set i | 0 <= i < |objs| :: objs[i].aabb
    requires AllAimable(objs, origin, dir)
    ensures |ts| == |objs|
  {
    if objs == [] then []
    else
      var n := |objs| - 1;
      assert forall i :: 0 <= i < n ==> objs[..n][i] == objs[i];
      Candidates(objs[..n], origin, dir) + [Candidate(objs[n], origin, dir)]
  }

  /** The `i`-th result is the ray test of the `i`-th object. */
  lemma {:induction false} CandidatesAt(objs: seq<WorldObject>, i: nat, origin: Vec3, dir: Vec3)
    requires i < |objs| && AllAimable(objs, origin, dir)
    ensures Candidates(objs, origin, dir)[i] == Candidate(objs[i], origin, dir)
  {
    var n := |objs| - 1;
    if i < n {
      assert objs[..n][i] == objs[i];
      CandidatesAt(objs[..n], i, origin, dir);
    }
  }

  /**
   * The ray test runs on the camera like on any other object (its id is "Camera", not
   * "camera"), but a ray cast from strictly inside its own box never hits it.
   */
  lemma CameraNotSkipped(cam: WorldObject, dir: Vec3)
    requires cam.id == "Camera" && cam.aabb != null && Aimable(cam, cam.position, dir)
    requires Physics.Finite(cam.aabb.bounds)
    requires cam.aabb.bounds.minX.v < 0.0 < cam.aabb.bounds.maxX.v
    requires cam.aabb.bounds.minY.v < 0.0 < cam.aabb.bounds.maxY.v
    requires cam.aabb.bounds.minZ.v < 0.0 < cam.aabb.bounds.maxZ.v
    ensures Candidate(cam, cam.position, dir) == RayAABBIntersect(cam.position, dir, Translate(cam.aabb.bounds, cam.position))
    ensures Candidate(cam, cam.position, dir).None?
  {
    var b := Translate(cam.aabb.bounds, cam.position);
    StartInsideMisses(cam.position, dir, b);
  }

  // ---------------------------------------------------------------------------
  // The engine

  class GameEngine {
    var scene: Scene?
    /** The loading state. */
    var currentAtomic: nat
    var currentComposite: nat
    var totalAtomic: nat
    var totalComposite: nat
    var done: bool
    /** The scene file of the load in progress, which the load callbacks capture. */
    var sceneJson: SceneJson
    /** How many times composite loading has run for the load in progress. */
    ghost var compositeRuns: nat

    var controller: Controller?
    var lookingAtObj: WorldObject?
    /** `null` until the first ray is cast. */
    var rayCastT: Option<real>
    const renderEngine: RenderEngine

    /**
     * The counters hold for the load in progress: the totals are the sizes
     * of the file's lists, composite loading has run once exactly when at
     * least one atomic asset was expected and all have arrived, it added
     * one per composite entry, and it set `done`.
     */
    ghost predicate Loading()
      reads this
    {
      totalAtomic == |sceneJson.meshes| + |sceneJson.textures| &&
      totalComposite == |sceneJson.models| + |sceneJson.materials| + |sceneJson.worldObjects| &&
      currentAtomic <= totalAtomic &&
      compositeRuns == (if 0 < totalAtomic && currentAtomic == totalAtomic then 1 else 0) &&
      currentComposite == (if compositeRuns == 1 then totalComposite else 0) &&
      (compositeRuns == 1 ==> done)
    }

    /** `new GameEngine(canvas, gl)`: no scene, zero counters, not done, no controller or ray result. */
    constructor ()
      ensures scene == null && controller == null && lookingAtObj == null && rayCastT.None?
      ensures currentAtomic == 0 && currentComposite == 0 && totalAtomic == 0 && totalComposite == 0
      ensures !done && Loading()
      ensures fresh(renderEngine) && renderEngine.scene == null
    {
      scene := null;
      currentAtomic := 0;
      currentComposite := 0;
      totalAtomic := 0;
      totalComposite := 0;
      done := false;
      sceneJson := SceneJson([], [], [], [], []);
      compositeRuns := 0;
      controller := null;
      lookingAtObj := null;
      rayCastT := None;
      renderEngine := new RenderEngine();
    }

    /** `createDefaults()` on the scene `s`: its default material, box mesh and model. */
    static method CreateDefaults(s: Scene)
      modifies s`defaultMaterial, s`defaultMesh, s`defaultModel
      ensures s.defaultMaterial == Some(DefaultMaterial())
      ensures s.defaultMesh == Some(DefaultMesh())
      ensures s.defaultModel == Some(DefaultModel())
      ensures s.defaultModel.value.mesh == s.defaultMesh && s.defaultModel.value.material == s.defaultMaterial
    {
      var diffuse := Texture("defaultTexture", "none", "diffuse", 1, 1);
      var normal := Texture("defaultTexture", "none", "normal", 1, 1);
      s.defaultMaterial := Some(NewMaterial("defaultMaterial", Some(diffuse), Some(normal)));
      s.defaultMesh := Some(MeshOfData("defaultMesh", "none", CreateBoxMeshData(3.0, 3.0, 3.0)));
      s.defaultModel := Some(NewModel("defaultModel", s.defaultMesh, s.defaultMaterial));
    }

    /**
     * `loadScene(sceneJson)`: a new scene with its defaults, shared with the
     * render engine; both current counters reset and the totals set from
     * the file (`done` is left as it was); a new controller possessing a
     * new camera, stored as the scene's camera and under the key "camera",
     * with a box of half-widths 1, 2.5 and 1. No asset is in yet.
     */
    method LoadScene(json: SceneJson, aspect: real)
      modifies this`scene, this`currentAtomic, this`currentComposite, this`totalAtomic, this`totalComposite,
               this`sceneJson, this`compositeRuns, this`controller, renderEngine`scene
      ensures fresh(scene) && renderEngine.scene == scene && Started(scene, aspect)
      ensures fresh(scene.camera) && fresh(scene.camera.aabb)
      ensures controller != null && fresh(controller) && controller.child == scene.camera
      ensures sceneJson == json && Loading()
      ensures currentAtomic == 0 && currentComposite == 0 && compositeRuns == 0 && done == old(done)
      ensures totalAtomic == |json.meshes| + |json.textures|
      ensures totalComposite == |json.models| + |json.materials| + |json.worldObjects|
    {
      var s, c := NewScene(aspect);
      scene := s;
      renderEngine.scene := s;
      controller := c;
      StartLoading(json);
    }

    /** The counters of `loadScene`: nothing loaded yet out of every asset of `json`. */
    method StartLoading(json: SceneJson)
      modifies this`currentAtomic, this`currentComposite, this`totalAtomic, this`totalComposite,
               this`sceneJson, this`compositeRuns
      ensures sceneJson == json && Loading()
      ensures currentAtomic == 0 && currentComposite == 0 && compositeRuns == 0
      ensures totalAtomic == |json.meshes| + |json.textures|
      ensures totalComposite == |json.models| + |json.materials| + |json.worldObjects|
    {
      currentAtomic := 0;
      currentComposite := 0;
      totalAtomic := |json.meshes| + |json.textures|;
      totalComposite := |json.models| + |json.materials| + |json.worldObjects|;
      sceneJson := json;
      compositeRuns := 0;
    }

    /**
     * The scene `loadScene` builds, with its defaults and its camera, and
     * the controller that possesses the camera.
     */
    static method NewScene(aspect: real) returns (s: Scene, c: Controller)
      ensures fresh(s) && fresh(c) && Started(s, aspect) && fresh(s.camera) && fresh(s.camera.aabb)
      ensures c.child == s.camera
    {
      s := new Scene();
      CreateDefaults(s);
      var cam := NewCamera(aspect);
      s.camera := cam;
      s.worldObjects := s.worldObjects["camera" := cam];
      c := Possess(cam);
    }

    /** The camera of a new scene, with a box of half-widths 1, 2.5 and 1 that is not drawn. */
    static method NewCamera(aspect: real) returns (cam: WorldObject)
      ensures fresh(cam) && cam.aabb != null && fresh(cam.aabb)
      ensures cam.id == "Camera" && cam.projection == Some(Perspective(45.0, aspect, 0.1, 100.0))
      ensures cam.aabb.bounds == Bounds(Fin(-1.0), Fin(1.0), Fin(-2.5), Fin(2.5), Fin(-1.0), Fin(1.0))
      ensures !cam.aabb.render
    {
      cam := new WorldObject.Camera(Vec3(0.0, 0.0, 10.0), 45.0, aspect, 0.1, 100.0);
      var box := new AABB(Fin(-1.0), Fin(1.0), Fin(-2.5), Fin(2.5), Fin(-1.0), Fin(1.0));
      cam.aabb := box;
    }

    /** A new controller possessing `cam`, which it leaves mobile. */
    static method Possess(cam: WorldObject) returns (c: Controller)
      modifies cam`isImmovable
      ensures fresh(c) && c.child == cam && cam.isImmovable == JBool(false)
    {
      c := new Controller();
      c.Parent(cam);
    }

    /**
     * The end of every atomic callback: count the asset in and, when it is
     * the last one, load the composite assets. Composite loading therefore
     * runs exactly once per load, on whichever completion comes last.
     */
    method ReportAtomic() returns (ghost wos: seq<WorldObject>)
      requires Loading() && scene != null && currentAtomic < totalAtomic
      modifies this`currentAtomic, this`currentComposite, this`done, this`compositeRuns,
               scene`materials, scene`models, scene`worldObjects
      ensures Loading() && currentAtomic == old(currentAtomic) + 1
      ensures compositeRuns == old(compositeRuns) + (if currentAtomic == totalAtomic then 1 else 0)
      ensures currentAtomic < totalAtomic ==>
                done == old(done) && scene.materials == old(scene.materials) &&
                scene.models == old(scene.models) && scene.worldObjects == old(scene.worldObjects)
      ensures currentAtomic == totalAtomic ==>
                done && currentComposite == totalComposite &&
                CompositeLoaded(sceneJson, scene.textures, scene.meshes, scene.defaultMesh, scene.defaultModel,
                                old(scene.materials), scene.materials, old(scene.models), scene.models,
                                old(scene.worldObjects), scene.worldObjects, wos)
    {
      wos := [];
      currentAtomic := currentAtomic + 1;
      if currentAtomic == totalAtomic {
        compositeRuns := compositeRuns + 1;
        wos := LoadCompositeAssets();
      }
    }

    /**
     * The callback of a mesh file: parse it and store the mesh under the
     * entry's id, then count it in. A file the parser throws on is never
     * counted, so composite loading then never starts.
     */
    method MeshLoaded(e: MeshEntry, objFile: string, parseFloat: string -> Scalar, tangentFn: TangentFn)
      returns (ghost wos: seq<WorldObject>)
      requires Loading() && scene != null && currentAtomic < totalAtomic
      modifies this`currentAtomic, this`currentComposite, this`done, this`compositeRuns,
               scene`meshes, scene`materials, scene`models, scene`worldObjects
      ensures Loading()
      ensures Expected(objFile, parseFloat, tangentFn).Failure? ==> unchanged(this) && unchanged(scene)
      ensures Expected(objFile, parseFloat, tangentFn).Success? ==>
                scene.meshes == old(scene.meshes)[e.id := MeshOfData(e.id, e.path, Expected(objFile, parseFloat, tangentFn).value)] &&
                currentAtomic == old(currentAtomic) + 1 &&
                compositeRuns == old(compositeRuns) + (if currentAtomic == totalAtomic then 1 else 0)
      ensures Expected(objFile, parseFloat, tangentFn).Success? && currentAtomic == totalAtomic ==>
                done && currentComposite == totalComposite &&
                CompositeLoaded(sceneJson, scene.textures, scene.meshes, scene.defaultMesh, scene.defaultModel,
                                old(scene.materials), scene.materials, old(scene.models), scene.models,
                                old(scene.worldObjects), scene.worldObjects, wos)
    {
      wos := [];
      var r := ParseOBJFile(objFile, parseFloat, tangentFn);
      if r.Failure? {
        return;
      }
      scene.meshes := scene.meshes[e.id := MeshOfData(e.id, e.path, r.value)];
      wos := ReportAtomic();
    }

    /** The `onload` of a texture image: store the texture under the entry's id, then count it in. */
    method TextureLoaded(e: TextureEntry, width: nat, height: nat) returns (ghost wos: seq<WorldObject>)
      requires Loading() && scene != null && currentAtomic < totalAtomic
      modifies this`currentAtomic, this`currentComposite, this`done, this`compositeRuns,
               scene`textures, scene`materials, scene`models, scene`worldObjects
      ensures Loading()
      ensures scene.textures == old(scene.textures)[e.id := TextureOf(e, width, height)]
      ensures currentAtomic == old(currentAtomic) + 1
      ensures compositeRuns == old(compositeRuns) + (if currentAtomic == totalAtomic then 1 else 0)
      ensures currentAtomic == totalAtomic ==>
                done && currentComposite == totalComposite &&
                CompositeLoaded(sceneJson, scene.textures, scene.meshes, scene.defaultMesh, scene.defaultModel,
                                old(scene.materials), scene.materials, old(scene.models), scene.models,
                                old(scene.worldObjects), scene.worldObjects, wos)
    {
      scene.textures := scene.textures[e.id := TextureOf(e, width, height)];
      wos := ReportAtomic();
    }

    /** `loadCompositeAssets(sceneJson)`: materials, then models, then world objects; then `done`. */
    method LoadCompositeAssets() returns (ghost wos: seq<WorldObject>)
      requires scene != null
      modifies this`currentComposite, this`done, scene`materials, scene`models, scene`worldObjects
      ensures done
      ensures currentComposite == old(currentComposite) + |sceneJson.materials| + |sceneJson.models| + |sceneJson.worldObjects|
      ensures CompositeLoaded(sceneJson, scene.textures, scene.meshes, scene.defaultMesh, scene.defaultModel,
                              old(scene.materials), scene.materials, old(scene.models), scene.models,
                              old(scene.worldObjects), scene.worldObjects, wos)
    {
      LoadMaterials();
      LoadModels();
      ghost var materials, models := scene.materials, scene.models;
      wos := LoadWorldObjects();
      assert scene.materials == materials && scene.models == models;
      done := true;
    }

    /** The material loop: each entry's material stored under its id. */
    method LoadMaterials()
      requires scene != null
      modifies this`currentComposite, scene`materials
      ensures scene.materials == InsertAll(old(scene.materials), MaterialPairs(sceneJson.materials, scene.textures))
      ensures currentComposite == old(currentComposite) + |sceneJson.materials|
    {
      var es := sceneJson.materials;
      var textures := scene.textures;
      ghost var pool0 := scene.materials;
      var i := 0;
      while i < |es|
        invariant 0 <= i <= |es|
        invariant scene.materials == InsertAll(pool0, MaterialPairs(es[..i], textures))
        invariant currentComposite == old(currentComposite) + i
      {
        StoreMaterial(scene, pool0, es, i, textures);
        currentComposite := currentComposite + 1;
        i := i + 1;
      }
      assert es[..|es|] == es;
    }

    /** One turn of the material loop: the `i`-th entry's material stored under its id. */
    static method StoreMaterial(s: Scene, ghost pool0: map<string, Material>, es: seq<MaterialEntry>, i: nat,
                                textures: map<string, Texture>)
      requires i < |es| && s.materials == InsertAll(pool0, MaterialPairs(es[..i], textures))
      modifies s`materials
      ensures s.materials == InsertAll(pool0, MaterialPairs(es[..i + 1], textures))
    {
      var e := es[i];
      var diffuse := Lookup(textures, e.diffuseTexture);
      var normal := Lookup(textures, e.normalTexture);
      var material := NewMaterial(e.id, diffuse, normal);
      if e.scale.Some? {
        material := material.(scale := e.scale.value);
      }
      assert material == MaterialOf(e, textures);
      MaterialPairsAppend(es, i, textures);
      InsertAllAppend(pool0, MaterialPairs(es[..i], textures), e.id, material);
      s.materials := s.materials[e.id := material];
    }

    /** The model loop: each entry's model stored under its id. */
    method LoadModels()
      requires scene != null
      modifies this`currentComposite, scene`models
      ensures scene.models == InsertAll(old(scene.models), ModelPairs(sceneJson.models, scene.meshes, scene.materials, scene.defaultMesh))
      ensures currentComposite == old(currentComposite) + |sceneJson.models|
    {
      var es := sceneJson.models;
      var meshes, materials, defaultMesh := scene.meshes, scene.materials, scene.defaultMesh;
      ghost var pool0 := scene.models;
      var i := 0;
      while i < |es|
        invariant 0 <= i <= |es|
        invariant scene.models == InsertAll(pool0, ModelPairs(es[..i], meshes, materials, defaultMesh))
        invariant currentComposite == old(currentComposite) + i
      {
        StoreModel(scene, pool0, es, i, meshes, materials, defaultMesh);
        currentComposite := currentComposite + 1;
        i := i + 1;
      }
      assert es[..|es|] == es;
    }

    /** One turn of the model loop: the `i`-th entry's model stored under its id. */
    static method StoreModel(s: Scene, ghost pool0: map<string, Model>, es: seq<ModelEntry>, i: nat,
                             meshes: map<string, Mesh>, materials: map<string, Material>, defaultMesh: Option<Mesh>)
      requires i < |es| && s.models == InsertAll(pool0, ModelPairs(es[..i], meshes, materials, defaultMesh))
      modifies s`models
      ensures s.models == InsertAll(pool0, ModelPairs(es[..i + 1], meshes, materials, defaultMesh))
    {
      var model := BuildModel(es[i], meshes, materials, defaultMesh);
      ModelPairsAppend(es, i, meshes, materials, defaultMesh);
      InsertAllAppend(pool0, ModelPairs(es[..i], meshes, materials, defaultMesh), es[i].id, model);
      s.models := s.models[es[i].id := model];
    }

    /** The body of the model loop for one entry. */
    static method BuildModel(e: ModelEntry, meshes: map<string, Mesh>, materials: map<string, Material>,
                             defaultMesh: Option<Mesh>) returns (model: Model)
      ensures model == ModelOf(e, meshes, materials, defaultMesh)
    {
      var mesh := Lookup(meshes, e.mesh);
      if mesh.None? {
        mesh := defaultMesh;
      }
      var material := Lookup(materials, e.material);
      model := NewModel(e.id, mesh, material);
      model := ApplyRenderSettings(model, e);
      model := ApplyAnimation(model, e);
    }

    /** The four render settings an entry gives, each kept from `m` when absent. */
    static method ApplyRenderSettings(m: Model, e: ModelEntry) returns (model: Model)
      ensures model == m.(render := Override(e.render, m.render),
                          castShadow := Override(e.castShadow, m.castShadow),
                          recieveShadow := Override(e.recieveShadow, m.recieveShadow),
                          recieveLighting := Override(e.recieveLighting, m.recieveLighting))
    {
      model := m;
      if e.render.Some? { model := model.(render := e.render.value); }
      if e.castShadow.Some? { model := model.(castShadow := e.castShadow.value); }
      if e.recieveShadow.Some? { model := model.(recieveShadow := e.recieveShadow.value); }
      if e.recieveLighting.Some? { model := model.(recieveLighting := e.recieveLighting.value); }
    }

    /** The four animation settings an entry gives, each kept from `m` when absent. */
    static method ApplyAnimation(m: Model, e: ModelEntry) returns (model: Model)
      ensures model == m.(animateRot := Override(e.animateRot, m.animateRot),
                          rotAxis := Override(e.rotAxis, m.rotAxis),
                          rotSpeedFactor := Override(e.rotSpeedFactor, m.rotSpeedFactor),
                          animateTrans := Override(e.animateTrans, m.animateTrans))
    {
      model := m;
      if e.animateRot.Some? { model := model.(animateRot := e.animateRot.value); }
      if e.rotAxis.Some? { model := model.(rotAxis := e.rotAxis.value); }
      if e.rotSpeedFactor.Some? { model := model.(rotSpeedFactor := e.rotSpeedFactor.value); }
      if e.animateTrans.Some? { model := model.(animateTrans := e.animateTrans.value); }
    }

    /** The world-object loop: each entry's object built and stored under its id. */
    method LoadWorldObjects() returns (ghost wos: seq<WorldObject>)
      requires scene != null
      modifies this`currentComposite, scene`worldObjects
      ensures WorldObjectsLoaded(old(scene.worldObjects), sceneJson.worldObjects, scene.models, scene.defaultModel,
                                 scene.worldObjects, wos)
      ensures currentComposite == old(currentComposite) + |sceneJson.worldObjects|
    {
      var es := sceneJson.worldObjects;
      ghost var objects0 := scene.worldObjects;
      wos := [];
      var i := 0;
      while i < |es|
        invariant 0 <= i <= |es| && |wos| == i
        invariant WorldObjectsLoaded(objects0, es[..i], scene.models, scene.defaultModel, scene.worldObjects, wos)
        invariant currentComposite == old(currentComposite) + i
      {
        wos := LoadNext(scene, objects0, es, i, wos);
        currentComposite := currentComposite + 1;
        i := i + 1;
      }
      assert es[..|es|] == es;
    }

    /** The body of the world-object loop: build the object of the next entry and store it under its id. */
    static method LoadNext(s: Scene, ghost objects0: map<string, WorldObject>, es: seq<WorldObjectEntry>,
                           i: nat, ghost wos: seq<WorldObject>) returns (ghost wos': seq<WorldObject>)
      requires i == |wos| < |es|
      requires WorldObjectsLoaded(objects0, es[..i], s.models, s.defaultModel, s.worldObjects, wos)
      modifies s`worldObjects
      ensures WorldObjectsLoaded(objects0, es[..i + 1], s.models, s.defaultModel, s.worldObjects, wos')
      ensures wos' == wos + [wos'[i]] && fresh(wos'[i])
    {
      var wo := LoadWorldObject(es[i], s.models, s.defaultModel);
      StoreLoaded(objects0, es, s.models, s.defaultModel, s.worldObjects, wos, wo);
      s.worldObjects := s.worldObjects[es[i].id := wo];
      wos' := wos + [wo];
    }

    /** Building the object of one entry. */
    static method LoadWorldObject(e: WorldObjectEntry, models: map<string, Model>, defaultModel: Option<Model>)
      returns (wo: WorldObject)
      ensures fresh(wo) && (wo.aabb != null ==> fresh(wo.aabb))
      ensures LoadedAs(wo, e, models, defaultModel)
    {
      wo := new WorldObject(e.id, e.kind);
      SetModelAndBox(wo, e, models, defaultModel);
      ApplySettings(wo, e);
    }

    /** The model and box resolution of the world-object loop. */
    static method SetModelAndBox(wo: WorldObject, e: WorldObjectEntry, models: map<string, Model>, defaultModel: Option<Model>)
      requires wo.model.None? && wo.aabb == null
      modifies wo`model, wo`aabb
      ensures wo.model == ResolveModel(e.model, models, defaultModel)
      ensures wo.aabb == null <==> ResolveBounds(e.aabb, wo.model).None?
      ensures wo.aabb != null ==>
                fresh(wo.aabb) && wo.aabb.bounds == ResolveBounds(e.aabb, wo.model).value &&
                !wo.aabb.render && wo.aabb.Valid()
    {
      if NameGiven(e.model) && e.model.value != "none" {
        if e.model.value in models {
          wo.model := Some(models[e.model.value]);
        }
      } else if NameGiven(e.model) {
        wo.model := None;
      } else {
        wo.model := defaultModel;
      }
      if e.aabb.Some? && e.aabb.value.Explicit? {
        var box := new AABB();
        box.SetBounds(e.aabb.value.bounds);
        wo.aabb := box;
      } else if e.aabb.Some? {
        wo.aabb := null;
      } else if wo.model.Some? && wo.model.value.mesh.Some? {
        var box := new AABB();
        var b := wo.model.value.GetModelAABB();
        box.SetBounds(b.value);
        wo.aabb := box;
      }
    }

    /** The optional settings of the world-object loop: each one given replaces the default. */
    static method ApplySettings(wo: WorldObject, e: WorldObjectEntry)
      modifies wo`position, wo`rotation, wo`scale, wo`isImmovable, wo`hasCollision, wo`hasGravity
      ensures wo.position == (if e.position.Some? then e.position.value else old(wo.position))
      ensures wo.rotation == (if e.rotation.Some? then e.rotation.value else old(wo.rotation))
      ensures wo.scale == (if e.scale.Some? then e.scale else old(wo.scale))
      ensures wo.isImmovable == Override(e.isImmovable, old(wo.isImmovable))
      ensures wo.hasCollision == Override(e.hasCollision, old(wo.hasCollision))
      ensures wo.hasGravity == Override(e.hasGravity, old(wo.hasGravity))
    {
      if e.position.Some? { wo.position := e.position.value; }
      if e.rotation.Some? { wo.rotation := e.rotation.value; }
      if e.scale.Some? { wo.scale := e.scale; }
      if e.isImmovable.Some? { wo.isImmovable := e.isImmovable.value; }
      if e.hasCollision.Some? { wo.hasCollision := e.hasCollision.value; }
      if e.hasGravity.Some? { wo.hasGravity := e.hasGravity.value; }
    }

    /**
     * `addNewWorldObject()`: a new object of type "model" with the default
     * model and no box, stored under a random id. The call passes one
     * argument too many, so `isImmovable` receives the array [1, 1, 1]
     * meant as a scale and the rotation is (0, 0, 0).
     */
    method AddNewWorldObject(rand: real) returns (id: string)
      requires scene != null && 0.0 <= rand < 1.0
      modifies scene`worldObjects
      ensures id == RandomId(rand) && id in scene.worldObjects
      ensures scene.worldObjects == old(scene.worldObjects)[id := scene.worldObjects[id]]
      ensures fresh(scene.worldObjects[id])
      ensures scene.worldObjects[id].id == id && scene.worldObjects[id].kind == "model"
      ensures scene.worldObjects[id].position == Vec3(0.0, 0.0, 0.0) && scene.worldObjects[id].rotation == Vec3(0.0, 0.0, 0.0)
      ensures scene.worldObjects[id].isImmovable == JArr([JNum(1.0), JNum(1.0), JNum(1.0)])
      ensures scene.worldObjects[id].hasCollision == JBool(true) && scene.worldObjects[id].hasGravity == JBool(true)
      ensures scene.worldObjects[id].model == scene.defaultModel && scene.worldObjects[id].aabb == null
      ensures var wo := scene.worldObjects[id];
              wo.newRotation == Vec3(0.0, 0.0, 0.0) && wo.velocity == Vec3(0.0, 0.0, 0.0) &&
              !wo.isColliding && wo.airborne && !wo.flying &&
              wo.front == Vec3(0.0, 0.0, -1.0) && wo.right == Vec3(1.0, 0.0, 0.0) && wo.up == Vec3(0.0, 1.0, 0.0) &&
              wo.scale.None? && !wo.selected && wo.projection.None?
    {
      id := NatToString((rand * 100000.0).Floor);
      var wo := new WorldObject(id, "model", Vec3(0.0, 0.0, 0.0), Vec3(0.0, 0.0, 0.0),
                                JArr([JNum(1.0), JNum(1.0), JNum(1.0)]), JBool(true), JBool(true));
      wo.model := scene.defaultModel;
      scene.worldObjects := scene.worldObjects[id := wo];
    }

    /** `addNewModel()`: a new model of the default mesh and material under a random id. */
    method AddNewModel(rand: real) returns (id: string)
      requires scene != null && 0.0 <= rand < 1.0
      modifies scene`models
      ensures id == RandomId(rand)
      ensures scene.models == old(scene.models)[id := NewModel(id, scene.defaultMesh, scene.defaultMaterial)]
    {
      id := NatToString((rand * 100000.0).Floor);
      scene.models := scene.models[id := NewModel(id, scene.defaultMesh, scene.defaultMaterial)];
    }

    /**
     * `addNewMaterial()`: a new material under a random id. It reads scene
     * fields `createDefaults` never sets, so the material has no textures.
     */
    method AddNewMaterial(rand: real) returns (id: string)
      requires scene != null && 0.0 <= rand < 1.0
      modifies scene`materials
      ensures id == RandomId(rand)
      ensures scene.materials == old(scene.materials)[id := NewMaterial(id, None, None)]
    {
      id := NatToString((rand * 100000.0).Floor);
      scene.materials := scene.materials[id := NewMaterial(id, None, None)];
    }

    /**
     * `castRay()`: test the ray from the possessed object along its front
     * against every object in key order and keep the closest truthy hit,
     * the first one on ties; `Number.MAX_VALUE` and no object when nothing
     * is hit. (The source first clears `lookingAtObj`; the field is
     * overwritten before anything reads it, so that write is not modelled.)
     */
    method CastRay(order: seq<string>)
      requires scene != null && controller != null && controller.child != null
      requires Enumerates(order, scene.worldObjects)
      requires AllAimable(Values(scene.worldObjects, order), controller.child.position, controller.child.front)
      modifies this`lookingAtObj, this`rayCastT
      ensures (rayCastT, lookingAtObj) ==
              old(var p := Aim(scene.worldObjects, order, controller.child.position, controller.child.front); (Some(p.1), p.0))
    {
      var minT, minObj := ClosestObject(Values(scene.worldObjects, order), controller.child.position, controller.child.front);
      lookingAtObj := minObj;
      rayCastT := Some(minT);
    }

    /**
     * The loop of `castRay` over the objects in key order: skip those
     * without a box or with id "camera", and keep the first object with the
     * smallest nonzero hit distance below `Number.MAX_VALUE`.
     */
    static method ClosestObject(objs: seq<WorldObject>, origin: Vec3, dir: Vec3) returns (minT: real, minObj: WorldObject?)
      requires AllAimable(objs, origin, dir)
      ensures var pick := Closest(Candidates(objs, origin, dir));
              minT == pick.0 && minObj == (if pick.1.Some? then objs[pick.1.value] else null)
    {
      minT := MaxValue;
      minObj := null;
      ghost var minIdx: Option<nat> := None;
      ghost var ts := Candidates(objs, origin, dir);
      var i := 0;
      while i < |objs|
        invariant ClosestSoFar(ts, objs, i, minT, minObj, minIdx)
      {
        CandidatesAt(objs, i, origin, dir);
        minT, minObj, minIdx := ClosestStep(ts, objs, i, origin, dir, minT, minObj, minIdx);
        i := i + 1;
      }
      assert ts[..i] == ts;
      assert Candidates(objs, origin, dir) == ts;
      assert (minT, minIdx) == Closest(ts);
    }

    /** One turn of the `castRay` loop: the closest hit among the first `i + 1` objects. */
    static method ClosestStep(ghost ts: seq<Option<Ext>>, objs: seq<WorldObject>, i: nat, origin: Vec3, dir: Vec3,
                              minT: real, minObj: WorldObject?, ghost minIdx: Option<nat>)
      returns (minT': real, minObj': WorldObject?, ghost minIdx': Option<nat>)
      requires i < |objs| == |ts| && Aimable(objs[i], origin, dir) && ts[i] == Candidate(objs[i], origin, dir)
      requires ClosestSoFar(ts, objs, i, minT, minObj, minIdx)
      ensures ClosestSoFar(ts, objs, i + 1, minT', minObj', minIdx')
    {
      assert ts[..i + 1] == ts[..i] + [ts[i]];
      ClosestAppend(ts[..i], ts[i]);
      minIdx' := if Beats(ts[i], minT) then Some(i) else minIdx;
      minT', minObj' := TestObject(objs[i], origin, dir, minT, minObj);
    }

    /** One object of the `castRay` loop: it becomes the closest when its hit beats the closest so far. */
    static method TestObject(obj: WorldObject, origin: Vec3, dir: Vec3, minT: real, minObj: WorldObject?)
      returns (minT': real, minObj': WorldObject?)
      requires Aimable(obj, origin, dir)
      ensures Beats(Candidate(obj, origin, dir), minT) ==>
                minT' == Candidate(obj, origin, dir).value.v && minObj' == obj
      ensures !Beats(Candidate(obj, origin, dir), minT) ==> minT' == minT && minObj' == minObj
    {
      minT', minObj' := minT, minObj;
      if obj.aabb == null || obj.id == "camera" {
        return;
      }
      var t := RayAABBIntersect(origin, dir, obj.GetWorldSpaceAABBBounds().value);
      if Beats(t, minT) {
        minT' := t.value.v;
        minObj' := obj;
      }
    }
  }

}
