/**
 * `js/Scene.js`: a scene holds the world objects by key, four asset pools,
 * the camera, the light position and the defaults the engine creates for
 * it; `toJSON` exports the pools and the non-camera objects.
 */
module Scenes {
  import opened Wrappers
  import opened Numbers
  import opened JsValues
  import opened Meshes
  import opened Textures
  import opened Materials
  import opened Models
  import opened WorldObjects
  import opened Controllers

  /**
   * What `toJSON` returns: the values of the four pools and the world
   * objects other than cameras. The camera, controller and light are not
   * part of it; `JSON.stringify` then writes each asset through its own
   * `toJSON`.
   */
  datatype SceneExport = SceneExport(
    meshes: seq<Mesh>,
    textures: seq<Texture>,
    materials: seq<Material>,
    models: seq<Model>,
    worldObjects: seq<WorldObject>)

  /** The key orders in which `Object.values` visits the five dictionaries of a scene. */
  datatype KeyOrders = KeyOrders(
    meshes: seq<string>,
    textures: seq<string>,
    materials: seq<string>,
    models: seq<string>,
    worldObjects: seq<string>)

  /** `objs.filter(wO => wO.type != "camera")`. */
  function NonCameras(objs: seq<WorldObject>): (r: seq<WorldObject>)
    ensures |r| <= |objs|
    ensures forall i :: 0 <= i < |r| ==> r[i] in objs && r[i].kind != "camera"
    ensures forall i :: 0 <= i < |objs| && objs[i].kind != "camera" ==> objs[i] in r
  {
    if objs == [] then []
    else
      var rest := NonCameras(objs[1..]);
      if objs[0].kind != "camera" then [objs[0]] + rest else rest
  }

  class Scene {
    var camera: WorldObject?
    var worldObjects: map<string, WorldObject>
    var meshes: map<string, Mesh>
    var textures: map<string, Texture>
    var materials: map<string, Material>
    var models: map<string, Model>
    /** Never assigned after construction: the engine keeps its own controller. */
    var controller: Controller?
    var light: Vec3
    /** Assigned by the engine's `createDefaults`; `undefined` until then. */
    var defaultMaterial: Option<Material>
    var defaultMesh: Option<Mesh>
    var defaultModel: Option<Model>

    /** `new Scene()`: nothing loaded, no camera or controller, the light at (20, 14, 10). */
    constructor ()
      ensures camera == null && controller == null
      ensures worldObjects == map[] && meshes == map[] && textures == map[]
      ensures materials == map[] && models == map[]
      ensures light == Vec3(20.0, 14.0, 10.0)
      ensures defaultMaterial.None? && defaultMesh.None? && defaultModel.None?
    {
      camera := null;
      worldObjects := map[];
      meshes := map[];
      textures := map[];
      materials := map[];
      models := map[];
      controller := null;
      light := Vec3(20.0, 14.0, 10.0);
      defaultMaterial := None;
      defaultMesh := None;
      defaultModel := None;
    }

    /** `orders` enumerates the five dictionaries of this scene. */
    ghost predicate Enumerated(orders: KeyOrders)
      reads this
    {
      Enumerates(orders.meshes, meshes) && Enumerates(orders.textures, textures) &&
      Enumerates(orders.materials, materials) && Enumerates(orders.models, models) &&
      Enumerates(orders.worldObjects, worldObjects)
    }

    /**
     * `toJSON()`: every pool becomes the list of its values, one per entry,
     * and the world objects become the list of those whose type is not
     * "camera".
     */
    function ToJSON(orders: KeyOrders): (r: SceneExport)
      reads this
      requires Enumerated(orders)
      ensures |r.meshes| == |meshes| && forall m :: m in r.meshes <==> m in meshes.Values
      ensures |r.textures| == |textures| && forall t :: t in r.textures <==> t in textures.Values
      ensures |r.materials| == |materials| && forall m :: m in r.materials <==> m in materials.Values
      ensures |r.models| == |models| && forall m :: m in r.models <==> m in models.Values
      ensures forall i :: 0 <= i < |r.worldObjects| ==>
                r.worldObjects[i] in worldObjects.Values && r.worldObjects[i].kind != "camera"
      ensures forall k :: k in worldObjects && worldObjects[k].kind != "camera" ==> worldObjects[k] in r.worldObjects
    {
      EnumeratesSize(orders.meshes, meshes);
      ValuesComplete(meshes, orders.meshes);
      EnumeratesSize(orders.textures, textures);
      ValuesComplete(textures, orders.textures);
      EnumeratesSize(orders.materials, materials);
      ValuesComplete(materials, orders.materials);
      EnumeratesSize(orders.models, models);
      ValuesComplete(models, orders.models);
      ValuesComplete(worldObjects, orders.worldObjects);
      SceneExport(Values(meshes, orders.meshes), Values(textures, orders.textures),
                  Values(materials, orders.materials), Values(models, orders.models),
                  NonCameras(Values(worldObjects, orders.worldObjects)))
    }
  }
}
