/**
 * The assets `createDefaults` in `js/GameEngine.js` gives every scene, and
 * the state of a scene right after `loadScene` has set it up.
 */
module SceneDefaults {
  import opened Wrappers
  import opened Numbers
  import opened JsValues
  import opened Utils
  import opened Meshes
  import opened Textures
  import opened Materials
  import opened Models
  import opened WorldObjects
  import opened Scenes

  /** A 1x1 grey diffuse texture and a 1x1 flat normal map, both with id "defaultTexture". */
  function DefaultDiffuse(): Texture { Texture("defaultTexture", "none", "diffuse", 1, 1) }
  function DefaultNormal(): Texture { Texture("defaultTexture", "none", "normal", 1, 1) }

  function DefaultMaterial(): Material {
    NewMaterial("defaultMaterial", Some(DefaultDiffuse()), Some(DefaultNormal()))
  }

  /** A 3x3x3 box. */
  function DefaultMesh(): Mesh {
    MeshOfData("defaultMesh", "none", CreateBoxMeshData(3.0, 3.0, 3.0))
  }

  function DefaultModel(): Model {
    NewModel("defaultModel", Some(DefaultMesh()), Some(DefaultMaterial()))
  }

  /**
   * The scene `loadScene` starts: its defaults, no asset yet, no
   * controller of its own, and a mobile camera with id "Camera", the given
   * aspect ratio and a box of half-widths 1, 2.5 and 1 that is not drawn,
   * stored under the key "camera".
   */
  ghost predicate Started(s: Scene, aspect: real)
    reads s, s.camera, if s.camera != null then {s.camera.aabb} else {}
  {
    s.meshes == map[] && s.textures == map[] && s.materials == map[] && s.models == map[] &&
    s.defaultMaterial == Some(DefaultMaterial()) && s.defaultMesh == Some(DefaultMesh()) &&
    s.defaultModel == Some(DefaultModel()) && s.controller == null &&
    s.camera != null && s.worldObjects == map["camera" := s.camera] &&
    s.camera.id == "Camera" && s.camera.projection == Some(Perspective(45.0, aspect, 0.1, 100.0)) &&
    s.camera.isImmovable == JBool(false) &&
    s.camera.aabb != null && !s.camera.aabb.render &&
    s.camera.aabb.bounds == Bounds(Fin(-1.0), Fin(1.0), Fin(-2.5), Fin(2.5), Fin(-1.0), Fin(1.0))
  }
}
