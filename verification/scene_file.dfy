/**
 * The records of a scene file: what `loadCompositeAssets` reads and what the
 * `toJSON` methods write. A field that is `None` is absent (or null, where
 * the engine treats both alike); optional settings keep the JSON value as
 * given, since the loader stores them without checking their type.
 * The `type` field of textures and world objects is called `kind` here,
 * since `type` is a Dafny keyword.
 */
module SceneFile {
  import opened Wrappers
  import opened Numbers
  import opened JsValues
  import opened Utils

  datatype MeshEntry = MeshEntry(id: string, path: string)

  datatype TextureEntry = TextureEntry(id: string, path: string, kind: string)

  datatype MaterialEntry = MaterialEntry(
    id: string,
    diffuseTexture: Option<string>,
    normalTexture: Option<string>,
    scale: Option<Value>,
    specularExponent: Option<Value>,
    specularStrength: Option<Value>,
    useDiffuse: Option<Value>,
    useNormal: Option<Value>)

  datatype ModelEntry = ModelEntry(
    id: string,
    mesh: Option<string>,
    material: Option<string>,
    render: Option<Value>,
    castShadow: Option<Value>,
    recieveShadow: Option<Value>,
    recieveLighting: Option<Value>,
    animateRot: Option<Value>,
    rotAxis: Option<Value>,
    rotSpeedFactor: Option<Value>,
    animateTrans: Option<Value>)

  /** The `AABB` field of a world object: explicit bounds, or the string `"none"`. */
  datatype AabbField = Explicit(bounds: Bounds) | NoneTag

  datatype WorldObjectEntry = WorldObjectEntry(
    id: string,
    kind: string,
    model: Option<string>,
    aabb: Option<AabbField>,
    position: Option<Vec3>,
    rotation: Option<Vec3>,
    scale: Option<Vec3>,
    isImmovable: Option<Value>,
    hasCollision: Option<Value>,
    hasGravity: Option<Value>)

  datatype SceneJson = SceneJson(
    meshes: seq<MeshEntry>,
    textures: seq<TextureEntry>,
    materials: seq<MaterialEntry>,
    models: seq<ModelEntry>,
    worldObjects: seq<WorldObjectEntry>)

  /** A reference field is truthy when present and not the empty string. */
  predicate NameGiven(k: Option<string>) {
    k.Some? && k.value != ""
  }

  /** The property key `pool[ref]` reads: an absent reference becomes the string "undefined". */
  function KeyOf(k: Option<string>): string {
    if k.Some? then k.value else "undefined"
  }

  /** `pool[ref]`: the asset stored under the reference's key, if any. */
  function Lookup<T>(pool: map<string, T>, k: Option<string>): (r: Option<T>)
    ensures r.Some? <==> KeyOf(k) in pool
    ensures r.Some? ==> r.value == pool[KeyOf(k)]
    ensures k.Some? ==> (r.Some? <==> k.value in pool)
  {
    if KeyOf(k) in pool then Some(pool[KeyOf(k)]) else None
  }
}
