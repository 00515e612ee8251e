/**
 * What `loadCompositeAssets` in `js/GameEngine.js` builds from the entries
 * of a scene file: how each reference is resolved against the asset pools,
 * which settings override the constructor defaults, and how entries with
 * the same id replace each other. The engine's loading methods are proved
 * against these definitions.
 */
module SceneLoading {
  import opened Wrappers
  import opened Numbers
  import opened JsValues
  import opened Utils
  import opened SceneFile
  import opened Meshes
  import opened Textures
  import opened Materials
  import opened Models

  /** `if (x !== undefined) field = x`: a present setting replaces the default. */
  function Override(x: Option<Value>, default: Value): Value {
    if x.Some? then x.value else default
  }

  /**
   * The material built for an entry: the textures its references find in
   * the pool (none where the reference is absent or not found), the scale
   * when given; every other setting keeps the constructor's default, since
   * the loader reads no other field.
   */
  function MaterialOf(e: MaterialEntry, textures: map<string, Texture>): (m: Material)
    ensures m.id == e.id
    ensures m.diffuseTexture == Lookup(textures, e.diffuseTexture)
    ensures m.normalTexture == Lookup(textures, e.normalTexture)
    ensures m.scale == Override(e.scale, JNum(1.0))
    ensures m.specularExponent == 32.0 && m.specularStrength == 0.0 && m.diffuseStrength == 1.0
    ensures m.useDiffuse && m.useNormal
  {
    var m := NewMaterial(e.id, Lookup(textures, e.diffuseTexture), Lookup(textures, e.normalTexture));
    if e.scale.Some? then m.(scale := e.scale.value) else m
  }

  /**
   * The model built for an entry: the mesh its reference finds, else the
   * scene's default mesh; the material its reference finds, else none (no
   * default); each of the eight settings when given, else the default.
   */
  function ModelOf(e: ModelEntry, meshes: map<string, Mesh>, materials: map<string, Material>,
                   defaultMesh: Option<Mesh>): (m: Model)
    ensures m.id == e.id
    ensures Lookup(meshes, e.mesh).Some? ==> m.mesh == Lookup(meshes, e.mesh)
    ensures Lookup(meshes, e.mesh).None? ==> m.mesh == defaultMesh
    ensures m.material == Lookup(materials, e.material)
    ensures m.render == Override(e.render, JBool(true)) && m.castShadow == Override(e.castShadow, JBool(true))
    ensures m.recieveShadow == Override(e.recieveShadow, JBool(true))
    ensures m.recieveLighting == Override(e.recieveLighting, JBool(true))
    ensures m.animateRot == Override(e.animateRot, JBool(false))
    ensures m.rotAxis == Override(e.rotAxis, JArr([JNum(0.0), JNum(1.0), JNum(0.0)]))
    ensures m.rotSpeedFactor == Override(e.rotSpeedFactor, JNum(1.0))
    ensures m.animateTrans == Override(e.animateTrans, JBool(false))
  {
    var mesh := if Lookup(meshes, e.mesh).Some? then Lookup(meshes, e.mesh) else defaultMesh;
    var m := NewModel(e.id, mesh, Lookup(materials, e.material));
    m.(render := Override(e.render, m.render),
       castShadow := Override(e.castShadow, m.castShadow),
       recieveShadow := Override(e.recieveShadow, m.recieveShadow),
       recieveLighting := Override(e.recieveLighting, m.recieveLighting),
       animateRot := Override(e.animateRot, m.animateRot),
       rotAxis := Override(e.rotAxis, m.rotAxis),
       rotSpeedFactor := Override(e.rotSpeedFactor, m.rotSpeedFactor),
       animateTrans := Override(e.animateTrans, m.animateTrans))
  }

  /**
   * The model a world object gets: a named model when it is found, none
   * when it is named but missing or named "none", and the scene's default
   * model when the field is absent or empty.
   */
  function ResolveModel(name: Option<string>, models: map<string, Model>, defaultModel: Option<Model>): (r: Option<Model>)
    ensures NameGiven(name) && name.value != "none" && name.value in models ==> r == Some(models[name.value])
    ensures NameGiven(name) && name.value != "none" && name.value !in models ==> r.None?
    ensures name == Some("none") ==> r.None?
    ensures !NameGiven(name) ==> r == defaultModel
  {
    if NameGiven(name) && name.value != "none" then Lookup(models, name)
    else if NameGiven(name) then None
    else defaultModel
  }

  /**
   * The bounds of a world object's box: explicit bounds as given, none for
   * "none", and otherwise the bounds of the resolved model's mesh when it
   * has one.
   */
  function ResolveBounds(field: Option<AabbField>, model: Option<Model>): (r: Option<Bounds>)
    ensures field.Some? && field.value.Explicit? ==> r == Some(field.value.bounds)
    ensures field == Some(NoneTag) ==> r.None?
    ensures field.None? ==> (r.Some? <==> model.Some? && model.value.mesh.Some?)
    ensures field.None? && r.Some? ==> r.value == ModelBounds(model.value.mesh.value.vertPositions)
  {
    match field
    case Some(Explicit(b)) => Some(b)
    case Some(NoneTag) => None
    case None =>
      if model.Some? && model.value.mesh.Some? then Some(ModelBounds(model.value.mesh.value.vertPositions))
      else None
  }

  /** Storing each pair in turn: `pool[id] = asset` for every entry, in order. */
  function InsertAll<T>(pool: map<string, T>, kvs: seq<(string, T)>): map<string, T> {
    if kvs == [] then pool
    else InsertAll(pool, kvs[..|kvs| - 1])[kvs[|kvs| - 1].0 := kvs[|kvs| - 1].1]
  }

  /** The keys of a list of pairs. */
  function Keys<T>(kvs: seq<(string, T)>): set<string> {
    set i | 0 <= i < |kvs| :: kvs[i].0
  }

  /** Storing the pairs adds exactly their keys and leaves every other key as it was. */
  lemma {:induction false} InsertAllDomain<T>(pool: map<string, T>, kvs: seq<(string, T)>)
    ensures forall k :: k in InsertAll(pool, kvs) <==> k in pool || k in Keys(kvs)
    ensures forall k :: k in pool && k !in Keys(kvs) ==> InsertAll(pool, kvs)[k] == pool[k]
  {
    if kvs != [] {
      var n := |kvs| - 1;
      InsertAllDomain(pool, kvs[..n]);
      assert Keys(kvs) == Keys(kvs[..n]) + {kvs[n].0} by {
        assert forall i :: 0 <= i < n ==> kvs[..n][i] == kvs[i];
      }
    }
  }

  /** No later pair has the same key as the pair at `j`. */
  predicate LastOf<T>(kvs: seq<(string, T)>, j: nat)
    requires j < |kvs|
  {
    forall j' :: j < j' < |kvs| ==> kvs[j'].0 != kvs[j].0
  }

  /** When several entries share an id, the last one wins. */
  lemma {:induction false} InsertAllLast<T>(pool: map<string, T>, kvs: seq<(string, T)>, j: nat)
    requires j < |kvs| && LastOf(kvs, j)
    ensures kvs[j].0 in InsertAll(pool, kvs) && InsertAll(pool, kvs)[kvs[j].0] == kvs[j].1
  {
    var n := |kvs| - 1;
    if j < n {
      assert LastOf(kvs[..n], j) by {
        forall j' | j < j' < n ensures kvs[..n][j'].0 != kvs[..n][j].0 {
          assert kvs[j'].0 != kvs[j].0;
        }
      }
      InsertAllLast(pool, kvs[..n], j);
      assert kvs[..n][j] == kvs[j];
    }
  }

  /** The materials of the scene file, paired with their ids. */
  function MaterialPairs(es: seq<MaterialEntry>, textures: map<string, Texture>): (kvs: seq<(string, Material)>)
    ensures |kvs| == |es|
    ensures forall i :: 0 <= i < |es| ==> kvs[i] == (es[i].id, MaterialOf(es[i], textures))
  {
    seq(|es|, i requires 0 <= i < |es| => (es[i].id, MaterialOf(es[i], textures)))
  }

  /** The models of the scene file, paired with their ids. */
  function ModelPairs(es: seq<ModelEntry>, meshes: map<string, Mesh>, materials: map<string, Material>,
                      defaultMesh: Option<Mesh>): (kvs: seq<(string, Model)>)
    ensures |kvs| == |es|
    ensures forall i :: 0 <= i < |es| ==> kvs[i] == (es[i].id, ModelOf(es[i], meshes, materials, defaultMesh))
  {
    seq(|es|, i requires 0 <= i < |es| => (es[i].id, ModelOf(es[i], meshes, materials, defaultMesh)))
  }

  /** Building one more material appends its pair. */
  lemma MaterialPairsAppend(es: seq<MaterialEntry>, i: nat, textures: map<string, Texture>)
    requires i < |es|
    ensures MaterialPairs(es[..i + 1], textures) == MaterialPairs(es[..i], textures) + [(es[i].id, MaterialOf(es[i], textures))]
  {
    var a := MaterialPairs(es[..i + 1], textures);
    var b := MaterialPairs(es[..i], textures) + [(es[i].id, MaterialOf(es[i], textures))];
    assert |a| == |b|;
    forall k | 0 <= k < |a| ensures a[k] == b[k] {
      assert es[..i + 1][k] == es[k];
      if k < i {
        assert es[..i][k] == es[k];
      }
    }
  }

  /** Building one more model appends its pair. */
  lemma ModelPairsAppend(es: seq<ModelEntry>, i: nat, meshes: map<string, Mesh>, materials: map<string, Material>,
                         defaultMesh: Option<Mesh>)
    requires i < |es|
    ensures ModelPairs(es[..i + 1], meshes, materials, defaultMesh) ==
            ModelPairs(es[..i], meshes, materials, defaultMesh) + [(es[i].id, ModelOf(es[i], meshes, materials, defaultMesh))]
  {
    var a := ModelPairs(es[..i + 1], meshes, materials, defaultMesh);
    var b := ModelPairs(es[..i], meshes, materials, defaultMesh) + [(es[i].id, ModelOf(es[i], meshes, materials, defaultMesh))];
    assert |a| == |b|;
    forall k | 0 <= k < |a| ensures a[k] == b[k] {
      assert es[..i + 1][k] == es[k];
      if k < i {
        assert es[..i][k] == es[k];
      }
    }
  }

  /**
   * Saving a material and loading it again keeps its id, textures (when
   * the pool still holds them under their ids) and scale, but resets the
   * specular settings, the use flags and the diffuse strength to their
   * defaults: the loader does not read what `toJSON` writes for them.
   */
  lemma MaterialReload(m: Material, textures: map<string, Texture>)
    requires m.diffuseTexture.Some? ==> m.diffuseTexture.value.id in textures && textures[m.diffuseTexture.value.id] == m.diffuseTexture.value
    requires m.normalTexture.Some? ==> m.normalTexture.value.id in textures && textures[m.normalTexture.value.id] == m.normalTexture.value
    requires "undefined" !in textures
    ensures MaterialOf(Materials.ToJSON(m), textures) ==
            m.(specularExponent := 32.0, specularStrength := 0.0, diffuseStrength := 1.0, useDiffuse := true, useNormal := true)
  {
  }

  /**
   * Saving a model with a mesh and loading it again gives the same model,
   * when the pools hold its mesh and material under their ids.
   */
  lemma ModelReload(m: Model, meshes: map<string, Mesh>, materials: map<string, Material>, defaultMesh: Option<Mesh>)
    requires m.mesh.Some? && m.mesh.value.id in meshes && meshes[m.mesh.value.id] == m.mesh.value
    requires m.material.Some? ==> m.material.value.id in materials && materials[m.material.value.id] == m.material.value
    requires "undefined" !in materials
    ensures ModelOf(Models.ToJSON(m), meshes, materials, defaultMesh) == m
  {
  }

  /** A model saved without a mesh comes back with the default mesh. */
  lemma MeshlessModelReload(m: Model, meshes: map<string, Mesh>, materials: map<string, Material>, defaultMesh: Option<Mesh>)
    requires m.mesh.None? && "undefined" !in meshes
    ensures ModelOf(Models.ToJSON(m), meshes, materials, defaultMesh).mesh == defaultMesh
  {
  }
}
