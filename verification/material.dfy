/** `js/Material.js`: a material's textures, shading settings and serialisation. */
module Materials {
  import opened Wrappers
  import opened JsValues
  import opened SceneFile
  import opened Textures

  /** `scale` holds whatever the scene file gave, since the loader copies it unchecked. */
  datatype Material = Material(
    id: string,
    diffuseTexture: Option<Texture>,
    normalTexture: Option<Texture>,
    scale: Value,
    specularExponent: real,
    specularStrength: real,
    diffuseStrength: real,
    useDiffuse: bool,
    useNormal: bool)

  /** `new Material(id, diffuse, normal)`; a texture that is not passed (or `undefined`) is null. */
  function NewMaterial(id: string, diffuse: Option<Texture>, normal: Option<Texture>): (m: Material)
    ensures m.id == id && m.diffuseTexture == diffuse && m.normalTexture == normal
    ensures m.scale == JNum(1.0) && m.specularExponent == 32.0 && m.specularStrength == 0.0
    ensures m.diffuseStrength == 1.0 && m.useDiffuse && m.useNormal
  {
    Material(id, diffuse, normal, JNum(1.0), 32.0, 0.0, 1.0, true, true)
  }

  /** The id a texture reference is written as. */
  function TextureId(t: Option<Texture>): (r: Option<string>)
    ensures r.Some? <==> t.Some?
    ensures t.Some? ==> r.value == t.value.id
  {
    match t
    case Some(tex) => Some(tex.id)
    case None => None
  }

  /**
   * `toJSON()`: id, scale, specular exponent and strength and the two use
   * flags always; a texture key only when that texture is set, holding its
   * id. The diffuse strength is not written.
   */
  function ToJSON(m: Material): (e: MaterialEntry)
    ensures e.id == m.id && e.scale == Some(m.scale)
    ensures e.specularExponent == Some(JNum(m.specularExponent))
    ensures e.specularStrength == Some(JNum(m.specularStrength))
    ensures e.useDiffuse == Some(JBool(m.useDiffuse)) && e.useNormal == Some(JBool(m.useNormal))
    ensures e.diffuseTexture.Some? <==> m.diffuseTexture.Some?
    ensures e.normalTexture.Some? <==> m.normalTexture.Some?
    ensures m.diffuseTexture.Some? ==> e.diffuseTexture.value == m.diffuseTexture.value.id
    ensures m.normalTexture.Some? ==> e.normalTexture.value == m.normalTexture.value.id
  {
    MaterialEntry(m.id, TextureId(m.diffuseTexture), TextureId(m.normalTexture), Some(m.scale),
                  Some(JNum(m.specularExponent)), Some(JNum(m.specularStrength)),
                  Some(JBool(m.useDiffuse)), Some(JBool(m.useNormal)))
  }

  /** Two materials that differ only in diffuse strength serialise identically. */
  lemma DiffuseStrengthNotWritten(m: Material, s: real)
    ensures ToJSON(m.(diffuseStrength := s)) == ToJSON(m)
  {
  }
}
