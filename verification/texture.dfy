/**
 * `js/Texture.js`: a texture keeps its id, path, type tag and image; the
 * GPU upload is left out except for the choice between mipmapping and
 * clamp-to-edge sampling.
 */
module Textures {
  import opened Utils
  import opened SceneFile

  /** The image is represented by its dimensions, the only part of it the engine inspects. */
  datatype Texture = Texture(id: string, path: string, kind: string, width: nat, height: nat)

  /** `new Texture(gl, id, path, type, image)` for a scene-file entry; the type tag is kept verbatim. */
  function TextureOf(e: TextureEntry, width: nat, height: nat): (t: Texture)
    ensures t.id == e.id && t.path == e.path && t.kind == e.kind
    ensures t.width == width && t.height == height
  {
    Texture(e.id, e.path, e.kind, width, height)
  }

  /** `toJSON()`: exactly id, type and path; the image is not written. */
  function ToJSON(t: Texture): (e: TextureEntry)
    ensures e.id == t.id && e.kind == t.kind && e.path == t.path
  {
    TextureEntry(t.id, t.path, t.kind)
  }

  /** Writing a texture and loading the entry again with the same image gives the texture back. */
  lemma TextureRoundTrip(t: Texture)
    ensures TextureOf(ToJSON(t), t.width, t.height) == t
  {
  }

  lemma TextureEntryRoundTrip(e: TextureEntry, width: nat, height: nat)
    ensures ToJSON(TextureOf(e, width, height)) == e
  {
  }

  datatype Sampling = Mipmapped | ClampToEdgeLinear

  /** The branch `setBuffer` takes: mipmaps only when both sides pass `isPowerOf2`. */
  function SamplingOf(t: Texture): Sampling {
    if IsPowerOf2(t.width) && IsPowerOf2(t.height) then Mipmapped else ClampToEdgeLinear
  }

  /**
   * Mipmaps are generated exactly when each side is a power of two or zero
   * (the bit trick lets 0 through); every other image is clamped to its edge
   * and filtered linearly.
   */
  lemma SamplingIff(t: Texture)
    requires t.width < 0x1_0000_0000 && t.height < 0x1_0000_0000
    ensures SamplingOf(t) == Mipmapped <==>
              (t.width == 0 || IsPow2(t.width)) && (t.height == 0 || IsPow2(t.height))
  {
    IsPowerOf2Iff(t.width);
    IsPowerOf2Iff(t.height);
  }
}
