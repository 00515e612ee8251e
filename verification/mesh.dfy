/** `js/Mesh.js`: a mesh keeps the geometry arrays it was built from. */
module Meshes {
  import opened Numbers
  import opened ObjParser
  import opened Utils
  import opened SceneFile

  datatype Mesh = Mesh(
    id: string,
    path: string,
    vertPositions: seq<Scalar>,
    vertNormals: seq<Scalar>,
    vertTangents: seq<Scalar>,
    vertBitangents: seq<Scalar>,
    vertIndices: seq<nat>,
    texCoords: seq<Scalar>)

  /** `new Mesh(gl, id, path, ...)` with the arrays of parsed vertex data, as the loader calls it. */
  function MeshOfData(id: string, path: string, d: ObjData): (m: Mesh)
    ensures m.id == id && m.path == path
    ensures m.vertPositions == d.vertexPositions && m.vertNormals == d.vertexNormals
    ensures m.vertTangents == d.tangents && m.vertBitangents == d.bitangents
    ensures m.vertIndices == d.vertexIndices && m.texCoords == d.textureCoords
  {
    Mesh(id, path, d.vertexPositions, d.vertexNormals, d.tangents, d.bitangents, d.vertexIndices, d.textureCoords)
  }

  /** `getNumVerts()`: the number of indices to draw, not the number of vertices. */
  function GetNumVerts(m: Mesh): nat {
    |m.vertIndices|
  }

  /** `toJSON()`: only the id and the path; no geometry is written. */
  function ToJSON(m: Mesh): (e: MeshEntry)
    ensures e.id == m.id && e.path == m.path
  {
    MeshEntry(m.id, m.path)
  }

  /** Serialising a mesh built for a scene-file entry gives back that entry, whatever the geometry. */
  lemma MeshEntryRoundTrip(e: MeshEntry, d: ObjData)
    ensures ToJSON(MeshOfData(e.id, e.path, d)) == e
  {
  }

  /** The default mesh draws 36 indices although it has only 24 vertices. */
  lemma DefaultMeshCounts(w: real, h: real, d: real)
    ensures GetNumVerts(MeshOfData("defaultMesh", "none", CreateBoxMeshData(w, h, d))) == 36
    ensures |CreateBoxMeshData(w, h, d).vertexPositions| == 3 * 24
  {
  }

  /** For a mesh read from an OBJ file, the draw count is the number of face tokens in the file. */
  lemma ParsedMeshNumVerts(id: string, path: string, objFile: string, parseFloat: string -> Scalar, tangentFn: TangentFn)
    requires Expected(objFile, parseFloat, tangentFn).Success?
    ensures GetNumVerts(MeshOfData(id, path, Expected(objFile, parseFloat, tangentFn).value))
            == |FaceTokens(Lines(objFile))|
  {
    var lines := Lines(objFile);
    var inV := Collect(lines, "v", parseFloat);
    var inT := Collect(lines, "vt", parseFloat);
    var inN := Collect(lines, "vn", parseFloat);
    WeldedSizes(FaceTokens(lines), FaceTans(lines, inV, inT, tangentFn), inV, inT, inN);
  }
}
