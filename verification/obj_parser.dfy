/**
 * The OBJ reader of the engine (`parseOBJFile`): a first pass collects the
 * `v`, `vt` and `vn` lines, a second pass turns every face token `a/b/c` into
 * an output vertex, welding identical tokens into one vertex through a
 * dictionary keyed on the raw token text.
 *
 * `parseFloat` and the per-triangle tangent computation are numeric code
 * outside this model; they are parameters.
 */
module ObjParser {
  import opened Wrappers
  import opened Numbers
  import opened Text

  /** A tangent and a bitangent, as `calculateTangents` returns them. */
  type Tangents = (seq<Scalar>, seq<Scalar>)

  /** `calculateTangents(verts, texCoords)`: three positions and three texture coordinates. */
  type TangentFn = (seq<seq<Scalar>>, seq<seq<Scalar>>) -> Tangents

  /** Reading a missing face token, or a position or texture coordinate that is not there, throws. */
  datatype ParseError = TypeError

  /** The record `parseOBJFile` returns: every array flattened. */
  datatype ObjData = ObjData(
    vertexPositions: seq<Scalar>,
    vertexNormals: seq<Scalar>,
    vertexIndices: seq<nat>,
    textureCoords: seq<Scalar>,
    tangents: seq<Scalar>,
    bitangents: seq<Scalar>)

  /**
   * The output arrays before flattening, one entry per welded vertex
   * (`None` is an `undefined` pushed for an index that selects nothing),
   * and one index per face token.
   */
  datatype Welded<V, T> = Welded(
    vertices: seq<Option<V>>,
    texCoords: seq<Option<V>>,
    normals: seq<Option<V>>,
    tangents: seq<T>,
    bitangents: seq<T>,
    indices: seq<nat>)

  // ---------------------------------------------------------------------------
  // Lines and tokens

  function Lines(objFile: string): seq<string> {
    Split(objFile, '\n')
  }

  function Tokens(line: string): (r: seq<string>)
    ensures |r| >= 1
  {
    Split(line, ' ')
  }

  predicate IsFace(line: string) {
    Tokens(line)[0] == "f"
  }

  /** `line.slice(1).map(x => parseFloat(x))` */
  function ParseAll(ts: seq<string>, parseFloat: string -> Scalar): (r: seq<Scalar>)
    ensures |r| == |ts|
  {
    seq(|ts|, i requires 0 <= i < |ts| => parseFloat(ts[i]))
  }

  /** The arrays of numbers of the lines whose first token is exactly `tag`, in file order. */
  function Collect(lines: seq<string>, tag: string, parseFloat: string -> Scalar): seq<seq<Scalar>> {
    if |lines| == 0 then []
    else
      var prev := Collect(lines[..|lines| - 1], tag, parseFloat);
      var tk := Tokens(lines[|lines| - 1]);
      if tk[0] == tag then prev + [ParseAll(tk[1..], parseFloat)] else prev
  }

  /** The tokens after `f` of a face line; nothing for any other line. */
  function LineTokens(line: string): seq<string> {
    if IsFace(line) then Tokens(line)[1..] else []
  }

  /** The tokens after `f` of every face line, in file order. */
  function FaceTokens(lines: seq<string>): seq<string> {
    if |lines| == 0 then [] else FaceTokens(lines[..|lines| - 1]) + LineTokens(lines[|lines| - 1])
  }

  // ---------------------------------------------------------------------------
  // Selecting a vertex from a token `a/b/c`

  /** `parseInt` of the `c`-th `/`-separated part of a token; `None` is NaN. */
  function Component(tok: string, c: nat): Option<int> {
    var parts := Split(tok, '/');
    if c < |parts| then ParseInt(parts[c]) else None
  }

  /** `arr[n - 1]` for the `c`-th component `n` of the token; `None` when that is `undefined`. */
  function Select<X>(arr: seq<X>, tok: string, c: nat): Option<X>
  {
    match Component(tok, c)
    case Some(n) => if 1 <= n <= |arr| then Some(arr[n - 1]) else None
    case None => None
  }

  /** `vec3.fromValues(arr[0], arr[1], arr[2])` and its 2-vector analogue; missing entries read as NaN. */
  function Take(arr: seq<Scalar>, n: nat): (r: seq<Scalar>)
    ensures |r| == n
  {
    seq(n, i requires 0 <= i < n => if i < |arr| then arr[i] else NaN)
  }

  /**
   * A face line is read without throwing when it has at least three tokens
   * and each of the first three selects a position and a texture coordinate.
   */
  predicate FaceOK(ft: seq<string>, inV: seq<seq<Scalar>>, inT: seq<seq<Scalar>>) {
    |ft| >= 3 &&
    Select(inV, ft[0], 0).Some? && Select(inV, ft[1], 0).Some? && Select(inV, ft[2], 0).Some? &&
    Select(inT, ft[0], 1).Some? && Select(inT, ft[1], 1).Some? && Select(inT, ft[2], 1).Some?
  }

  /** The tangent pair of a face, computed from its first three tokens. */
  function FaceTangent(ft: seq<string>, inV: seq<seq<Scalar>>, inT: seq<seq<Scalar>>, tangentFn: TangentFn): Tangents
    requires FaceOK(ft, inV, inT)
  {
    tangentFn([Take(Select(inV, ft[0], 0).value, 3), Take(Select(inV, ft[1], 0).value, 3), Take(Select(inV, ft[2], 0).value, 3)],
         [Take(Select(inT, ft[0], 1).value, 2), Take(Select(inT, ft[1], 1).value, 2), Take(Select(inT, ft[2], 1).value, 2)])
  }

  /** How the second pass treats a line: skipped, a face that throws, or a face with its tokens and tangents. */
  datatype LineKind = Other | BadFace | Face(tokens: seq<string>, tangents: Tangents)

  function ClassifyLine(line: string, inV: seq<seq<Scalar>>, inT: seq<seq<Scalar>>, tangentFn: TangentFn): (k: LineKind)
    ensures k.BadFace? <==> !LineOK(line, inV, inT)
    ensures k.Face? ==> k.tokens == LineTokens(line)
    ensures k.Other? ==> LineTokens(line) == []
  {
    var tk := Tokens(line);
    if tk[0] != "f" then Other
    else if !FaceOK(tk[1..], inV, inT) then BadFace
    else Face(tk[1..], FaceTangent(tk[1..], inV, inT, tangentFn))
  }

  /** A line is read without throwing unless it is a malformed face. */
  predicate LineOK(line: string, inV: seq<seq<Scalar>>, inT: seq<seq<Scalar>>) {
    IsFace(line) ==> FaceOK(Tokens(line)[1..], inV, inT)
  }

  predicate AllFacesOK(lines: seq<string>, inV: seq<seq<Scalar>>, inT: seq<seq<Scalar>>) {
    |lines| == 0 || (AllFacesOK(lines[..|lines| - 1], inV, inT) && LineOK(lines[|lines| - 1], inV, inT))
  }

  /** For each token of a face line, the tangent pair of that face. */
  function LineTans(line: string, inV: seq<seq<Scalar>>, inT: seq<seq<Scalar>>, tangentFn: TangentFn): (r: seq<Tangents>)
    ensures LineOK(line, inV, inT) ==> |r| == |LineTokens(line)|
  {
    match ClassifyLine(line, inV, inT, tangentFn)
    case Face(ft, tan) => Rep(tan, |ft|)
    case _ => []
  }

  /** For every face token, the tangent pair of the face it belongs to. */
  function FaceTans(lines: seq<string>, inV: seq<seq<Scalar>>, inT: seq<seq<Scalar>>, tangentFn: TangentFn): (r: seq<Tangents>)
    requires AllFacesOK(lines, inV, inT)
    ensures |r| == |FaceTokens(lines)|
  {
    if |lines| == 0 then []
    else FaceTans(lines[..|lines| - 1], inV, inT, tangentFn) + LineTans(lines[|lines| - 1], inV, inT, tangentFn)
  }

  /** `n` copies of `x`. */
  function Rep<X>(x: X, n: nat): (r: seq<X>)
    ensures |r| == n
  {
    if n == 0 then [] else Rep(x, n - 1) + [x]
  }

  // ---------------------------------------------------------------------------
  // Welding: the reference definition

  predicate NoDup<X(==)>(s: seq<X>) {
    forall i, j :: 0 <= i < j < |s| ==> s[i] != s[j]
  }

  /** The distinct elements of `s`, in order of first appearance. */
  function Distinct<X(==)>(s: seq<X>): (d: seq<X>)
    ensures |d| <= |s|
  {
    if |s| == 0 then []
    else
      var p := Distinct(s[..|s| - 1]);
      if s[|s| - 1] in s[..|s| - 1] then p else p + [s[|s| - 1]]
  }

  /** Position of the first occurrence of `x` in `s`; `|s|` when there is none. */
  function IndexOf<X(==)>(s: seq<X>, x: X): (k: nat)
    ensures k <= |s|
    ensures k < |s| <==> x in s
    ensures k < |s| ==> s[k] == x
  {
    if |s| == 0 then 0 else if s[0] == x then 0 else 1 + IndexOf(s[1..], x)
  }

  /**
   * The welded output for the face tokens `toks` (with the tangent pair of
   * each token's face in `tans`): one vertex per distinct token in order of
   * first appearance, taking its tangents from that first appearance, and
   * one index per token, the position of the token among the distinct ones.
   */
  function WeldedOf<V, T>(toks: seq<string>, tans: seq<(T, T)>,
                          inV: seq<V>, inT: seq<V>, inN: seq<V>): Welded<V, T>
    requires |tans| == |toks|
  {
    var d := Distinct(toks);
    var first := FirstTans(toks, tans);
    Welded(Pick(inV, d, 0), Pick(inT, d, 1), Pick(inN, d, 2), Fst(first), Snd(first), Positions(d, toks))
  }

  /** The entry each token of `d` selects from `arr` through its `c`-th component. */
  function Pick<X>(arr: seq<X>, d: seq<string>, c: nat): (r: seq<Option<X>>)
    ensures |r| == |d|
  {
    if |d| == 0 then [] else Pick(arr, d[..|d| - 1], c) + [Select(arr, d[|d| - 1], c)]
  }

  /** The tangent pairs of the first appearances of the distinct tokens, in order. */
  function FirstTans<T>(toks: seq<string>, tans: seq<(T, T)>): (r: seq<(T, T)>)
    requires |tans| == |toks|
    ensures |r| == |Distinct(toks)|
  {
    if |toks| == 0 then []
    else
      var n := |toks| - 1;
      if toks[n] in toks[..n] then FirstTans(toks[..n], tans[..n]) else FirstTans(toks[..n], tans[..n]) + [tans[n]]
  }

  function Fst<T>(ts: seq<(T, T)>): (r: seq<T>)
    ensures |r| == |ts|
  {
    if |ts| == 0 then [] else Fst(ts[..|ts| - 1]) + [ts[|ts| - 1].0]
  }

  function Snd<T>(ts: seq<(T, T)>): (r: seq<T>)
    ensures |r| == |ts|
  {
    if |ts| == 0 then [] else Snd(ts[..|ts| - 1]) + [ts[|ts| - 1].1]
  }

  /** For each token, its position among the distinct tokens `d`. */
  function Positions(d: seq<string>, toks: seq<string>): (r: seq<nat>)
    ensures |r| == |toks|
  {
    if |toks| == 0 then [] else Positions(d, toks[..|toks| - 1]) + [IndexOf(d, toks[|toks| - 1])]
  }

  /** `array.flat()`: an `undefined` entry stays as one element (read as NaN). */
  function Flat(entries: seq<Option<seq<Scalar>>>): seq<Scalar> {
    if |entries| == 0 then []
    else Flat(entries[..|entries| - 1]) + (match entries[|entries| - 1] case Some(a) => a case None => [NaN])
  }

  function FlatAll(entries: seq<seq<Scalar>>): seq<Scalar> {
    if |entries| == 0 then [] else FlatAll(entries[..|entries| - 1]) + entries[|entries| - 1]
  }

  function Flatten(w: Welded<seq<Scalar>, seq<Scalar>>): ObjData {
    ObjData(Flat(w.vertices), Flat(w.normals), w.indices, Flat(w.texCoords), FlatAll(w.tangents), FlatAll(w.bitangents))
  }

  /** What parsing `objFile` yields. */
  function Expected(objFile: string, parseFloat: string -> Scalar, tangentFn: TangentFn): Result<ObjData, ParseError> {
    var lines := Lines(objFile);
    var inV := Collect(lines, "v", parseFloat);
    var inT := Collect(lines, "vt", parseFloat);
    var inN := Collect(lines, "vn", parseFloat);
    if !AllFacesOK(lines, inV, inT) then Failure(TypeError)
    else Success(Flatten(WeldedOf(FaceTokens(lines), FaceTans(lines, inV, inT, tangentFn), inV, inT, inN)))
  }

  // ---------------------------------------------------------------------------
  // The parser

  /** The dictionary maps each token seen so far to its position among the distinct ones; the counter counts them. */
  ghost predicate DictState(dict: map<string, nat>, counter: nat, toks: seq<string>) {
    (forall t :: t in dict <==> t in toks) &&
    (forall t :: t in dict ==> dict[t] == IndexOf(Distinct(toks), t)) &&
    counter == |Distinct(toks)|
  }

  /**
   * One token of the dictionary loop: a token already in the dictionary
   * pushes its index; a new one pushes a vertex, its attributes and the
   * face's tangents, and takes the next index.
   */
  ghost function WeldPush<V, T>(dict: map<string, nat>, w: Welded<V, T>, t: string, tan: (T, T),
                                inV: seq<V>, inT: seq<V>, inN: seq<V>): (map<string, nat>, Welded<V, T>)
  {
    if t in dict then (dict, w.(indices := w.indices + [dict[t]]))
    else
      (dict[t := |w.vertices|],
       Welded(w.vertices + [Select(inV, t, 0)], w.texCoords + [Select(inT, t, 1)], w.normals + [Select(inN, t, 2)],
              w.tangents + [tan.0], w.bitangents + [tan.1], w.indices + [|w.vertices|]))
  }

  /** The dictionary and the output arrays after the dictionary loop has seen the tokens `toks`. */
  ghost function WeldFold<V, T>(toks: seq<string>, tans: seq<(T, T)>,
                                inV: seq<V>, inT: seq<V>, inN: seq<V>): (map<string, nat>, Welded<V, T>)
    requires |tans| == |toks|
  {
    if |toks| == 0 then (map[], Welded([], [], [], [], [], []))
    else
      var n := |toks| - 1;
      var acc := WeldFold(toks[..n], tans[..n], inV, inT, inN);
      WeldPush(acc.0, acc.1, toks[n], tans[n], inV, inT, inN)
  }

  /** The dictionary loop over the tokens `ft` of one face, whose tangents are `tan`, starting from `acc`. */
  ghost function WeldRun<V, T>(acc: (map<string, nat>, Welded<V, T>), ft: seq<string>, tan: (T, T),
                               inV: seq<V>, inT: seq<V>, inN: seq<V>): (map<string, nat>, Welded<V, T>)
  {
    if |ft| == 0 then acc
    else
      var n := |ft| - 1;
      var p := WeldRun(acc, ft[..n], tan, inV, inT, inN);
      WeldPush(p.0, p.1, ft[n], tan, inV, inT, inN)
  }

  /** The first pass: the `v`, `vt` and `vn` lines, in file order. */
  method ReadInputs(lines: seq<string>, parseFloat: string -> Scalar)
    returns (inputVertices: seq<seq<Scalar>>, inputTexCoords: seq<seq<Scalar>>, inputNormals: seq<seq<Scalar>>)
    ensures inputVertices == Collect(lines, "v", parseFloat)
    ensures inputTexCoords == Collect(lines, "vt", parseFloat)
    ensures inputNormals == Collect(lines, "vn", parseFloat)
  {
    inputVertices, inputTexCoords, inputNormals := [], [], [];
    var i := 0;
    while i < |lines|
      invariant 0 <= i <= |lines|
      invariant inputVertices == Collect(lines[..i], "v", parseFloat)
      invariant inputTexCoords == Collect(lines[..i], "vt", parseFloat)
      invariant inputNormals == Collect(lines[..i], "vn", parseFloat)
    {
      var line := Split(lines[i], ' ');
      assert lines[..i + 1][..i] == lines[..i];
      if line[0] == "v" {
        inputVertices := inputVertices + [ParseAll(line[1..], parseFloat)];
      } else if line[0] == "vt" {
        inputTexCoords := inputTexCoords + [ParseAll(line[1..], parseFloat)];
      } else if line[0] == "vn" {
        inputNormals := inputNormals + [ParseAll(line[1..], parseFloat)];
      }
      i := i + 1;
    }
    assert lines[..i] == lines;
  }

  /** The tokens of one face, in order. */
  method WeldFace<V, T>(ft: seq<string>, tangents: (T, T),
                        inputVertices: seq<V>, inputTexCoords: seq<V>, inputNormals: seq<V>,
                        indexDict: map<string, nat>, indexCounter: nat, out: Welded<V, T>)
    returns (indexDict': map<string, nat>, indexCounter': nat, out': Welded<V, T>)
    requires indexCounter == |out.vertices|
    ensures (indexDict', out') == WeldRun((indexDict, out), ft, tangents, inputVertices, inputTexCoords, inputNormals)
    ensures indexCounter' == |out'.vertices|
  {
    indexDict', indexCounter', out' := indexDict, indexCounter, out;
    var j := 0;
    while j < |ft|
      invariant 0 <= j <= |ft|
      invariant (indexDict', out') == WeldRun((indexDict, out), ft[..j], tangents, inputVertices, inputTexCoords, inputNormals)
      invariant indexCounter' == |out'.vertices|
    {
      WeldRunStep((indexDict, out), ft, tangents, j, inputVertices, inputTexCoords, inputNormals);
      indexDict', indexCounter', out' :=
        WeldToken(ft[j], tangents, inputVertices, inputTexCoords, inputNormals, indexDict', indexCounter', out');
      j := j + 1;
    }
    assert ft[..j] == ft;
  }

  /** One token of a face: reuse its index if it was seen before, otherwise push a new vertex. */
  method WeldToken<V, T>(tripletStr: string, tangents: (T, T), inputVertices: seq<V>, inputTexCoords: seq<V>,
                         inputNormals: seq<V>, indexDict: map<string, nat>, indexCounter: nat, out: Welded<V, T>)
    returns (indexDict': map<string, nat>, indexCounter': nat, out': Welded<V, T>)
    requires indexCounter == |out.vertices|
    ensures (indexDict', out') == WeldPush(indexDict, out, tripletStr, tangents, inputVertices, inputTexCoords, inputNormals)
    ensures indexCounter' == |out'.vertices|
  {
    if tripletStr in indexDict {
      indexDict', indexCounter' := indexDict, indexCounter;
      out' := out.(indices := out.indices + [indexDict[tripletStr]]);
    } else {
      out' := Welded(out.vertices + [Select(inputVertices, tripletStr, 0)],
                     out.texCoords + [Select(inputTexCoords, tripletStr, 1)],
                     out.normals + [Select(inputNormals, tripletStr, 2)],
                     out.tangents + [tangents.0],
                     out.bitangents + [tangents.1],
                     out.indices + [indexCounter]);
      indexDict' := indexDict[tripletStr := indexCounter];
      indexCounter' := indexCounter + 1;
    }
  }

  /** The state of the second pass after `lines`: the face tokens and tangents seen, and the dictionary loop over them. */
  ghost predicate Welding(lines: seq<string>, inV: seq<seq<Scalar>>, inT: seq<seq<Scalar>>, inN: seq<seq<Scalar>>,
                          tangentFn: TangentFn, toks: seq<string>, tans: seq<Tangents>,
                          indexDict: map<string, nat>, indexCounter: nat, out: Welded<seq<Scalar>, seq<Scalar>>)
  {
    AllFacesOK(lines, inV, inT) && toks == FaceTokens(lines) && tans == FaceTans(lines, inV, inT, tangentFn) &&
    (indexDict, out) == WeldFold(toks, tans, inV, inT, inN) && indexCounter == |out.vertices|
  }

  /** The body of the second pass for line `i`: skip it, throw on a bad face, or weld a face's tokens. */
  method WeldLine(lines: seq<string>, i: nat, inputVertices: seq<seq<Scalar>>, inputTexCoords: seq<seq<Scalar>>,
                  inputNormals: seq<seq<Scalar>>, calcTangents: TangentFn, ghost toks: seq<string>, ghost tans: seq<Tangents>,
                  indexDict: map<string, nat>, indexCounter: nat, out: Welded<seq<Scalar>, seq<Scalar>>)
    returns (ok: bool, indexDict': map<string, nat>, indexCounter': nat, out': Welded<seq<Scalar>, seq<Scalar>>,
             ghost toks': seq<string>, ghost tans': seq<Tangents>)
    requires i < |lines|
    requires Welding(lines[..i], inputVertices, inputTexCoords, inputNormals, calcTangents, toks, tans, indexDict, indexCounter, out)
    ensures !ok ==> !AllFacesOK(lines, inputVertices, inputTexCoords)
    ensures ok ==> Welding(lines[..i + 1], inputVertices, inputTexCoords, inputNormals, calcTangents,
                           toks', tans', indexDict', indexCounter', out')
  {
    assert lines[..i + 1][..i] == lines[..i];
    ok, indexDict', indexCounter', out', toks', tans' := true, indexDict, indexCounter, out, toks, tans;
    match ClassifyLine(lines[i], inputVertices, inputTexCoords, calcTangents) {
    case BadFace =>
      // reading the first three tokens of the face throws
      AllFacesOKPrefix(lines, i + 1, inputVertices, inputTexCoords);
      ok := false;
    case Other =>
      AppendNothing(toks);
      AppendNothing(tans);
    case Face(ft, tangents) =>
      indexDict', indexCounter', out' := WeldFace(ft, tangents, inputVertices, inputTexCoords, inputNormals,
                                                  indexDict, indexCounter, out);
      WeldFoldAppend(toks, tans, ft, tangents, inputVertices, inputTexCoords, inputNormals);
      toks', tans' := toks + ft, tans + Rep(tangents, |ft|);
    }
  }

  /** The second pass: every line in turn, stopping at the first face that throws. */
  method WeldLines(lines: seq<string>, inputVertices: seq<seq<Scalar>>, inputTexCoords: seq<seq<Scalar>>,
                   inputNormals: seq<seq<Scalar>>, calcTangents: TangentFn)
    returns (r: Result<Welded<seq<Scalar>, seq<Scalar>>, ParseError>)
    ensures r.Failure? <==> !AllFacesOK(lines, inputVertices, inputTexCoords)
    ensures r.Success? ==>
      r.value == WeldedOf(FaceTokens(lines), FaceTans(lines, inputVertices, inputTexCoords, calcTangents),
                          inputVertices, inputTexCoords, inputNormals)
  {
    // the six output arrays: positions, texture coordinates, normals, tangents, bitangents, indices
    var out: Welded<seq<Scalar>, seq<Scalar>> := Welded([], [], [], [], [], []);
    var indexCounter: nat := 0;
    var indexDict: map<string, nat> := map[];
    ghost var toks: seq<string> := [];
    ghost var tans: seq<Tangents> := [];
    var i := 0;
    while i < |lines|
      invariant 0 <= i <= |lines|
      invariant Welding(lines[..i], inputVertices, inputTexCoords, inputNormals, calcTangents, toks, tans, indexDict, indexCounter, out)
    {
      var ok;
      ok, indexDict, indexCounter, out, toks, tans :=
        WeldLine(lines, i, inputVertices, inputTexCoords, inputNormals, calcTangents, toks, tans, indexDict, indexCounter, out);
      if !ok {
        return Failure(TypeError);
      }
      i := i + 1;
    }
    assert lines[..i] == lines;
    WeldFoldIsWeldedOf(toks, tans, inputVertices, inputTexCoords, inputNormals);
    return Success(out);
  }

  /** `parseOBJFile`: the two passes, then the six output arrays flattened. */
  method ParseOBJFile(objFile: string, parseFloat: string -> Scalar, calcTangents: TangentFn)
    returns (r: Result<ObjData, ParseError>)
    ensures r == Expected(objFile, parseFloat, calcTangents)
  {
    var lines := Split(objFile, '\n');
    var inputVertices, inputTexCoords, inputNormals := ReadInputs(lines, parseFloat);
    var welded := WeldLines(lines, inputVertices, inputTexCoords, inputNormals, calcTangents);
    match welded
    case Failure(_) => r := Failure(TypeError);
    case Success(out) => r := Success(Flatten(out));
  }

  // ---------------------------------------------------------------------------
  // Lemmas behind the parser

  /** The dictionary loop over one more token of a face is one more push. */
  lemma WeldFaceStep<V, T>(toks: seq<string>, tans: seq<(T, T)>, ft: seq<string>, tan: (T, T), j: nat,
                           inV: seq<V>, inT: seq<V>, inN: seq<V>)
    requires |tans| == |toks| && j < |ft|
    ensures var acc := WeldFold(toks + ft[..j], tans + Rep(tan, j), inV, inT, inN);
            WeldFold(toks + ft[..j + 1], tans + Rep(tan, j + 1), inV, inT, inN) == WeldPush(acc.0, acc.1, ft[j], tan, inV, inT, inN)
  {
    var ts, ns := toks + ft[..j], tans + Rep(tan, j);
    assert toks + ft[..j + 1] == ts + [ft[j]] && tans + Rep(tan, j + 1) == ns + [tan];
    assert (ts + [ft[j]])[..|ts|] == ts && (ns + [tan])[..|ns|] == ns;
  }

  /** One more token of a face is one more push. */
  lemma WeldRunStep<V, T>(acc: (map<string, nat>, Welded<V, T>), ft: seq<string>, tan: (T, T), j: nat,
                          inV: seq<V>, inT: seq<V>, inN: seq<V>)
    requires j < |ft|
    ensures var p := WeldRun(acc, ft[..j], tan, inV, inT, inN);
            WeldRun(acc, ft[..j + 1], tan, inV, inT, inN) == WeldPush(p.0, p.1, ft[j], tan, inV, inT, inN)
  {
    assert ft[..j + 1][..j] == ft[..j];
  }

  /**
   * Running the dictionary loop over one more face continues from where the
   * loop over the earlier faces stopped.
   */
  lemma {:induction false} WeldFoldAppend<V, T>(toks: seq<string>, tans: seq<(T, T)>, ft: seq<string>, tan: (T, T),
                                                inV: seq<V>, inT: seq<V>, inN: seq<V>)
    requires |tans| == |toks|
    ensures WeldFold(toks + ft, tans + Rep(tan, |ft|), inV, inT, inN) == WeldRun(WeldFold(toks, tans, inV, inT, inN), ft, tan, inV, inT, inN)
    decreases |ft|
  {
    if |ft| == 0 {
      assert toks + ft == toks && tans + Rep(tan, 0) == tans;
    } else {
      var n := |ft| - 1;
      WeldFoldAppend(toks, tans, ft[..n], tan, inV, inT, inN);
      WeldFaceStep(toks, tans, ft, tan, n, inV, inT, inN);
      assert ft[..n + 1] == ft;
    }
  }

  lemma AppendNothing<X>(s: seq<X>)
    ensures s + [] == s
  {
  }

  lemma {:induction false} AllFacesOKPrefix(lines: seq<string>, m: nat, inV: seq<seq<Scalar>>, inT: seq<seq<Scalar>>)
    requires m <= |lines|
    ensures AllFacesOK(lines, inV, inT) ==> AllFacesOK(lines[..m], inV, inT)
    decreases |lines| - m
  {
    if m < |lines| {
      AllFacesOKPrefix(lines, m + 1, inV, inT);
      assert lines[..m + 1][..m] == lines[..m];
    } else {
      assert lines[..m] == lines;
    }
  }

  lemma {:induction false} IndexOfSnocOld<X>(s: seq<X>, t: X, x: X)
    requires x in s
    ensures IndexOf(s + [t], x) == IndexOf(s, x)
  {
    if s[0] != x {
      assert (s + [t])[1..] == s[1..] + [t];
      IndexOfSnocOld(s[1..], t, x);
    }
  }

  lemma {:induction false} IndexOfSnocNew<X>(s: seq<X>, t: X)
    requires t !in s
    ensures IndexOf(s + [t], t) == |s|
  {
    if |s| > 0 {
      assert (s + [t])[1..] == s[1..] + [t];
      IndexOfSnocNew(s[1..], t);
    }
  }

  lemma {:induction false} DistinctMembers<X(!new)>(s: seq<X>)
    ensures forall x :: x in Distinct(s) <==> x in s
  {
    if |s| > 0 {
      DistinctMembers(s[..|s| - 1]);
      assert s == s[..|s| - 1] + [s[|s| - 1]];
    }
  }

  lemma DistinctSnoc<X>(s: seq<X>, t: X)
    ensures Distinct(s + [t]) == if t in s then Distinct(s) else Distinct(s) + [t]
  {
    assert (s + [t])[..|s|] == s;
  }

  lemma PickSnoc<X>(arr: seq<X>, d: seq<string>, t: string, c: nat)
    ensures Pick(arr, d + [t], c) == Pick(arr, d, c) + [Select(arr, t, c)]
  {
    assert (d + [t])[..|d|] == d;
  }

  lemma FstSndSnoc<T>(ts: seq<(T, T)>, tan: (T, T))
    ensures Fst(ts + [tan]) == Fst(ts) + [tan.0]
    ensures Snd(ts + [tan]) == Snd(ts) + [tan.1]
  {
    assert (ts + [tan])[..|ts|] == ts;
  }

  lemma FirstTansSnoc<T>(toks: seq<string>, tans: seq<(T, T)>, t: string, tan: (T, T))
    requires |tans| == |toks|
    ensures FirstTans(toks + [t], tans + [tan]) == if t in toks then FirstTans(toks, tans) else FirstTans(toks, tans) + [tan]
  {
    assert (toks + [t])[..|toks|] == toks;
    assert (tans + [tan])[..|tans|] == tans;
  }

  lemma PositionsSnoc(d: seq<string>, toks: seq<string>, t: string)
    ensures Positions(d, toks + [t]) == Positions(d, toks) + [IndexOf(d, t)]
  {
    assert (toks + [t])[..|toks|] == toks;
  }

  lemma {:induction false} PositionsExtend(d: seq<string>, toks: seq<string>, t: string)
    requires forall x :: x in toks ==> x in d
    ensures Positions(d + [t], toks) == Positions(d, toks)
  {
    if |toks| > 0 {
      PositionsExtend(d, toks[..|toks| - 1], t);
      IndexOfSnocOld(d, t, toks[|toks| - 1]);
    }
  }

  /** A token already in the dictionary: its stored index is its position among the distinct tokens. */
  lemma DictStepOld(dict: map<string, nat>, counter: nat, toks: seq<string>, t: string)
    requires DictState(dict, counter, toks)
    requires t in dict
    ensures t in toks && dict[t] == IndexOf(Distinct(toks), t)
    ensures DictState(dict, counter, toks + [t])
  {
    DistinctSnoc(toks, t);
    DistinctMembers(toks);
  }

  /** A new token: it takes the counter value, which is the number of distinct tokens so far. */
  lemma DictStepNew(dict: map<string, nat>, counter: nat, toks: seq<string>, t: string)
    requires DictState(dict, counter, toks)
    requires t !in dict
    ensures t !in toks && counter == |Distinct(toks)|
    ensures DictState(dict[t := counter], counter + 1, toks + [t])
  {
    DistinctSnoc(toks, t);
    DistinctMembers(toks);
    var d := Distinct(toks);
    forall x | x in dict
      ensures IndexOf(d + [t], x) == IndexOf(d, x)
    {
      IndexOfSnocOld(d, t, x);
    }
    IndexOfSnocNew(d, t);
  }

  /** Welding one more token: a known token only adds its index; a new one adds a vertex. */
  lemma WeldSnoc<V, T>(toks: seq<string>, tans: seq<(T, T)>, t: string, tan: (T, T),
                       inV: seq<V>, inT: seq<V>, inN: seq<V>)
    requires |tans| == |toks|
    ensures var w := WeldedOf(toks, tans, inV, inT, inN);
            var w' := WeldedOf(toks + [t], tans + [tan], inV, inT, inN);
            if t in toks then
              w' == w.(indices := w.indices + [IndexOf(Distinct(toks), t)])
            else
              w' == Welded(w.vertices + [Select(inV, t, 0)], w.texCoords + [Select(inT, t, 1)],
                           w.normals + [Select(inN, t, 2)], w.tangents + [tan.0],
                           w.bitangents + [tan.1], w.indices + [|Distinct(toks)|])
  {
    var d := Distinct(toks);
    DistinctSnoc(toks, t);
    DistinctMembers(toks);
    FirstTansSnoc(toks, tans, t, tan);
    if t in toks {
      PositionsSnoc(d, toks, t);
    } else {
      FstSndSnoc(FirstTans(toks, tans), tan);
      PickSnoc(inV, d, t, 0);
      PickSnoc(inT, d, t, 1);
      PickSnoc(inN, d, t, 2);
      PositionsExtend(d, toks, t);
      PositionsSnoc(d + [t], toks, t);
      IndexOfSnocNew(d, t);
    }
  }

  /**
   * The dictionary loop computes the reference welding, and its dictionary
   * maps every token seen to that token's position among the distinct ones.
   */
  lemma {:induction false} WeldFoldIsWeldedOf<V, T>(toks: seq<string>, tans: seq<(T, T)>,
                                                    inV: seq<V>, inT: seq<V>, inN: seq<V>)
    requires |tans| == |toks|
    ensures WeldFold(toks, tans, inV, inT, inN).1 == WeldedOf(toks, tans, inV, inT, inN)
    ensures DictState(WeldFold(toks, tans, inV, inT, inN).0, |WeldFold(toks, tans, inV, inT, inN).1.vertices|, toks)
  {
    if |toks| > 0 {
      var n := |toks| - 1;
      var p, tp, t, tan := toks[..n], tans[..n], toks[n], tans[n];
      assert toks == p + [t] && tans == tp + [tan];
      WeldFoldIsWeldedOf(p, tp, inV, inT, inN);
      var acc := WeldFold(p, tp, inV, inT, inN);
      WeldSnoc(p, tp, t, tan, inV, inT, inN);
      if t in acc.0 {
        DictStepOld(acc.0, |acc.1.vertices|, p, t);
      } else {
        DictStepNew(acc.0, |acc.1.vertices|, p, t);
      }
    }
  }

  // ---------------------------------------------------------------------------
  // What the parse promises

  lemma {:induction false} PositionsAt(d: seq<string>, toks: seq<string>, k: nat)
    requires k < |toks|
    ensures Positions(d, toks)[k] == IndexOf(d, toks[k])
  {
    if k < |toks| - 1 {
      PositionsAt(d, toks[..|toks| - 1], k);
    }
  }

  lemma {:induction false} PickAt<X>(arr: seq<X>, d: seq<string>, c: nat, j: nat)
    requires j < |d|
    ensures Pick(arr, d, c)[j] == Select(arr, d[j], c)
  {
    if j < |d| - 1 {
      PickAt(arr, d[..|d| - 1], c, j);
    }
  }

  lemma {:induction false} FstSndAt<T>(ts: seq<(T, T)>, j: nat)
    requires j < |ts|
    ensures Fst(ts)[j] == ts[j].0 && Snd(ts)[j] == ts[j].1
  {
    if j < |ts| - 1 {
      FstSndAt(ts[..|ts| - 1], j);
    }
  }

  /** The tangents kept for a token are those of the token's first appearance. */
  lemma {:induction false} FirstTansAt<T>(toks: seq<string>, tans: seq<(T, T)>, x: string)
    requires |tans| == |toks|
    requires x in toks
    ensures IndexOf(Distinct(toks), x) < |FirstTans(toks, tans)|
    ensures FirstTans(toks, tans)[IndexOf(Distinct(toks), x)] == tans[IndexOf(toks, x)]
  {
    var n := |toks| - 1;
    var p, tp, t := toks[..n], tans[..n], toks[n];
    assert toks == p + [t] && tans == tp + [tans[n]];
    DistinctSnoc(p, t);
    FirstTansSnoc(p, tp, t, tans[n]);
    DistinctMembers(p);
    if x in p {
      FirstTansAt(p, tp, x);
      IndexOfSnocOld(p, t, x);
      if t !in p {
        IndexOfSnocOld(Distinct(p), t, x);
      }
    } else {
      IndexOfSnocNew(p, t);
      IndexOfSnocNew(Distinct(p), t);
    }
  }

  /** The output arrays: one entry per distinct token, one index per token. */
  lemma WeldedSizes<V, T>(toks: seq<string>, tans: seq<(T, T)>, inV: seq<V>, inT: seq<V>, inN: seq<V>)
    requires |tans| == |toks|
    ensures var w := WeldedOf(toks, tans, inV, inT, inN);
            |w.vertices| == |w.texCoords| == |w.normals| == |w.tangents| == |w.bitangents| == |Distinct(toks)| &&
            |w.indices| == |toks|
  {
  }

  /**
   * Every index points at an output vertex that carries the position, the
   * texture coordinate and the normal its token selects, and the tangents of
   * the face in which the token first appeared.
   */
  lemma WeldedVertexOfToken<V, T>(toks: seq<string>, tans: seq<(T, T)>, inV: seq<V>, inT: seq<V>, inN: seq<V>, k: nat)
    requires |tans| == |toks|
    requires k < |toks|
    ensures var w := WeldedOf(toks, tans, inV, inT, inN);
            var i := w.indices[k];
            i < |w.vertices| &&
            w.vertices[i] == Select(inV, toks[k], 0) &&
            w.texCoords[i] == Select(inT, toks[k], 1) &&
            w.normals[i] == Select(inN, toks[k], 2) &&
            w.tangents[i] == tans[IndexOf(toks, toks[k])].0 &&
            w.bitangents[i] == tans[IndexOf(toks, toks[k])].1
  {
    var d := Distinct(toks);
    DistinctMembers(toks);
    PositionsAt(d, toks, k);
    var i := IndexOf(d, toks[k]);
    PickAt(inV, d, 0, i);
    PickAt(inT, d, 1, i);
    PickAt(inN, d, 2, i);
    FirstTansAt(toks, tans, toks[k]);
    FstSndAt(FirstTans(toks, tans), i);
  }

  /** Two face tokens share an output vertex exactly when they are the same text. */
  lemma WeldedSameIndexIffSameToken<V, T>(toks: seq<string>, tans: seq<(T, T)>, inV: seq<V>, inT: seq<V>, inN: seq<V>,
                                          a: nat, b: nat)
    requires |tans| == |toks|
    requires a < |toks| && b < |toks|
    ensures var w := WeldedOf(toks, tans, inV, inT, inN);
            w.indices[a] == w.indices[b] <==> toks[a] == toks[b]
  {
    var d := Distinct(toks);
    DistinctMembers(toks);
    PositionsAt(d, toks, a);
    PositionsAt(d, toks, b);
  }

  /** The distinct tokens of a prefix are a prefix of the distinct tokens. */
  lemma {:induction false} DistinctPrefix<X>(s: seq<X>, m: nat)
    requires m <= |s|
    ensures |Distinct(s[..m])| <= |Distinct(s)|
    ensures Distinct(s)[..|Distinct(s[..m])|] == Distinct(s[..m])
    decreases |s| - m
  {
    if m == |s| {
      assert s[..m] == s;
    } else {
      DistinctPrefix(s, m + 1);
      assert s[..m + 1][..m] == s[..m];
      DistinctSnoc(s[..m], s[m]);
      assert s[..m + 1] == s[..m] + [s[m]];
    }
  }

  lemma {:induction false} IndexOfInPrefix<X>(s: seq<X>, m: nat, x: X)
    requires m <= |s|
    requires x in s[..m]
    ensures IndexOf(s, x) == IndexOf(s[..m], x)
  {
    if s[0] != x {
      assert s[1..][..m - 1] == s[..m][1..];
      IndexOfInPrefix(s[1..], m - 1, x);
    }
  }

  /**
   * Indices are handed out in order of first appearance: a token not seen
   * before gets the number of distinct tokens before it, and the first token
   * gets 0.
   */
  lemma WeldedFirstAppearance<V, T>(toks: seq<string>, tans: seq<(T, T)>, inV: seq<V>, inT: seq<V>, inN: seq<V>, k: nat)
    requires |tans| == |toks|
    requires k < |toks|
    requires toks[k] !in toks[..k]
    ensures WeldedOf(toks, tans, inV, inT, inN).indices[k] == |Distinct(toks[..k])|
  {
    var d := Distinct(toks);
    PositionsAt(d, toks, k);
    DistinctPrefix(toks, k + 1);
    assert toks[..k + 1] == toks[..k] + [toks[k]];
    DistinctSnoc(toks[..k], toks[k]);
    var dp := Distinct(toks[..k + 1]);
    assert dp == Distinct(toks[..k]) + [toks[k]];
    IndexOfSnocNew(Distinct(toks[..k]), toks[k]) by {
      DistinctMembers(toks[..k]);
    }
    IndexOfInPrefix(d, |dp|, toks[k]);
  }

  /** No two output vertices come from the same token. */
  lemma {:induction false} DistinctNoDup<X(!new)>(s: seq<X>)
    ensures NoDup(Distinct(s))
  {
    if |s| > 0 {
      var p := s[..|s| - 1];
      DistinctNoDup(p);
      DistinctMembers(p);
    }
  }

  /** Parsing fails exactly when some face line is malformed. */
  lemma {:induction false} AllFacesOKIff(lines: seq<string>, inV: seq<seq<Scalar>>, inT: seq<seq<Scalar>>)
    ensures AllFacesOK(lines, inV, inT) <==> forall i :: 0 <= i < |lines| ==> LineOK(lines[i], inV, inT)
  {
    if |lines| > 0 {
      var p := lines[..|lines| - 1];
      AllFacesOKIff(p, inV, inT);
      assert forall i :: 0 <= i < |p| ==> p[i] == lines[i];
    }
  }

  /** The collected arrays are exactly the numbers of the lines whose first token is the tag. */
  lemma {:induction false} CollectTaggedLines(lines: seq<string>, tag: string, parseFloat: string -> Scalar)
    ensures forall e :: e in Collect(lines, tag, parseFloat) ==>
              exists i :: 0 <= i < |lines| && Tokens(lines[i])[0] == tag && e == ParseAll(Tokens(lines[i])[1..], parseFloat)
    ensures forall i :: 0 <= i < |lines| && Tokens(lines[i])[0] == tag ==>
              ParseAll(Tokens(lines[i])[1..], parseFloat) in Collect(lines, tag, parseFloat)
  {
    if |lines| > 0 {
      var p := lines[..|lines| - 1];
      CollectTaggedLines(p, tag, parseFloat);
      assert forall i :: 0 <= i < |p| ==> p[i] == lines[i];
    }
  }
}
