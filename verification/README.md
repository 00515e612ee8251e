# A verified model of a small WebGL scene engine

The engine loads a scene file listing meshes, textures, materials, models and
world objects. It builds an asset graph from that file and draws the scene in
two passes: a shadow-map pass from the light, then a lit pass from the camera.
Its physics engine's `updateScene`, when called, flags the objects whose
axis-aligned bounding boxes overlap. The game loop never reaches that scan: it calls a physics
method that no class defines, and the scan reads a model field that nothing
sets (see "## Left out").
The player steers one possessed object through a controller and picks the
object under the crosshair with a ray.

This project models the `js/` version of the engine in Dafny:

- the OBJ parser, which welds identical `v/vt/vn` face tokens into one output vertex, and its helpers in `js/utils.js`;
- bounding boxes: a model's box from its mesh, the world box of an object, and the overlap test;
- the collision-flag scan of `js/PhysicsEngine.js`;
- the slab ray/box test and the closest-hit pick of `js/GameEngine.js`;
- scene loading: the asset counters, how references resolve and the `addNew*` operations;
- the `toJSON` records and the constructor defaults of every entity;
- the controller's moves, jump, turn and possession;
- the rules of the two render passes: which objects each pass draws, the texture fallbacks, the order of the model-matrix steps and the wireframe colour;
- the key-path walk `objectPathToObject` of `js/frontend.js`.

Modules follow the source files:

- `ObjParser` and `Utils` (`js/utils.js`), with `Text` for `split`, `parseInt` and `toString`;
- `Meshes`, `Textures`, `Materials` and `Models`;
- `BoundingBoxes` (`js/AABB.js`) and `WorldObjects` (`js/WorldObject.js` and `js/Camera.js`);
- `Physics`, `RayCasting` and `Controllers`;
- `Scenes` (`js/Scene.js`), and `SceneFile`, `SceneLoading` and `SceneDefaults` for what loading reads and builds;
- `GameEngines` and `Rendering` (`js/RenderEngine.js`);
- `Frontend`;
- `JsValues`, `Numbers` and `Wrappers` as shared support.

Modelling choices:

- Numbers are `real`. Box bounds use an extended real (`NegInf`, `Fin`, `PosInf`). A model's box starts at plus and minus Infinity, and the ray test divides by direction components that can be zero.
- Objects whose fields the engine updates in place are classes with `modifies` frames: `WorldObject`, `AABB`, `Controller`, `Scene`, `GameEngine` and `RenderEngine`. Meshes, textures, materials and models never change after loading, so they are datatypes.
- JavaScript's `for ... in` and `Object.values` visit keys in an order the engine does not control. That order is a parameter that enumerates the dictionary's keys once each.
- `null`, `undefined` and `false` results are `Option` values. A `Result` stands for the `TypeError` the parser throws on a malformed face.
- Asset loading is asynchronous in the source. Each completion callback is a method (`MeshLoaded`, `TextureLoaded`) that can be called in any order.

Behaviour of the code that the model keeps, though a reader might expect otherwise:

- The physics step is only the collision-flag scan. Positions are not integrated, and there is no friction, gravity or push-out.
- A ray that starts inside a box gets a negative entry parameter, and the test reports a miss. `RayCasting.StartInsideMisses` proves this.
- An object without a `scale` cannot be drawn. The world-object constructor sets none, `addNewWorldObject` sets none, and loading sets one only when the entry has it. `drawModel` passes the missing scale to `mat4.scale`, which throws a `TypeError` and ends `render` at that object. The render passes model this throw.
- `castRay` skips objects whose id is `"camera"`, but the camera's id is `"Camera"`. The ray test therefore runs on the camera, and a ray from inside its own box misses it (`GameEngines.CameraNotSkipped`).

## Model

| member | source | states |
|---|---|---|
| Frontend.ObjectPathToObject | js/frontend.js:264-274 | the loop with its early return computes exactly `Follow(start, path)` |
| Frontend.FollowEmpty | js/frontend.js:264-273 | an empty path returns `start` itself, whatever it is |
| Frontend.FollowNull | js/frontend.js:267-268 | a walk that starts at null or undefined ends at null for any non-empty path |
| Frontend.FollowNeverUndefined | js/frontend.js:267-268 | a non-empty walk never ends on `undefined`: a missing field becomes null |
| Frontend.FollowFindsFalsy | js/frontend.js:267 | a field holding `false`, `0` or `""` is found, since the test is `== null` |
| Frontend.FollowReads | js/frontend.js:266-273 | with no null step the walk reaches the value read key by key; otherwise it is null |
| Frontend.FollowConcat | js/frontend.js:264-274 | following `p` and then `q` equals following `p + q` |
| JsValues.Values | js/Scene.js:17-22 | `Object.values(pool)`: one value per key, in enumeration order |
| JsValues.EnumeratesSize | js/Scene.js:17-22 | an enumeration visits as many keys as the dictionary has entries |
| JsValues.ValuesComplete | js/Scene.js:17-22 | every value of the dictionary is among `Object.values`, and nothing else is |
| SceneFile.Lookup | js/GameEngine.js:200-221 | `pool[ref]` finds the asset exactly when the reference's key is one of the pool's own keys; an absent reference reads the key "undefined" |
| Meshes.MeshOfData | js/Mesh.js:2-21 | the constructor keeps id, path and the six geometry arrays exactly as given |
| Meshes.ToJSON | js/Mesh.js:105-110 | only id and path are written |
| Meshes.MeshEntryRoundTrip | js/Mesh.js:105-110 | writing a mesh built from a scene-file entry gives the entry back, whatever the geometry |
| Meshes.DefaultMeshCounts | js/Mesh.js:35-37 | the default box mesh draws 36 indices but has 24 vertices: `getNumVerts` counts indices |
| Meshes.ParsedMeshNumVerts | js/utils.js:261-311 | for a mesh read from an OBJ file, `getNumVerts` is the number of tokens after `f` on all face lines: one index per face token |
| Textures.TextureOf | js/Texture.js:2-7 | the constructor keeps id, path and the type tag verbatim, and the image's size |
| Textures.ToJSON | js/Texture.js:40-46 | exactly id, type and path are written |
| Textures.TextureRoundTrip | js/Texture.js:40-46 | writing a texture and building it from the entry with the same image gives it back |
| Textures.TextureEntryRoundTrip | js/Texture.js:40-46 | building a texture from an entry and writing it gives the entry back |
| Textures.SamplingIff | js/Texture.js:31-37 | mipmaps exactly when each side is a power of two or zero; otherwise clamp-to-edge with linear filtering |
| Materials.NewMaterial | js/Material.js:2-12 | textures not passed are null; scale 1.0, specular exponent 32, specular strength 0.0, diffuse strength 1.0, both use flags true |
| Materials.TextureId | js/Material.js:28-33 | a texture reference is written as the texture's id, and only when the texture is set |
| Materials.ToJSON | js/Material.js:15-34 | id, scale, specular exponent and strength and both use flags always; each texture key only when that texture is set, holding its id |
| Materials.DiffuseStrengthNotWritten | js/Material.js:16-23 | the diffuse strength does not reach the output: materials that differ only there serialise alike |
| Models.NewModel | js/Model.js:2-26 | the four render flags true, no animation, rotation axis [0,1,0] and speed factor 1 |
| Models.ToJSON | js/Model.js:81-103 | id and the eight settings always; `material` and `mesh` only when set, holding the referenced id |
| Models.Model.GetModelAABB | js/Model.js:33-79 | no bounds without a mesh; otherwise the stride-3 running min/max with the `else if`, equal to `ModelBounds` of the vertex positions |
| Models.MinMaxLow | js/Model.js:47-69 | each minimum is at most every coordinate on its axis, is one of them, and stays +Infinity only when no coordinate is a number |
| Models.MinMaxHigh | js/Model.js:52-68 | each maximum is at least every coordinate that did not lower the minimum when read, and is -Infinity or one of the coordinates |
| Models.EmptyMeshBounds | js/Model.js:40-47 | an empty position list gives +Infinity minima and -Infinity maxima |
| Models.OneVertexBounds | js/Model.js:52-68 | a one-vertex mesh keeps -Infinity maxima, so max < min |
| Models.ColumnStep | js/Model.js:47-50 | one more pass of the loop extends each axis' running pair by that axis' next coordinate |
| BoundingBoxes.AABB.constructor | js/AABB.js:2-18 | bounds default to -1..1 on every axis, the `render` flag starts false, and the wireframe data is that of the bounds |
| BoundingBoxes.AABB.SetBounds | js/AABB.js:50-57 | the given bounds are stored as they are, the wireframe is regenerated from them, and `toJSON()` then returns exactly them |
| WorldObjects.WorldObject.constructor | js/WorldObject.js:2-36 | position [0,0,0], rotation [0,-90,0] and the three flags true by default; zero velocity, not colliding, airborne, not flying, no model and no box; `newRotation` starts equal to `rotation` |
| WorldObjects.WorldObject.Camera | js/Camera.js:1-16 | id "Camera", type "camera", position always (0,0,10) whatever is passed, not immovable, the four projection settings stored as given |
| WorldObjects.WorldObject.GetWorldSpaceAABBBounds | js/WorldObject.js:51-66 | undefined without a box; otherwise each bound plus the matching position component |
| WorldObjects.Translate | js/WorldObject.js:58-65 | subtracting the position from each world bound gives back the local bound |
| WorldObjects.TranslateKeepsShape | js/WorldObject.js:58-65 | translation keeps each axis' width, so min <= max holds after it exactly when it held before |
| WorldObjects.TranslateInverse | js/WorldObject.js:58-65 | translating by the negated position recovers the local bounds |
| Controllers.Controller.constructor | js/Controller.js:2-10 | no child, and the saved immovability starts undefined because the constructor sets a misspelt field |
| Controllers.Controller.MoveForward | js/Controller.js:22-31 | velocity grows by front * (speed * dt) on x and z, and on y only when flying; nothing else changes |
| Controllers.Controller.MoveBackward | js/Controller.js:34-43 | velocity shrinks by front * (speed * dt) on x and z, and on y only when flying |
| Controllers.Controller.MoveRight | js/Controller.js:46-55 | velocity grows by right * (speed * dt) on x and z, and on y only when flying |
| Controllers.Controller.MoveLeft | js/Controller.js:58-67 | velocity shrinks by right * (speed * dt) on x and z, and on y only when flying |
| Controllers.Impulse | js/Controller.js:22-31 | the velocity change is direction * change on x and z, and on y exactly when flying |
| Controllers.Recoil | js/Controller.js:34-43 | the velocity change is -(direction * change) on x and z, and on y exactly when flying |
| Controllers.RecoilCancelsImpulse | js/Controller.js:22-67 | moving backward cancels moving forward, and left cancels right, for the same direction and dt, in either order |
| Controllers.Controller.Jump | js/Controller.js:70-76 | only from the ground and when not flying: sets airborne and adds jumpHeight * dt to vertical velocity; otherwise nothing changes |
| Controllers.Jumped | js/Controller.js:70-76 | a jump lifts off and adds the boost only when neither airborne nor flying, and leaves the state alone otherwise |
| Controllers.JumpTwice | js/Controller.js:70-76 | a second jump before landing changes nothing |
| Controllers.Controller.Turn | js/Controller.js:79-88 | yaw of the pending rotation grows by dx * turnSpeed * dt, pitch drops by dy * turnSpeed * dt and is raised to -89 if lower; `rotation` is untouched |
| Controllers.Turned | js/Controller.js:79-88 | the pitch is at least -89 and equals the unclamped value whenever that is at least -89; yaw grows by the x change |
| Controllers.TurnHasNoUpperClamp | js/Controller.js:85-87 | there is no upper clamp: a pitch of 100 is kept |
| Controllers.Controller.Parent | js/Controller.js:91-101 | the previous child gets its saved immovability back, the new child's is saved and set false; possessing the same object twice keeps its original value saved |
| Scenes.Scene.constructor | js/Scene.js:2-13 | no world objects, four empty pools, no camera or controller, light at (20,14,10) |
| Scenes.Scene.ToJSON | js/Scene.js:15-25 | each pool becomes the list of its values, one per entry; the exported world objects are exactly those whose type is not "camera"; camera, controller and light are not exported |
| Scenes.NonCameras | js/Scene.js:23 | the filter keeps exactly the objects whose type is not "camera" |
| Utils.CreateBoxMeshData | js/utils.js:34-197 | the default box mesh has 72 position, 72 normal, 72 tangent and 72 bitangent numbers, 48 texture coordinates and 36 indices |
| Utils.BoxIndicesFacts | js/utils.js:120-133 | every index of the default mesh is below 24, and each of the 24 vertices is used by some triangle |
| Utils.BoxVerticesAreCorners | js/utils.js:36-61 | every vertex of the default mesh is a corner of the box, each coordinate plus or minus half the extent |
| Utils.GetAABBVertsFromBounds | js/utils.js:357-397 | the wireframe is 72 numbers, 24 points making 12 segments |
| Utils.AabbSegmentsAreEdges | js/utils.js:357-397 | every segment joins two corners that differ in exactly one coordinate: segment s is the edge `SegmentEdge(s)` |
| Utils.AabbEdgesAreDrawn | js/utils.js:357-397 | every one of the 12 edges of the box is drawn by some segment |
| Utils.AabbSegmentsDistinct | js/utils.js:357-397 | on a box of positive extent no two segments draw the same edge, so each edge is drawn exactly once |
| Utils.EdgeSegment | js/utils.js:357-397 | the segment that draws a given edge, inverse of `SegmentEdge` |
| Utils.SegmentEdgeInjective | js/utils.js:357-397 | different segments are labelled with different edges |
| Utils.EdgesDiffer | js/utils.js:357-397 | on a box of positive extent, differently labelled edges are different segments |
| Utils.Bits32 | js/utils.js:354 | the 32-bit pattern a bitwise operator works on is below 2^32 |
| Utils.BitAnd | js/utils.js:354 | bitwise AND is at most each operand |
| Utils.ClearLowestBit | js/utils.js:354 | for positive v, `v & (v - 1)` is 0 exactly when v is a power of two |
| Utils.IsPowerOf2Iff | js/utils.js:352-355 | on the 32-bit range, `isPowerOf2` holds exactly for the powers of two and for 0 |
| Utils.ArrayEquals | js/utils.js:399-411 | true exactly when the lengths match and no position has entries that differ under `!=`, with the early returns |
| Utils.ArrayEqualsMeaning | js/utils.js:399-411 | on arrays without NaN that is sequence equality; an array holding NaN equals nothing |
| ObjParser.ParseOBJFile | js/utils.js:199-323 | the two passes give `Expected(objFile)`: a TypeError exactly when some face line is malformed, otherwise the flattened welding of all face tokens |
| ObjParser.ReadInputs | js/utils.js:235-250 | the first pass collects the numbers of the `v`, `vt` and `vn` lines, each list in file order |
| ObjParser.CollectTaggedLines | js/utils.js:235-250 | a collected entry comes from a line whose first token is exactly the tag, and every such line is collected |
| ObjParser.ClassifyLine | js/utils.js:261-288 | a line is a face that throws exactly when it is a face line with fewer than three tokens or one of the first three selects no position or texture coordinate |
| ObjParser.AllFacesOKIff | js/utils.js:261-288 | parsing fails exactly when some line is a malformed face |
| ObjParser.WeldLines | js/utils.js:253-313 | the second pass throws exactly when some face line is malformed, and otherwise produces `WeldedOf` the face tokens in file order |
| ObjParser.WeldLine | js/utils.js:261-312 | one line of the second pass: a non-face adds nothing, a malformed face throws, a face continues the dictionary loop over its tokens |
| ObjParser.WeldFace | js/utils.js:290-311 | the inner loop over the tokens of one face is `WeldRun` of those tokens, and the counter equals the number of output vertices |
| ObjParser.WeldToken | js/utils.js:291-310 | a token already in the dictionary pushes its stored index; a new one pushes its position, texture coordinate, normal and the face's tangents and takes the counter as its index |
| ObjParser.WeldFoldAppend | js/utils.js:261-311 | the dictionary loop over one more face continues from where the loop over the earlier faces stopped |
| ObjParser.WeldFoldIsWeldedOf | js/utils.js:259-311 | the dictionary loop computes the reference welding, and the dictionary maps each token seen to its position among the distinct tokens |
| ObjParser.WeldSnoc | js/utils.js:293-310 | one more token: a known token only adds its first index; a new one adds a vertex and takes the number of distinct tokens so far as its index |
| ObjParser.DictStepOld | js/utils.js:293-295 | a token in the dictionary has been seen, and its stored index is its position among the distinct tokens |
| ObjParser.DictStepNew | js/utils.js:305-309 | a token not in the dictionary has not been seen, and the counter it takes is the number of distinct tokens so far |
| ObjParser.WeldedSizes | js/utils.js:300-305 | one output vertex (and attribute, tangent, bitangent) per distinct token, one index per face token |
| ObjParser.WeldedVertexOfToken | js/utils.js:300-304 | each index is below the number of output vertices and selects the (a-1)th position, (b-1)th texture coordinate and (c-1)th normal of its token, with the tangents of the face where the token first appeared |
| ObjParser.WeldedSameIndexIffSameToken | js/utils.js:293-309 | two face tokens get the same index exactly when they are the same string |
| ObjParser.WeldedFirstAppearance | js/utils.js:259-309 | indices are handed out consecutively from 0 in order of first appearance |
| ObjParser.FirstTansAt | js/utils.js:288-304 | a welded vertex keeps the tangents of the first face it appeared in |
| ObjParser.DistinctNoDup | js/utils.js:293-309 | no two output vertices come from the same token |
| ObjParser.IndexOf | js/utils.js:293-309 | the first position of a token, and it is found exactly when the token is present |
| Physics.CheckCollisionSymmetric | js/PhysicsEngine.js:48-59 | the collision test gives the same answer with its two boxes swapped |
| Physics.CollisionIffSharedPoint | js/PhysicsEngine.js:52-56 | for finite ordered boxes the test holds exactly when the boxes share a point: the overlap's lowest corner lies in both when it holds, and any shared point makes it hold |
| Physics.TouchingBoxesCollide | js/PhysicsEngine.js:52-56 | boxes that only touch along a face count as colliding, since the comparisons include equality |
| Physics.EligibleOf | js/PhysicsEngine.js:23-38 | an object takes part in the comparisons exactly when its collision flag is truthy, it has a model and it has a box |
| Physics.OverlapOf | js/PhysicsEngine.js:28-43 | entry (m, n) is true exactly when m and n are distinct eligible objects whose boxes pass the collision test |
| Physics.OverlapOfMatrix | js/PhysicsEngine.js:20-43 | the overlap matrix built from the objects' flags is the one the comparisons of the scan consult |
| Physics.OverlapRowEmpty | js/PhysicsEngine.js:23-25 | an object skipped by the outer loop overlaps nothing |
| Physics.OverlapSymmetric | js/PhysicsEngine.js:40-43 | overlap is symmetric, so comparing (a, b) and (b, a) agree |
| Physics.MarkedStep | js/PhysicsEngine.js:40-43 | one comparison adds to the marked set exactly the two objects it finds overlapping |
| Physics.MarkedRow | js/PhysicsEngine.js:20-45 | finishing the inner loop of one object is the same as starting the next object's |
| Physics.Step | js/PhysicsEngine.js:30-43 | one inner iteration leaves every flag as it was, except that both objects become flagged when they are distinct and overlap |
| Physics.Row | js/PhysicsEngine.js:28-44 | the inner loop over the objects before `b` yields a sequence of one flag per object |
| Physics.AllFalse | js/PhysicsEngine.js:14-16 | every flag is false after the first loop |
| Physics.Scan | js/PhysicsEngine.js:20-45 | the outer loop up to object `a` yields one flag per object |
| Physics.RowSkips | js/PhysicsEngine.js:23-25 | the row of an object that overlaps nothing changes no flag, which is why the loop may skip it |
| Physics.RowMarked | js/PhysicsEngine.js:28-44 | after part of a row, each flag is exactly the marked predicate of the comparisons done so far |
| Physics.ScanMarked | js/PhysicsEngine.js:20-45 | after the rows before `a`, each flag is exactly the marked predicate of those rows |
| Physics.ScanComplete | js/PhysicsEngine.js:12-46 | after every row, an object is flagged exactly when it overlaps some other object |
| Physics.PartialScanSound | js/PhysicsEngine.js:20-45 | at any point of the scan, an object that is flagged is one the complete scan flags |
| Physics.ScanMeaning | js/PhysicsEngine.js:12-46 | after the scan, exactly the eligible objects whose box overlaps that of another eligible object are flagged |
| Physics.CollidesMeaning | js/PhysicsEngine.js:28-43 | an object overlaps another in the matrix exactly when it is eligible and collides with another eligible object |
| Physics.ScanMeansCollides | js/PhysicsEngine.js:12-46 | the flags the complete scan computes agree with each object's collides-with-another predicate |
| Physics.ClearFlags | js/PhysicsEngine.js:14-16 | sets every object's `isColliding` to false and changes no other field |
| Physics.CompareStep | js/PhysicsEngine.js:28-43 | one inner iteration throws exactly when the other object has collision on and no model, leaving the flags as they were; otherwise the flags become the `Step` of the old flags |
| Physics.CompareRow | js/PhysicsEngine.js:28-44 | the inner loop throws exactly when some object has collision on and no model; the throw comes at the first such object, with the flags of the comparisons before it (`Row` up to that position); otherwise the flags end as `Row` says |
| Physics.ScanRow | js/PhysicsEngine.js:20-45 | one outer iteration either advances the flags from `Scan(a)` to `Scan(a + 1)`, or throws: at `a` itself when it has collision on and no model, or, when `a` is eligible, at the first object with collision on and no model, with the flags of the scan up to that point |
| Physics.ScanRows | js/PhysicsEngine.js:20-45 | the outer loop throws exactly when some object has collision on and no model; then no object before the throwing row is eligible or faulty, and the flags are those of the scan up to the throw point; otherwise the flags end as the complete `Scan` |
| Physics.UpdateScene | js/PhysicsEngine.js:12-46 | throws exactly when some object has collision on and no model, and then every flag left set belongs to an object that collides with another; otherwise each object's `isColliding` ends up true exactly when it is eligible and its box overlaps that of another eligible object |
| RayCasting.Slab | js/GameEngine.js:556-565 | the two crossing parameters of one axis are returned in order, the smaller first |
| RayCasting.RayAABBIntersectMeaning | js/GameEngine.js:554-627 | the test hits exactly when the three slabs overlap and the entry is not behind the origin, and then it answers the entry parameter |
| RayCasting.Narrow | js/GameEngine.js:577-580 | the early-miss test fires exactly when the narrowed interval would be empty |
| RayCasting.SlabContains | js/GameEngine.js:556-575 | the ray is within one axis's slab at `t` exactly when its point at `t` lies between that axis's bounds |
| RayCasting.SlabsContain | js/GameEngine.js:554-619 | the ray is within all three slabs at `t` exactly when its point at `t` is in the box |
| RayCasting.HitIsFirstPointInBox | js/GameEngine.js:554-627 | a finite hit `t` is not negative, its point is in the box, and no point of the ray in the box comes earlier |
| RayCasting.MissMeansNoForwardPoint | js/GameEngine.js:621-626 | a miss means no forward point of the ray is in the box, unless the origin itself is |
| RayCasting.StartInsideMisses | js/GameEngine.js:621-626 | a ray that starts strictly inside a finite box misses it, whatever its direction |
| RayCasting.SlabBehind | js/GameEngine.js:556-565 | from strictly between an axis's planes, the smaller crossing is behind the origin |
| RayCasting.Closest | js/GameEngine.js:530-550 | the pick is `Number.MAX_VALUE` and no object when no result beats it; otherwise it is a hit below every other hit, strictly below every earlier hit |
| RayCasting.ClosestAppend | js/GameEngine.js:543-546 | one more result becomes the pick exactly when it is a hit below the current distance |
| Text.Split | js/utils.js:227-236 | splitting yields at least one piece and no piece holds the separator |
| Text.SplitJoin | js/utils.js:227-236 | joining the pieces with the separator gives back the string |
| Text.DigitRun | js/utils.js:272-274 | the digit run is a prefix of digits of the base followed by a non-digit of the base or the end |
| Text.ParseInt | js/utils.js:272-274 | `parseInt` is NaN exactly when no digit of the base follows the whitespace, the sign and an optional `0x` prefix that selects base 16; the result is not negative without a minus sign and not positive with one |
| Text.TrimStart | js/utils.js:272-274 | leading whitespace is removed and the rest is a suffix of the input |
| Text.NatToString | js/GameEngine.js:640 | a number's text is a non-empty run of digits |
| Text.NatToStringValue | js/GameEngine.js:640 | a number's digits have that number as their value |
| Text.ParseIntOfNatToString | js/GameEngine.js:640 | parsing a number's text gives back the number |
| Text.ParseIntOfDigits | js/utils.js:297 | a non-empty run of decimal digits parses to its value |
| Text.ParseIntHex | js/utils.js:272-274 | `0x` followed by hexadecimal digits parses them in base 16, and `0x` alone is NaN |
| Text.ParseIntSkipsSpace | js/utils.js:272-274 | whitespace in front never changes what `parseInt` reads |
| SceneLoading.MaterialOf | js/GameEngine.js:160-187 | a material entry keeps its id, takes the textures its references find in the pool (none where absent or not found), its scale when given, and the constructor defaults for every other setting |
| SceneLoading.ModelOf | js/GameEngine.js:196-233 | a model entry keeps its id, takes the mesh it references or else the scene's default mesh, the material it references or else none, and each of the eight settings when given, else its default |
| SceneLoading.ResolveModel | js/GameEngine.js:250-265 | a named model that is found is used, a named model that is missing or "none" gives no model, and an absent or empty name gives the default model |
| SceneLoading.ResolveBounds | js/GameEngine.js:267-279 | explicit bounds are used as given, "none" gives no box, and otherwise a box exists exactly when the model has a mesh, with that mesh's bounds |
| SceneLoading.InsertAllDomain | js/GameEngine.js:187 | storing entries adds exactly their ids to the pool and leaves every other id's asset as it was |
| SceneLoading.InsertAllLast | js/GameEngine.js:233 | when several entries share an id, the pool holds the last of them |
| SceneLoading.MaterialPairs | js/GameEngine.js:160-192 | the materials built from the entries, one per entry and in order, each with its entry's id |
| SceneLoading.ModelPairs | js/GameEngine.js:196-238 | the models built from the entries, one per entry and in order, each with its entry's id |
| SceneLoading.MaterialPairsAppend | js/GameEngine.js:160-192 | one more loop iteration appends one more material pair |
| SceneLoading.ModelPairsAppend | js/GameEngine.js:196-238 | one more loop iteration appends one more model pair |
| SceneLoading.MaterialReload | js/Material.js:15-34 | saving a material and loading it again keeps its id, textures and scale, but resets every other setting to its default because the loader does not read it |
| SceneLoading.ModelReload | js/Model.js:81-103 | saving a model that has a mesh and loading it again gives back the same model when the pools hold its mesh and material |
| SceneLoading.MeshlessModelReload | js/GameEngine.js:200-206 | a model saved without a mesh comes back with the scene's default mesh |
| GameEngines.DefaultMaterialUsable | js/GameEngine.js:303-353 | the default material has both textures and the default model's box mesh has 36 vertices |
| GameEngines.RandomId | js/GameEngine.js:640 | a random id is the text of a whole number below 100000 and reads back as that number |
| GameEngines.Stored | js/GameEngine.js:242-294 | the objects built for the entries, one per entry and in order, each with its entry's id |
| GameEngines.StoredAppend | js/GameEngine.js:289 | building one more object appends its pair |
| GameEngines.StoreLoaded | js/GameEngine.js:242-294 | storing the object built for the next entry extends the account of the loaded entries by one |
| GameEngines.WorldObjectsLastWins | js/GameEngine.js:242-294 | after the loop the last entry with a given id is stored under it, built as that entry says with the constructor's defaults elsewhere (at rest, airborne, not flying, initial front/right/up, no projection), and ids no entry names keep their old objects |
| GameEngines.InsertAllAppend | js/GameEngine.js:187 | storing one more pair is one more map update |
| GameEngines.Candidate | js/GameEngine.js:535-542 | an object without a box or with id "camera" is skipped; any other goes through the ray test with its world-space box |
| GameEngines.Candidates | js/GameEngine.js:532-547 | one ray test result per object, in visiting order |
| GameEngines.CandidatesAt | js/GameEngine.js:532-547 | the result at position `i` is the ray test of the object at position `i` |
| GameEngines.CameraNotSkipped | js/GameEngine.js:535 | the skip test compares against "camera" while the camera's id is "Camera", so the ray test runs on the camera, and a ray from inside its own box misses it |
| GameEngines.GameEngine.constructor | js/GameEngine.js:2-43 | a new engine has no scene, no controller and no ray result, zero counters, loading not done, and a fresh render engine without a scene |
| GameEngines.GameEngine.CreateDefaults | js/GameEngine.js:303-353 | the scene gets the default material, the 3x3x3 box mesh and a default model built from those two |
| GameEngines.GameEngine.LoadScene | js/GameEngine.js:51-87 | a fresh started scene is shared with the render engine; the counters are reset and the totals count the scene file's assets; a fresh controller possesses the camera |
| GameEngines.GameEngine.StartLoading | js/GameEngine.js:59-65 | nothing loaded yet, the atomic total is meshes plus textures and the composite total is models plus materials plus world objects |
| GameEngines.GameEngine.NewScene | js/GameEngine.js:52-80 | the new scene has its defaults and a camera stored under "camera", and the new controller possesses the camera |
| GameEngines.GameEngine.NewCamera | js/GameEngine.js:70-77 | the camera has id "Camera", a 45-degree perspective with the canvas's aspect ratio, near 0.1 and far 100, and an undrawn box from (-1, -2.5, -1) to (1, 2.5, 1) |
| GameEngines.GameEngine.Possess | js/Controller.js:91-101 | the new controller's child is the camera, which it leaves mobile |
| GameEngines.GameEngine.ReportAtomic | js/GameEngine.js:114-121 | each completion counts one atomic asset in; composite loading runs exactly when the count reaches the total, and then every composite asset is loaded and the load is done |
| GameEngines.GameEngine.MeshLoaded | js/GameEngine.js:95-122 | a parsed mesh is stored under its entry's id and counted in; a file the parser throws on changes nothing, so composite loading never starts |
| GameEngines.GameEngine.TextureLoaded | js/GameEngine.js:130-151 | the texture is stored under its entry's id and counted in; the last completion starts composite loading |
| GameEngines.GameEngine.LoadCompositeAssets | js/GameEngine.js:158-300 | materials, then models, then world objects (each with the constructor's defaults for the fields its entry cannot set) are built from the scene file and stored, the composite counter grows by their number and the load is done |
| GameEngines.GameEngine.LoadMaterials | js/GameEngine.js:160-192 | the material pool is the old pool with each entry's material stored under its id in order |
| GameEngines.GameEngine.StoreMaterial | js/GameEngine.js:161-187 | one loop turn stores the next entry's material |
| GameEngines.GameEngine.LoadModels | js/GameEngine.js:196-238 | the model pool is the old pool with each entry's model stored under its id in order |
| GameEngines.GameEngine.StoreModel | js/GameEngine.js:197-233 | one loop turn stores the next entry's model |
| GameEngines.GameEngine.BuildModel | js/GameEngine.js:197-231 | the loop body builds the model `ModelOf` describes |
| GameEngines.GameEngine.ApplyRenderSettings | js/GameEngine.js:224-227 | each of the four render settings given replaces the current one, and the rest of the model is unchanged |
| GameEngines.GameEngine.ApplyAnimation | js/GameEngine.js:228-231 | each of the four animation settings given replaces the current one, and the rest of the model is unchanged |
| GameEngines.GameEngine.LoadWorldObjects | js/GameEngine.js:242-294 | every entry's object is built as the entry says, with the constructor's defaults for the fields the entry cannot set (at rest, airborne, not flying, initial front/right/up, no projection), and stored under its id, in order |
| GameEngines.GameEngine.LoadNext | js/GameEngine.js:243-289 | one loop turn builds and stores a fresh object for the next entry, as the entry says and with the constructor's defaults elsewhere |
| GameEngines.GameEngine.LoadWorldObject | js/GameEngine.js:245-287 | a fresh object built as its entry says (model, box, position, rotation, scale, flags), with every other field as the constructor leaves it: at rest, airborne, not flying, not colliding, not selected, front (0, 0, -1), right (1, 0, 0), up (0, 1, 0), no projection |
| GameEngines.GameEngine.SetModelAndBox | js/GameEngine.js:250-279 | the object's model is the resolved model, and it has a box exactly when bounds resolve, with those bounds |
| GameEngines.GameEngine.ApplySettings | js/GameEngine.js:282-287 | position, rotation and scale replace the defaults when given; the three flags when they are not `undefined` |
| GameEngines.GameEngine.AddNewWorldObject | js/GameEngine.js:639-656 | a fresh object of type "model" with the default model and no box is stored under the random id, with the constructor's other defaults (zero velocity, `newRotation` equal to the rotation, airborne, not flying, not colliding, front (0, 0, -1), right (1, 0, 0), up (0, 1, 0), no scale, not selected, no projection); because of the extra argument its `isImmovable` is [1, 1, 1] and its rotation (0, 0, 0) |
| GameEngines.GameEngine.AddNewModel | js/GameEngine.js:661-673 | a model of the default mesh and material is stored under the random id and nothing else changes |
| GameEngines.GameEngine.AddNewMaterial | js/GameEngine.js:678-689 | a material without textures is stored under the random id, since the scene fields it reads are never set |
| GameEngines.GameEngine.CastRay | js/GameEngine.js:523-551 | the looked-at object and distance are the pick of the ray test results over the objects in key order |
| GameEngines.GameEngine.ClosestObject | js/GameEngine.js:530-547 | the loop returns the distance and object of the `Closest` pick of the results |
| GameEngines.GameEngine.ClosestStep | js/GameEngine.js:533-546 | one loop turn keeps the closest pick among the objects visited so far |
| GameEngines.GameEngine.TestObject | js/GameEngine.js:535-546 | an object becomes the closest exactly when its result is a hit below the current distance |
| Rendering.DiffuseFor | js/RenderEngine.js:515-517 | the material's own diffuse texture is bound when it is used and set, the default material's otherwise |
| Rendering.NormalFor | js/RenderEngine.js:526-528 | the material's own normal map is bound when it is used and set, the default material's otherwise |
| Rendering.MaterialFallback | js/RenderEngine.js:299-528 | a model without a material is drawn with the default material's textures, and a texture the material does not use never matters |
| Rendering.ModelOps | js/RenderEngine.js:308-356 | the model matrix is position, the three rotations and the object's scale factors, then the animated translation and rotation when each is switched on, in that order |
| Rendering.PlacementFirst | js/RenderEngine.js:308-338 | the placement steps of the matrix never depend on the animation settings |
| Rendering.ModelDrawOf | js/RenderEngine.js:294-547 | there is a draw exactly when the object has a scale (otherwise `mat4.scale` throws); it uses the object, the matrix steps of `ModelOps`, the requested normals and textures, the selection highlight, the shadow and lighting switches as 1 or 0, and every index of the mesh |
| Rendering.BoxDrawOf | js/RenderEngine.js:550-616 | a box is drawn red exactly when its object collides and blue exactly when it does not, at the object's position, with 24 line vertices |
| Rendering.BoxDrawsEdges | js/RenderEngine.js:550-616 | the 24 vertices drawn for a box with a current buffer are its 12 edges |
| Rendering.Drawn | js/RenderEngine.js:148-159 | the objects of a list of draws, in order |
| Rendering.ShadowPass | js/RenderEngine.js:148-159 | the shadow pass throws exactly when some shadow caster has no scale; each of its draws is a shadow caster's, drawn without normals or textures |
| Rendering.ShadowPassStays | js/RenderEngine.js:148-158 | once the shadow pass has thrown, the objects after that point change nothing |
| Rendering.ShadowPassDraws | js/RenderEngine.js:148-159 | every shadow caster is drawn when no caster without a scale comes before it or is it |
| Rendering.ShadowPassThrows | js/RenderEngine.js:148-158 | at the first shadow caster without a scale the pass throws, keeping exactly the draws of the objects before it |
| Rendering.ObjectDrawsFacts | js/RenderEngine.js:266-280 | one object throws exactly when it renders without a scale, and then draws nothing; otherwise its draws are its model exactly when it renders and its box exactly when the box is shown, and nothing else |
| Rendering.ScenePass | js/RenderEngine.js:266-280 | the main pass throws exactly when some rendered object has no scale |
| Rendering.ScenePassAppend | js/RenderEngine.js:266-280 | before any throw, visiting one more object appends its draws and takes on its throw |
| Rendering.ScenePassStays | js/RenderEngine.js:266-280 | once the main pass has thrown, the objects after that point change nothing |
| Rendering.ScenePassPrefix | js/RenderEngine.js:266-280 | the draws of the pass over the first objects are all among the draws over all of them |
| Rendering.ScenePassDraws | js/RenderEngine.js:266-280 | the main pass draws the model of every rendered object and the box of every object whose box is shown, when no rendered object without a scale comes before it or is it |
| Rendering.ScenePassThrows | js/RenderEngine.js:266-280 | at the first rendered object without a scale the main pass throws, keeping exactly the draws of the objects before it, and drawing neither the model nor the box of that object |
| Rendering.ScenePassOnly | js/RenderEngine.js:266-280 | every draw of the main pass is the model of a rendered object that has a scale, or the box of an object whose box is shown |
| Rendering.RenderEngine.constructor | js/RenderEngine.js:2-47 | a new render engine has no scene and no light-space matrices yet |
| Rendering.RenderEngine.DrawShadowmap | js/RenderEngine.js:63-159 | without a scene nothing is drawn; otherwise the light-space projection and view are built and kept, and the draws and the throw are those of the shadow pass |
| Rendering.RenderEngine.DrawCasters | js/RenderEngine.js:148-158 | the loop, which a throw ends, yields the shadow pass over the objects in key order |
| Rendering.RenderEngine.DrawCaster | js/RenderEngine.js:149-157 | one loop turn draws the next object when it casts shadows, or throws at it |
| Rendering.RenderEngine.DrawScene | js/RenderEngine.js:167-281 | without a scene nothing is drawn; otherwise the uniforms come from the camera, the light and the kept light-space matrices, and the draws and the throw are those of the main pass |
| Rendering.RenderEngine.DrawObjects | js/RenderEngine.js:266-280 | the loop, which a throw ends, yields the main pass over the objects in key order |
| Rendering.RenderEngine.DrawNext | js/RenderEngine.js:266-280 | one loop turn appends the draws of the next object, or throws at it |
| Rendering.RenderEngine.DrawObject | js/RenderEngine.js:267-279 | one iteration draws the model when it renders, then the box when it is shown; a rendered object without a scale throws before either |
| Rendering.RenderEngine.Render | js/RenderEngine.js:50-55 | without a scene nothing is drawn and `render` throws reading the scene's camera, so there is no frame; otherwise the shadow draws are the shadow pass; when it throws the main pass never runs; otherwise the main pass uses the light view towards the origin and the shadow projection, and its draws are the main pass over the objects in key order |

## Left out

- GPU and WebGL state:
  - `Mesh.setBuffers`, `Texture.setBuffer` and its sampling calls are not modelled. Only the mipmap-or-clamp choice is kept (`Textures.SamplingOf`).
  - `AABB.createRenderBuffer` is modelled only as the wireframe vertex data it uploads.
  - `RenderEngine.initDepthmap`, `RenderEngine.setScene` and `js/Shader.js` are not modelled. `js/RenderEngine.js:685-716` refers to fields that no longer exist.
  - The GLSL of `js/shaderSources.js` is floating-point shading on the GPU.
  - A draw is modelled as a record of what would be sent to the GPU, not as the calls themselves.
- Library math:
  - The glMatrix matrix operations (`perspective`, `lookAt`, `rotate`, `invert`), `WorldObject.updateSpaceVectors` and the camera's matrix getters are numeric library code. They appear only as symbolic values (`Op`, `View`, `Projection`).
  - The per-face tangent computation and `parseFloat` are function parameters of the parser.
  - The sine and cosine of the animation clock are fields of `Clock`.
- Floating point:
  - NaN, `-0` and rounding are not modelled. Numbers are exact reals.
  - `RayCasting.RayAABBIntersect` requires that no division is 0/0, which would give NaN. A division by a zero direction component gives a signed infinity, as in JavaScript.
  - `Number.MAX_VALUE` is the exact real value of the largest double. A hit at an infinite parameter is kept as such, and `castRay` never picks it.
  - A vertex coordinate that is not a number (`NaN` or `undefined`) fails every comparison, as in the source. The model represents both by one `NaN` value.
  - `GameEngines.GameEngine.CastRay` requires that the ray test is defined (no 0/0) for every object it visits.
- I/O:
  - The XHR loads of the scene file and OBJ files, `Image` decoding and `ImageData` are not modelled. The file text and the image size are parameters of the completion methods.
  - The `verbose` console output, the log messages for missing references and `loadingCallback` are not modelled.
  - `Math.random` is a parameter of the `addNew*` methods.
- Callbacks:
  - The source never cancels a callback from an earlier `loadScene`, so a late completion would count towards the new load. The model assumes completions belong to the current load.
  - `GameEngines.GameEngine.MeshLoaded` and `TextureLoaded` do not check that each entry completes only once. The source does not check this either.
  - With no atomic assets at all, no completion ever happens, so composite loading never starts. The model shows this only by the precondition that a completion has something left to count.
- Physics:
  - `js/PhysicsEngine.js` reads `model.modelSpaceAABB` and calls `getWorldSpaceAABB()`. Neither exists on the classes shown. The model supplies the world box of each object as a map `boxes` from key to bounds.
  - An object with collision on and a model, but with no entry in `boxes`, is skipped. This is how the model reads the `modelSpaceAABB` test.
  - The `physicsEngine.update` call in the game loop refers to a method the file does not define. `setScene` and the engine's `scene` field are not modelled; the scan takes the objects directly.
  - The scan visits objects in the enumeration order of `worldObjects`. Its final flags do not depend on that order.
  - `Physics.UpdateScene`: on a throw it states only that every flag left set is a true collision. The exact flags at the throw point are stated by `Physics.ScanRows`, in terms of the scan's position.
- Loading and scene:
  - `SceneFile.Lookup`, `SceneLoading.ResolveModel`, `SceneLoading.MaterialOf`, `SceneLoading.ModelOf` and `Frontend.Follow`: the asset pools and the objects walked are plain JavaScript objects. So `pool[ref]` and `obj[key]` also find inherited names such as `constructor` or `toString`, and storing under `"__proto__"` replaces a pool's prototype. The model treats them as maps of their own keys, so an inherited name is an absent key.
  - `SceneFile.KeyOf`: a reference that is JSON `null` is modelled as absent, so it is looked up under the key `"undefined"`. The source looks it up under `"null"`. The two differ only when a pool holds an asset whose id is `"null"` or `"undefined"`.
  - Apart from reference keys, `null` and an absent field are one value (`None`). The source's tests on those fields (truthiness, `!= null`) treat them alike.
  - The `AABB` field of a world-object entry is modelled as absent, `"none"` or explicit bounds. Other truthy values are not modelled.
  - `GameEngines.GameEngine.LoadScene` does not model the input-handling set-up, the mouse state or the key tracker.
  - `physicsEngine.scene` is not modelled, since the scan takes the objects as a parameter.
  - `GameEngines.GameEngine.CastRay` does not model the initial `lookingAtObj = null` write. The field is overwritten before anything reads it.
  - `GameEngines.GameEngine.CastRay`: ties and the pick follow the key order given by the parameter, not any particular engine's order.
- Parser:
  - `ObjParser.WeldToken`: the source tests a token with `in` on a plain object, which also finds inherited names such as `constructor`. The model treats the dictionary as a plain map, so such a token is welded like any other.
- Rendering:
  - `Rendering.RenderEngine.DrawScene` and `Render` require a loaded scene's defaults to exist and its camera to have a projection. The source throws on a scene without them. A missing scene is modelled: `Render` then draws nothing and has no frame, as the source throws reading `this.scene.camera`.
- Not part of the model: the DOM, the UI and input listeners, `js/main.js`, all of `js/frontend.js` except `objectPathToObject`, `startGameLoop` and the legacy root-level copies and demos.
