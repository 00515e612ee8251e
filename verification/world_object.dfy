/**
 * `js/WorldObject.js` and `js/Camera.js`: an object placed in the world, with
 * its motion state, collision settings, model and bounding box. A camera is
 * a world object built by the `Camera` constructor, which adds the
 * projection settings.
 */
module WorldObjects {
  import opened Wrappers
  import opened Numbers
  import opened JsValues
  import opened Utils
  import opened Models
  import opened BoundingBoxes

  /** The projection settings only a camera has; `projectionType` is always "perspective". */
  datatype Projection = Perspective(fieldOfView: real, aspect: real, zNear: real, zFar: real)

  class WorldObject {
    const id: string
    /** The `type` field. */
    const kind: string

    var position: Vec3
    var velocity: Vec3
    var rotation: Vec3
    /** The rotation the controller steers; applied elsewhere. */
    var newRotation: Vec3
    var isColliding: bool
    var airborne: bool
    var flying: bool

    var front: Vec3
    var right: Vec3
    var up: Vec3

    /** These hold whatever value was passed or loaded (`addNewWorldObject` puts an array in `isImmovable`). */
    var hasCollision: Value
    var hasGravity: Value
    var isImmovable: Value

    var model: Option<Model>
    var aabb: AABB?
    /** Not set by the constructor: `undefined` until a scene file gives one. */
    var scale: Option<Vec3>
    /** Set by the editor to highlight the object; `undefined` (falsy) at first. */
    var selected: bool
    var projection: Option<Projection>

    /**
     * `new WorldObject(id, type, position, rotation, isImmovable, hasCollision, hasGravity)`
     * with the source's defaults. The space vectors are those
     * `updateSpaceVectors` derives from the initial front (0, 0, -1).
     */
    constructor (id: string, kind: string,
                 position: Vec3 := Vec3(0.0, 0.0, 0.0),
                 rotation: Vec3 := Vec3(0.0, -90.0, 0.0),
                 isImmovable: Value := JBool(true),
                 hasCollision: Value := JBool(true),
                 hasGravity: Value := JBool(true))
      ensures this.id == id && this.kind == kind
      ensures this.position == position && this.rotation == rotation && newRotation == rotation
      ensures velocity == Vec3(0.0, 0.0, 0.0)
      ensures !isColliding && airborne && !flying
      ensures front == Vec3(0.0, 0.0, -1.0) && right == Vec3(1.0, 0.0, 0.0) && up == Vec3(0.0, 1.0, 0.0)
      ensures this.isImmovable == isImmovable && this.hasCollision == hasCollision && this.hasGravity == hasGravity
      ensures model.None? && aabb == null && scale.None? && !selected && projection.None?
    {
      this.id := id;
      this.kind := kind;
      this.position := position;
      velocity := Vec3(0.0, 0.0, 0.0);
      this.rotation := rotation;
      newRotation := rotation;
      isColliding := false;
      airborne := true;
      flying := false;
      front := Vec3(0.0, 0.0, -1.0);
      right := Vec3(1.0, 0.0, 0.0);
      up := Vec3(0.0, 1.0, 0.0);
      this.hasCollision := hasCollision;
      this.hasGravity := hasGravity;
      this.isImmovable := isImmovable;
      model := None;
      aabb := null;
      scale := None;
      selected := false;
      projection := None;
    }

    /**
     * `new Camera(position, fieldOfView, aspect, zNear, zFar)`: id "Camera",
     * type "camera", mobile, and always at (0, 0, 10) since the `position`
     * argument is overwritten in the call to the world-object constructor.
     */
    constructor Camera(position: Vec3, fieldOfView: real, aspect: real, zNear: real, zFar: real)
      ensures id == "Camera" && kind == "camera"
      ensures this.position == Vec3(0.0, 0.0, 10.0)
      ensures rotation == Vec3(0.0, -90.0, 0.0) && newRotation == rotation
      ensures velocity == Vec3(0.0, 0.0, 0.0) && !isColliding && airborne && !flying
      ensures front == Vec3(0.0, 0.0, -1.0) && right == Vec3(1.0, 0.0, 0.0) && up == Vec3(0.0, 1.0, 0.0)
      ensures isImmovable == JBool(false) && hasCollision == JBool(true) && hasGravity == JBool(true)
      ensures model.None? && aabb == null && scale.None? && !selected
      ensures projection == Some(Perspective(fieldOfView, aspect, zNear, zFar))
    {
      id := "Camera";
      kind := "camera";
      this.position := Vec3(0.0, 0.0, 10.0);
      velocity := Vec3(0.0, 0.0, 0.0);
      rotation := Vec3(0.0, -90.0, 0.0);
      newRotation := Vec3(0.0, -90.0, 0.0);
      isColliding := false;
      airborne := true;
      flying := false;
      front := Vec3(0.0, 0.0, -1.0);
      right := Vec3(1.0, 0.0, 0.0);
      up := Vec3(0.0, 1.0, 0.0);
      hasCollision := JBool(true);
      hasGravity := JBool(true);
      isImmovable := JBool(false);
      model := None;
      aabb := null;
      scale := None;
      selected := false;
      projection := Some(Perspective(fieldOfView, aspect, zNear, zFar));
    }

    /**
     * `getWorldSpaceAABBBounds()`: `undefined` without a box; otherwise the
     * box's bounds moved by the position (rotation and scale are ignored).
     */
    function GetWorldSpaceAABBBounds(): (r: Option<Bounds>)
      reads this, aabb
      ensures r.None? <==> aabb == null
      ensures r.Some? ==> r.value == Translate(aabb.bounds, position)
    {
      if aabb == null then None else Some(Translate(aabb.bounds, position))
    }
  }

  /** Bounds moved by an offset: each bound plus the matching component. */
  function Translate(b: Bounds, p: Vec3): (r: Bounds)
    ensures Minus(r.minX, p.x) == b.minX && Minus(r.maxX, p.x) == b.maxX
    ensures Minus(r.minY, p.y) == b.minY && Minus(r.maxY, p.y) == b.maxY
    ensures Minus(r.minZ, p.z) == b.minZ && Minus(r.maxZ, p.z) == b.maxZ
  {
    Bounds(Plus(b.minX, p.x), Plus(b.maxX, p.x), Plus(b.minY, p.y), Plus(b.maxY, p.y),
           Plus(b.minZ, p.z), Plus(b.maxZ, p.z))
  }

  /** min <= max on every axis. */
  predicate Ordered(b: Bounds) {
    Le(b.minX, b.maxX) && Le(b.minY, b.maxY) && Le(b.minZ, b.maxZ)
  }

  /** Moving a box keeps its extent on every axis, so a box with min <= max stays one. */
  lemma TranslateKeepsShape(b: Bounds, p: Vec3)
    ensures Ordered(Translate(b, p)) <==> Ordered(b)
    ensures b.minX.Fin? && b.maxX.Fin? ==> Translate(b, p).maxX.v - Translate(b, p).minX.v == b.maxX.v - b.minX.v
    ensures b.minY.Fin? && b.maxY.Fin? ==> Translate(b, p).maxY.v - Translate(b, p).minY.v == b.maxY.v - b.minY.v
    ensures b.minZ.Fin? && b.maxZ.Fin? ==> Translate(b, p).maxZ.v - Translate(b, p).minZ.v == b.maxZ.v - b.minZ.v
  {
    PlusMonotone(b.minX, b.maxX, p.x);
    PlusMonotone(b.minY, b.maxY, p.y);
    PlusMonotone(b.minZ, b.maxZ, p.z);
  }

  /** Translating back by the negated offset recovers the local bounds. */
  lemma TranslateInverse(b: Bounds, p: Vec3)
    ensures Translate(Translate(b, p), Vec3(-p.x, -p.y, -p.z)) == b
  {
  }
}
