/**
 * `js/AABB.js`: an axis-aligned bounding box keeps its bounds, a flag saying
 * whether its wireframe is drawn, and the wireframe vertex data it last
 * uploaded.
 */
module BoundingBoxes {
  import opened Numbers
  import opened Utils

  class AABB {
    var bounds: Bounds
    var render: bool
    /** The line-list vertex data in the GPU buffer. */
    var renderBuffer: seq<Ext>

    /** The uploaded wireframe is the one of the current bounds. */
    ghost predicate Valid()
      reads this
    {
      renderBuffer == GetAABBVertsFromBounds(bounds)
    }

    /** `new AABB(gl, minX, maxX, minY, maxY, minZ, maxZ)`, each bound defaulting to -1 or 1. */
    constructor (minX: Ext := Fin(-1.0), maxX: Ext := Fin(1.0),
                 minY: Ext := Fin(-1.0), maxY: Ext := Fin(1.0),
                 minZ: Ext := Fin(-1.0), maxZ: Ext := Fin(1.0))
      ensures bounds == Bounds(minX, maxX, minY, maxY, minZ, maxZ)
      ensures !render
      ensures Valid()
    {
      bounds := Bounds(minX, maxX, minY, maxY, minZ, maxZ);
      render := false;
      renderBuffer := GetAABBVertsFromBounds(Bounds(minX, maxX, minY, maxY, minZ, maxZ));
    }

    /**
     * `setBounds(b)`: stores `b` as given (no copy, no check that min <= max)
     * and regenerates the wireframe from it.
     */
    method SetBounds(b: Bounds)
      modifies this
      ensures bounds == b && render == old(render)
      ensures Valid()
      ensures ToJSON() == b
    {
      bounds := b;
      renderBuffer := GetAABBVertsFromBounds(b);
    }

    /** `toJSON()`: the bounds themselves. */
    function ToJSON(): Bounds
      reads this
    {
      bounds
    }
  }
}
