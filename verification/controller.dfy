/**
 * `js/Controller.js`: the controller possesses one world object and turns
 * input into changes of its velocity, pending rotation and airborne flag.
 */
module Controllers {
  import opened Numbers
  import opened JsValues
  import opened WorldObjects

  /** `v + dir * change` on x and z, and on y only when flying. */
  function Impulse(v: Vec3, dir: Vec3, change: real, flying: bool): (r: Vec3)
    ensures r.x - v.x == dir.x * change && r.z - v.z == dir.z * change
    ensures r.y - v.y == (if flying then dir.y * change else 0.0)
  {
    Vec3(v.x + dir.x * change, if flying then v.y + dir.y * change else v.y, v.z + dir.z * change)
  }

  /** `v - dir * change`, the subtracting form of the backward and left moves. */
  function Recoil(v: Vec3, dir: Vec3, change: real, flying: bool): (r: Vec3)
    ensures r.x - v.x == -(dir.x * change) && r.z - v.z == -(dir.z * change)
    ensures r.y - v.y == (if flying then -(dir.y * change) else 0.0)
  {
    Vec3(v.x - dir.x * change, if flying then v.y - dir.y * change else v.y, v.z - dir.z * change)
  }

  /** Moving back cancels moving forward (and left cancels right) for the same direction and time step. */
  lemma RecoilCancelsImpulse(v: Vec3, dir: Vec3, change: real, flying: bool)
    ensures Recoil(Impulse(v, dir, change, flying), dir, change, flying) == v
    ensures Impulse(Recoil(v, dir, change, flying), dir, change, flying) == v
  {
  }

  /** The part of an object's state a jump reads and writes. */
  datatype JumpState = JumpState(velocity: Vec3, airborne: bool, flying: bool)

  /** A jump: only from the ground and when not flying; it lifts off and adds `boost` to vertical velocity. */
  function Jumped(s: JumpState, boost: real): (r: JumpState)
    ensures r.flying == s.flying && r.velocity.x == s.velocity.x && r.velocity.z == s.velocity.z
    ensures !s.airborne && !s.flying ==> r.airborne && r.velocity.y == s.velocity.y + boost
    ensures s.airborne || s.flying ==> r == s
  {
    if !s.airborne && !s.flying then
      JumpState(Vec3(s.velocity.x, s.velocity.y + boost, s.velocity.z), true, s.flying)
    else s
  }

  /** A second jump before landing changes nothing. */
  lemma JumpTwice(s: JumpState, a: real, b: real)
    ensures Jumped(Jumped(s, a), b) == Jumped(s, a)
  {
  }

  /** The pending rotation after a turn: yaw grows by `xChange`, pitch drops by `yChange` and is raised to -89 if lower. */
  function Turned(r: Vec3, xChange: real, yChange: real): (t: Vec3)
    ensures t.y == r.y + xChange && t.z == r.z
    ensures t.x >= -89.0
    ensures r.x - yChange >= -89.0 ==> t.x == r.x - yChange
  {
    var pitch := r.x - yChange;
    Vec3(if pitch < -89.0 then -89.0 else pitch, r.y + xChange, r.z)
  }

  /** There is no upper clamp: looking far enough down-mouse tilts the pitch beyond 89. */
  lemma TurnHasNoUpperClamp()
    ensures Turned(Vec3(0.0, 0.0, 0.0), 0.0, -100.0).x == 100.0
  {
  }

  class Controller {
    var child: WorldObject?
    /** The possessed object's immovability before possession; `undefined` at first. */
    var childImmovability: Value

    const movementSpeed: real := 10.0
    const turnSpeed: real := 6.0
    const jumpHeight: real := 30.0

    /**
     * `new Controller()`: no child. The constructor initialises a misspelt
     * `childMovability`, so the saved immovability starts `undefined`.
     */
    constructor ()
      ensures child == null && childImmovability == Undefined
    {
      child := null;
      childImmovability := Undefined;
    }

    /** The possessed object is mobile. */
    ghost predicate Possessing()
      reads this, child
    {
      child != null ==> child.isImmovable == JBool(false)
    }

    method MoveForward(deltaTime: real)
      requires child != null
      modifies child`velocity
      ensures child.velocity == Impulse(old(child.velocity), child.front, movementSpeed * deltaTime, child.flying)
    {
      var change := movementSpeed * deltaTime;
      var v := child.velocity;
      var vx := v.x + child.front.x * change;
      var vz := v.z + child.front.z * change;
      var vy := v.y;
      if child.flying {
        vy := v.y + child.front.y * change;
      }
      child.velocity := Vec3(vx, vy, vz);
    }

    method MoveBackward(deltaTime: real)
      requires child != null
      modifies child`velocity
      ensures child.velocity == Recoil(old(child.velocity), child.front, movementSpeed * deltaTime, child.flying)
    {
      var change := movementSpeed * deltaTime;
      var v := child.velocity;
      var vx := v.x - child.front.x * change;
      var vz := v.z - child.front.z * change;
      var vy := v.y;
      if child.flying {
        vy := v.y - child.front.y * change;
      }
      child.velocity := Vec3(vx, vy, vz);
    }

    method MoveRight(deltaTime: real)
      requires child != null
      modifies child`velocity
      ensures child.velocity == Impulse(old(child.velocity), child.right, movementSpeed * deltaTime, child.flying)
    {
      var change := movementSpeed * deltaTime;
      var v := child.velocity;
      var vx := v.x + child.right.x * change;
      var vz := v.z + child.right.z * change;
      var vy := v.y;
      if child.flying {
        vy := v.y + child.right.y * change;
      }
      child.velocity := Vec3(vx, vy, vz);
    }

    method MoveLeft(deltaTime: real)
      requires child != null
      modifies child`velocity
      ensures child.velocity == Recoil(old(child.velocity), child.right, movementSpeed * deltaTime, child.flying)
    {
      var change := movementSpeed * deltaTime;
      var v := child.velocity;
      var vx := v.x - child.right.x * change;
      var vz := v.z - child.right.z * change;
      var vy := v.y;
      if child.flying {
        vy := v.y - child.right.y * change;
      }
      child.velocity := Vec3(vx, vy, vz);
    }

    method Jump(deltaTime: real)
      requires child != null
      modifies child`velocity, child`airborne
      ensures JumpState(child.velocity, child.airborne, child.flying)
              == Jumped(JumpState(old(child.velocity), old(child.airborne), child.flying), jumpHeight * deltaTime)
    {
      if !child.airborne && !child.flying {
        child.airborne := true;
        var v := child.velocity;
        child.velocity := Vec3(v.x, v.y + jumpHeight * deltaTime, v.z);
      }
    }

    /** `turn(mouseChange, deltaTime)`: steers the pending rotation; the current rotation is not touched. */
    method Turn(mouseX: real, mouseY: real, deltaTime: real)
      requires child != null
      modifies child`newRotation
      ensures child.newRotation == Turned(old(child.newRotation), mouseX * turnSpeed * deltaTime, mouseY * turnSpeed * deltaTime)
    {
      var xChange := mouseX * turnSpeed * deltaTime;
      var yChange := mouseY * turnSpeed * deltaTime;
      var r := child.newRotation;
      r := Vec3(r.x - yChange, r.y + xChange, r.z);
      if r.x < -89.0 {
        r := Vec3(-89.0, r.y, r.z);
      }
      child.newRotation := r;
    }

    /**
     * `parent(c)`: gives the previous child back its saved immovability,
     * saves `c`'s, possesses `c` and makes it mobile. Possessing the same
     * object again keeps the value saved the first time.
     */
    method Parent(c: WorldObject)
      modifies this, c`isImmovable, (if child == null then {} else {child})`isImmovable
      ensures child == c && c.isImmovable == JBool(false) && Possessing()
      ensures childImmovability == if old(child) == c then old(childImmovability) else old(c.isImmovable)
      ensures old(child) != null && old(child) != c ==> old(child).isImmovable == old(childImmovability)
    {
      if child != null {
        child.isImmovable := childImmovability;
      }
      childImmovability := c.isImmovable;
      child := c;
      child.isImmovable := JBool(false);
    }
  }
}
