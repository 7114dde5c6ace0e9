/** `src/physics.rs`: velocity integration and the collider settings the
    game's entities are built with. Collision detection itself is the
    physics engine's and is not part of this model. */
module Physics {
  import opened Vectors

  datatype Vec3 = Vec3(x: real, y: real, z: real)

  /** A velocity in units per second. `Velocity::new(v)` is `Velocity(v)`. */
  datatype Velocity = Velocity(inner: Vec2)

  const DefaultVelocity: Velocity := Velocity(Zero)

  /** The translation moved by `v` for `dt` seconds, in the plane only. */
  function Move(t: Vec3, v: Velocity, dt: real): (r: Vec3)
    ensures r.z == t.z
    ensures v.inner == Zero ==> r == t
    ensures dt == 0.0 ==> r == t
    ensures Sub(Vec2(r.x, r.y), Vec2(t.x, t.y)) == Scale(v.inner, dt)
  {
    Vec3(t.x + v.inner.x * dt, t.y + v.inner.y * dt, t.z)
  }

  /** Moving for `a` seconds and then for `b` seconds is moving for `a + b`
      seconds: the integration does not depend on how time is sliced. */
  lemma MoveAdds(t: Vec3, v: Velocity, a: real, b: real)
    ensures Move(Move(t, v, a), v, b) == Move(t, v, a + b)
  {
    assert v.inner.x * a + v.inner.x * b == v.inner.x * (a + b);
    assert v.inner.y * a + v.inner.y * b == v.inner.y * (a + b);
  }

  /** An entity the movement system moves. */
  datatype Body = Body(velocity: Velocity, translation: Vec3)

  /** `update_movement`: every body moves by its own velocity; no bounds are
      applied, and velocities are left alone. */
  function UpdateMovement(bodies: seq<Body>, dt: real): (r: seq<Body>)
    ensures |r| == |bodies|
    ensures forall i :: 0 <= i < |r| ==>
      r[i].velocity == bodies[i].velocity &&
      r[i].translation == Move(bodies[i].translation, bodies[i].velocity, dt)
  {
    seq(|bodies|, i requires 0 <= i < |bodies| =>
      Body(bodies[i].velocity, Move(bodies[i].translation, bodies[i].velocity, dt)))
  }

  /** Collision groups as bit masks, one bit per group. */
  type Group = bv32

  const GROUP_1: Group := 1
  const GROUP_2: Group := 2
  const GROUP_3: Group := 4
  const ALL_GROUPS: Group := 0xFFFF_FFFF
  const NO_GROUPS: Group := 0

  const CATBOX: Group := GROUP_1
  const DOG: Group := GROUP_2
  const CAT: Group := GROUP_3

  datatype Shape = Ball(radius: real) | Cuboid(halfX: real, halfY: real)

  /** A sensor collider: it reports collisions (also between two static
      bodies) but never pushes anything. */
  datatype ColliderBundle = ColliderBundle(
    shape: Shape,
    memberships: Group,
    filters: Group,
    sensor: bool,
    collisionEvents: bool,
    staticStatic: bool)

  predicate IsEventSensor(c: ColliderBundle) {
    c.sensor && c.collisionEvents && c.staticStatic
  }

  /** `ColliderBundle::circle`. */
  function Circle(radius: real, memberships: Group, filters: Group): (r: ColliderBundle)
    ensures r.shape == Ball(radius)
    ensures r.memberships == memberships && r.filters == filters
    ensures IsEventSensor(r)
  {
    ColliderBundle(Ball(radius), memberships, filters, true, true, true)
  }

  /** `ColliderBundle::rect`: a box of the given size, stored as half
      extents. */
  function Rect(size: Vec2, memberships: Group, filters: Group): (r: ColliderBundle)
    ensures r.shape.Cuboid?
    ensures r.shape.halfX + r.shape.halfX == size.x && r.shape.halfY + r.shape.halfY == size.y
    ensures r.memberships == memberships && r.filters == filters
    ensures IsEventSensor(r)
  {
    var half := Scale(size, 0.5);
    ColliderBundle(Cuboid(half.x, half.y), memberships, filters, true, true, true)
  }

  /** The three game groups are distinct single groups, and a cat's
      collider (member of CAT, listening to DOG and CATBOX) hears both the
      dog and the pen but not other cats. */
  lemma CatColliderGroups()
    ensures CATBOX & DOG == 0 && DOG & CAT == 0 && CATBOX & CAT == 0
    ensures var c := Rect(Vec2(30.0, 30.0), CAT, DOG | CATBOX);
            c.filters & DOG != 0 && c.filters & CATBOX != 0 && c.filters & CAT == 0
  {
  }
}
