/** The shared collision routine for two circles, the physics constants, and the physics
    routines whose code is not part of this model (they are parameters, see Callees). */
module PhysicsCommon {
  import opened Numerics
  import opened Vector
  import opened Types
  import opened PhysicsExtensions

  /** Elasticity applied to velocity on collisions. */
  const ELASTICITY: real := 2.0
  /** Friction applied to velocity. */
  const FRICTION_CONSTANT: real := 0.8

  /** A circle collider. */
  datatype Circle = Circle(position: Vec, velocity: Vec, radius: real, weight: real)

  /** The part of an entity a movement routine changes. */
  datatype Body = Body(position: Vec, velocity: Vec)

  /** What a collision routine does to its two colliders, and the two damage values it
      returns. */
  datatype Resolution = Resolution(first: Body, second: Body, firstDamage: real,
                                   secondDamage: real)

  /** Physics routines that this model calls but does not define. Each is a parameter of
      the members that use it, and nothing is assumed about it.
      - moveWithAcceleration(body, acceleration, maxSpeed, elapsedTime)
      - applyFriction(body, elapsedTime)
      - circleWithLimits(circle, sizeX, sizeY, elapsedTime): the room-wall collision
      - circlesCollision(c1, c2, elapsedTime): the damage-returning circle collision
      - rawCirclesCollision(body1, radius1, weight1, body2, radius2, weight2, elapsedTime)
      - circleRectangleCollision(circle, rectangle, elapsedTime)
      - weaponLimits / weaponFriction(player, room, elapsedTime): the weapon limit and
        friction passes the orchestrator calls. */
  datatype Callees = Callees(
    moveWithAcceleration: (Body, Vec, real, real) -> Body,
    applyFriction: (Body, real) -> Body,
    circleWithLimits: (Circle, real, real, real) -> Body,
    circlesCollision: (Circle, Circle, real) -> Resolution,
    rawCirclesCollision: (Body, real, real, Body, real, real, real) -> Resolution,
    circleRectangleCollision: (Circle, AdaptedRect, real) -> Resolution,
    weaponLimits: (Player, RoomConfig, real) -> Player,
    weaponFriction: (Player, RoomConfig, real) -> Player)

  function WithBody(c: Circle, b: Body): Circle {
    c.(position := b.position, velocity := b.velocity)
  }

  /** A player's body seen as a circle collider. */
  function PlayerCircle(p: Player): Circle {
    Circle(p.position, p.velocity, p.radius, p.weight)
  }

  /** The player after a routine moved its body: only position and velocity change. */
  function PlayerWithBody(p: Player, b: Body): (r: Player)
    ensures r.position == b.position && r.velocity == b.velocity
    ensures r == p.(position := r.position, velocity := r.velocity)
  {
    p.(position := b.position, velocity := b.velocity)
  }

  /** A flail head seen as a circle collider. */
  function FlailCircle(w: Weapon): Circle
    requires w.Flail?
  {
    Circle(w.position, w.velocity, w.radius, w.weight)
  }

  /** The flail after a routine moved its head: only position and velocity change. */
  function FlailWithBody(w: Weapon, b: Body): (r: Weapon)
    requires w.Flail?
    ensures r.Flail? && r.position == b.position && r.velocity == b.velocity
    ensures r == w.(position := r.position, velocity := r.velocity)
  {
    w.(position := b.position, velocity := b.velocity)
  }

  /** What the collision phase of a tick works on: the room's player records, the
      handled-pairs set, the damage events reported so far, and the (player, other) id
      pairs for which the player-player collision routine has run, in the order it ran. */
  datatype PassState = PassState(
    players: map<string, Player>,
    handled: set<string>,
    damages: seq<Damage>,
    collided: seq<(string, string)>)

  /** The same keys, and every record keeps its id. */
  ghost predicate SameIds(a: map<string, Player>, b: map<string, Player>) {
    && a.Keys == b.Keys
    && forall k :: k in a ==> b[k].id == a[k].id
  }

  lemma SameIdsTransitive(a: map<string, Player>, b: map<string, Player>,
                          c: map<string, Player>)
    requires SameIds(a, b) && SameIds(b, c)
    ensures SameIds(a, c)
  {
  }

  /** The amount of a weapon's damage event: the collision's damage times the weapon's
      damage multiplier, per second. */
  function ScaledDamage(damage: real, multiplier: real, dt: real): real
    requires 0.0 < dt
  {
    damage * multiplier / dt
  }

  /** The entry of the handled-pairs set for a player and another one. */
  function PairKey(a: string, b: string): string {
    a + "__" + b
  }

  /** The vector from the first centre to the second, in the plane. */
  function Separation(c1: Circle, c2: Circle): Vec {
    Xy(c2.position.x - c1.position.x, c2.position.y - c1.position.y)
  }

  /** handleCirclesCollision: when the circles touch or overlap, each is pushed along the
      separation by twice the overlap (clamped to the distance), in opposite directions,
      and each velocity gets its push scaled by ELASTICITY and the other circle's share of
      the total weight. Both colliders are updated in the source; both are returned here.
      A total weight of zero divides by zero in the source and is excluded. */
  function CirclesCollision(m: Math, c1: Circle, c2: Circle): (r: (Circle, Circle))
    requires c1.weight + c2.weight != 0.0
    ensures r.0.radius == c1.radius && r.0.weight == c1.weight
    ensures r.1.radius == c2.radius && r.1.weight == c2.weight
  {
    var distance := Magnitude(m, Separation(c1, c2));
    var minDistance := c1.radius + c2.radius;
    if distance > minDistance then (c1, c2)
    else Correct(c1, c2, Push(m, c1, c2))
  }

  /** The push applied to the second circle when they collide: the separation clamped to
      the overlap, doubled. */
  function Push(m: Math, c1: Circle, c2: Circle): Vec
    requires Magnitude(m, Separation(c1, c2)) <= c1.radius + c2.radius
  {
    var separation := Separation(c1, c2);
    Multiply(ClampMagnitude(m, separation,
                            c1.radius + c2.radius - Magnitude(m, separation)), 2.0)
  }

  /** The correction step of a collision: the second circle is moved by `push2`, the first
      by its opposite, and each velocity changes by its push times ELASTICITY times the
      other circle's weight share. */
  function Correct(c1: Circle, c2: Circle, push2: Vec): (r: (Circle, Circle))
    requires c1.weight + c2.weight != 0.0
    ensures r.0.radius == c1.radius && r.0.weight == c1.weight
    ensures r.1.radius == c2.radius && r.1.weight == c2.weight
  {
    var push1 := Multiply(push2, -1.0);
    var totalWeight := c1.weight + c2.weight;
    var ratio1 := c1.weight / totalWeight;
    var ratio2 := c2.weight / totalWeight;
    (c1.(position := Add(c1.position, [push1]),
         velocity := Add(c1.velocity, [Multiply(push1, ELASTICITY * ratio2)])),
     c2.(position := Add(c2.position, [push2]),
         velocity := Add(c2.velocity, [Multiply(push2, ELASTICITY * ratio1)])))
  }

  /** The correction moves the first circle by -push and the second by +push, and changes
      the velocities by the push scaled by ELASTICITY times the other's weight share. */
  lemma CorrectByPush(c1: Circle, c2: Circle, p: Vec)
    requires c1.weight + c2.weight != 0.0
    ensures var r := Correct(c1, c2, p);
      var total := c1.weight + c2.weight;
      && r.0.position == Subtract(c1.position, p)
      && r.1.position == Plus(c2.position, p)
      && r.0.velocity == Subtract(c1.velocity, Multiply(p, ELASTICITY * (c2.weight / total)))
      && r.1.velocity == Plus(c2.velocity, Multiply(p, ELASTICITY * (c1.weight / total)))
  {
    CorrectPositions(c1, c2, p);
    CorrectVelocities(c1, c2, p);
  }

  lemma CorrectPositions(c1: Circle, c2: Circle, p: Vec)
    requires c1.weight + c2.weight != 0.0
    ensures var r := Correct(c1, c2, p);
      r.0.position == Subtract(c1.position, p) && r.1.position == Plus(c2.position, p)
  {
    AddNoneOrOne(c1.position, Multiply(p, -1.0));
    AddNoneOrOne(c2.position, p);
  }

  lemma CorrectVelocities(c1: Circle, c2: Circle, p: Vec)
    requires c1.weight + c2.weight != 0.0
    ensures var r := Correct(c1, c2, p);
      var total := c1.weight + c2.weight;
      && r.0.velocity == Subtract(c1.velocity, Multiply(p, ELASTICITY * (c2.weight / total)))
      && r.1.velocity == Plus(c2.velocity, Multiply(p, ELASTICITY * (c1.weight / total)))
  {
    var total := c1.weight + c2.weight;
    FirstVelocity(c1, c2, p, ELASTICITY * (c2.weight / total));
    AddNoneOrOne(c2.velocity, Multiply(p, ELASTICITY * (c1.weight / total)));
  }

  lemma FirstVelocity(c1: Circle, c2: Circle, p: Vec, k1: real)
    requires c1.weight + c2.weight != 0.0
    requires k1 == ELASTICITY * (c2.weight / (c1.weight + c2.weight))
    ensures Correct(c1, c2, p).0.velocity == Subtract(c1.velocity, Multiply(p, k1))
  {
    var q := Multiply(p, -1.0);
    AddNoneOrOne(c1.velocity, Multiply(q, k1));
    NegatedScale(p.x, k1);
    NegatedScale(p.y, k1);
    NegatedScale(p.z, k1);
  }

  lemma NegatedScale(a: real, k: real)
    ensures (a * -1.0) * k == -(a * k)
  {
  }

  /** A zero push changes nothing. */
  lemma CorrectByZero(c1: Circle, c2: Circle, p: Vec)
    requires c1.weight + c2.weight != 0.0
    requires p.x == 0.0 && p.y == 0.0 && p.z == 0.0
    ensures Correct(c1, c2, p) == (c1, c2)
  {
    CorrectByPush(c1, c2, p);
    var total := c1.weight + c2.weight;
    ZeroScale(p, ELASTICITY * (c2.weight / total));
    ZeroScale(p, ELASTICITY * (c1.weight / total));
  }

  lemma ZeroScale(p: Vec, k: real)
    requires p.x == 0.0 && p.y == 0.0 && p.z == 0.0
    ensures var q := Multiply(p, k); q.x == 0.0 && q.y == 0.0 && q.z == 0.0
  {
  }

  /** Circles further apart than the sum of their radii are left untouched; touching
      circles (distance exactly r1 + r2) are treated as colliding. */
  lemma CirclesCollisionSeparated(m: Math, c1: Circle, c2: Circle)
    requires c1.weight + c2.weight != 0.0
    requires Magnitude(m, Separation(c1, c2)) > c1.radius + c2.radius
    ensures CirclesCollision(m, c1, c2) == (c1, c2)
  {
  }

  /** When they collide, the circles are corrected by Push. */
  lemma CirclesCollisionTouching(m: Math, c1: Circle, c2: Circle)
    requires c1.weight + c2.weight != 0.0
    requires Magnitude(m, Separation(c1, c2)) <= c1.radius + c2.radius
    ensures CirclesCollision(m, c1, c2) == Correct(c1, c2, Push(m, c1, c2))
  {
  }

  /** The two position corrections cancel: the sum of the two centres is unchanged. */
  lemma CirclesCollisionPositionSum(m: Math, c1: Circle, c2: Circle)
    requires c1.weight + c2.weight != 0.0
    ensures var r := CirclesCollision(m, c1, c2);
      Plus(r.0.position, r.1.position) == Plus(c1.position, c2.position)
  {
    if Magnitude(m, Separation(c1, c2)) <= c1.radius + c2.radius {
      CorrectByPush(c1, c2, Push(m, c1, c2));
    }
  }

  /** The push has length 2·min(distance, r1 + r2 − distance): clampMagnitude never
      lengthens the separation. */
  lemma PushLength(m: Math, c1: Circle, c2: Circle)
    requires SqrtLaw(m)
    requires Magnitude(m, Separation(c1, c2)) <= c1.radius + c2.radius
    ensures var d := Magnitude(m, Separation(c1, c2));
      Magnitude(m, Push(m, c1, c2)) == 2.0 * Min(d, c1.radius + c2.radius - d)
  {
    var s := Separation(c1, c2);
    var d := Magnitude(m, s);
    var c := ClampMagnitude(m, s, c1.radius + c2.radius - d);
    ClampMagnitudeLaw(m, s, c1.radius + c2.radius - d);
    MagnitudeScale(m, c, 2.0);
  }

  /** Weighted momentum is conserved by the velocity impulse: w1·Δv1 + w2·Δv2 = 0. */
  lemma CirclesCollisionMomentum(m: Math, c1: Circle, c2: Circle)
    requires c1.weight + c2.weight != 0.0
    ensures var r := CirclesCollision(m, c1, c2);
      Plus(Multiply(Subtract(r.0.velocity, c1.velocity), c1.weight),
           Multiply(Subtract(r.1.velocity, c2.velocity), c2.weight)) == Zero
  {
    if Magnitude(m, Separation(c1, c2)) <= c1.radius + c2.radius {
      CorrectMomentum(c1, c2, Push(m, c1, c2));
    }
  }

  lemma CorrectMomentum(c1: Circle, c2: Circle, p: Vec)
    requires c1.weight + c2.weight != 0.0
    ensures var r := Correct(c1, c2, p);
      Plus(Multiply(Subtract(r.0.velocity, c1.velocity), c1.weight),
           Multiply(Subtract(r.1.velocity, c2.velocity), c2.weight)) == Zero
  {
    CorrectByPush(c1, c2, p);
    var total := c1.weight + c2.weight;
    var k1, k2 := ELASTICITY * (c2.weight / total), ELASTICITY * (c1.weight / total);
    WeightShares(c1.weight, c2.weight);
    ImpulseCancels(c1.velocity, c2.velocity, p, c1.weight, c2.weight, k1, k2);
  }

  /** w1 · (2 · w2 / (w1 + w2)) == w2 · (2 · w1 / (w1 + w2)). */
  lemma WeightShares(w1: real, w2: real)
    requires w1 + w2 != 0.0
    ensures w1 * (ELASTICITY * (w2 / (w1 + w2))) == w2 * (ELASTICITY * (w1 / (w1 + w2)))
  {
    var inv := 1.0 / (w1 + w2);
    assert w2 / (w1 + w2) == w2 * inv;
    assert w1 / (w1 + w2) == w1 * inv;
  }

  lemma ImpulseCancels(v1: Vec, v2: Vec, p: Vec, w1: real, w2: real, k1: real, k2: real)
    requires w1 * k1 == w2 * k2
    ensures Plus(Multiply(Subtract(Subtract(v1, Multiply(p, k1)), v1), w1),
                 Multiply(Subtract(Plus(v2, Multiply(p, k2)), v2), w2)) == Zero
  {
    var r := Plus(Multiply(Subtract(Subtract(v1, Multiply(p, k1)), v1), w1),
                  Multiply(Subtract(Plus(v2, Multiply(p, k2)), v2), w2));
    assert r.x == 0.0 by { ImpulseComponent(v1.x, v2.x, p.x, w1, w2, k1, k2); }
    assert r.y == 0.0 by { ImpulseComponent(v1.y, v2.y, p.y, w1, w2, k1, k2); }
    assert r.z == 0.0 by { ImpulseComponent(v1.z, v2.z, p.z, w1, w2, k1, k2); }
  }

  lemma ImpulseComponent(u1: real, u2: real, a: real, w1: real, w2: real, k1: real, k2: real)
    requires w1 * k1 == w2 * k2
    ensures ((u1 - a * k1) - u1) * w1 + ((u2 + a * k2) - u2) * w2 == 0.0
  {
    assert (u1 - a * k1) - u1 == -(a * k1);
    assert (u2 + a * k2) - u2 == a * k2;
    assert -(a * k1) * w1 + (a * k2) * w2 == a * (w2 * k2 - w1 * k1);
  }

  /** The push is the separation scaled by a non-negative factor. */
  lemma PushAlongSeparation(m: Math, c1: Circle, c2: Circle) returns (k: real)
    requires SqrtLaw(m)
    requires Magnitude(m, Separation(c1, c2)) <= c1.radius + c2.radius
    ensures 0.0 <= k && Push(m, c1, c2) == Multiply(Separation(c1, c2), 2.0 * k)
  {
    var s := Separation(c1, c2);
    var d := Magnitude(m, s);
    var room := c1.radius + c2.radius - d;
    ClampMagnitudeLaw(m, s, room);
    MagnitudeLaw(m, s);
    if d <= room {
      k := 1.0;
    } else {
      k := room / d;
      assert k * d == room;
      NonNegativeFactor(k, d);
    }
    ScaleTwice(s, k, 2.0);
  }

  lemma ScaleTwice(v: Vec, a: real, b: real)
    ensures Multiply(Multiply(v, a), b) == Multiply(v, b * a)
  {
  }

  /** Coincident centres give a zero push, so nothing changes. */
  lemma CirclesCollisionCoincident(m: Math, c1: Circle, c2: Circle)
    requires SqrtLaw(m)
    requires c1.weight + c2.weight != 0.0
    requires c1.position.x == c2.position.x && c1.position.y == c2.position.y
    ensures CirclesCollision(m, c1, c2) == (c1, c2)
  {
    NullLength(m, Separation(c1, c2));
    if 0.0 <= c1.radius + c2.radius {
      CoincidentPush(m, c1, c2);
      CirclesCollisionTouching(m, c1, c2);
      CorrectByZero(c1, c2, Push(m, c1, c2));
    }
  }

  lemma CoincidentPush(m: Math, c1: Circle, c2: Circle)
    requires SqrtLaw(m)
    requires Magnitude(m, Separation(c1, c2)) <= c1.radius + c2.radius
    requires c1.position.x == c2.position.x && c1.position.y == c2.position.y
    ensures var p := Push(m, c1, c2); p.x == 0.0 && p.y == 0.0 && p.z == 0.0
  {
    var k := PushAlongSeparation(m, c1, c2);
    ZeroScale(Separation(c1, c2), 2.0 * k);
  }

  /** The circles never end up closer than they started: both pushes act along the
      separation, so the new separation is the old one scaled by a factor of at least 1. */
  lemma CirclesCollisionSeparationGrows(m: Math, c1: Circle, c2: Circle)
    requires SqrtLaw(m)
    requires c1.weight + c2.weight != 0.0
    ensures var r := CirclesCollision(m, c1, c2);
      Magnitude(m, Separation(c1, c2)) <= Magnitude(m, Separation(r.0, r.1))
  {
    var s := Separation(c1, c2);
    if Magnitude(m, s) <= c1.radius + c2.radius {
      var k := PushAlongSeparation(m, c1, c2);
      CorrectByPush(c1, c2, Push(m, c1, c2));
      var factor := 1.0 + 4.0 * k;
      SpreadSeparation(c1, c2, k);
      GrowingLength(m, s, factor);
    }
  }

  /** Moving the circles apart by Multiply(s, 2k) each scales their separation by 1 + 4k. */
  lemma SpreadSeparation(c1: Circle, c2: Circle, k: real)
    ensures var p := Multiply(Separation(c1, c2), 2.0 * k);
      Separation(c1.(position := Subtract(c1.position, p)), c2.(position := Plus(c2.position, p)))
      == Multiply(Separation(c1, c2), 1.0 + 4.0 * k)
  {
  }

  lemma GrowingLength(m: Math, v: Vec, factor: real)
    requires SqrtLaw(m) && 1.0 <= factor
    ensures Magnitude(m, v) <= Magnitude(m, Multiply(v, factor))
  {
    MagnitudeScale(m, v, factor);
    MagnitudeLaw(m, v);
    assert Magnitude(m, v) * 1.0 <= Magnitude(m, v) * factor;
  }
}
