/** The sword: a blade pivoting on its owner, swung by gravity and by the owner's motion,
    bounced off the room's walls, and slowed by a friction that depends on how fast its
    owner and the blade move. */
module PhysicsSword {
  import opened Numerics
  import opened Vector
  import opened Types
  import opened PhysicsExtensions
  import opened PhysicsCommon

  // ---------------------------------------------------------------- moveSwordWeapon

  /** The gravity pull on the blade and the damping of fast swings, per second: the sine of
      the angle from the blade to gravity times 3, minus 0.4 · sign(ω) · |ω|^1.5. */
  function SwingTorque(m: Math, angularSpeed: real, rotation: real, gravity: Vec): real {
    var gravityAngle := m.atan2(gravity.y, gravity.x);
    var angleToGravity := gravityAngle - rotation;
    var damping := Sign(angularSpeed) * m.pow(Abs(angularSpeed), 1.5) * 0.4;
    m.sin(angleToGravity) * 3.0 - damping
  }

  /** The drag of the owner's motion on the blade: the sine of the angle from the blade to
      the motion, brought into range with JavaScript's `%`, times 0.4 · speed / 10. */
  function DragEffect(m: Math, velocity: Vec, rotation: real): real
    requires m.pi != 0.0
  {
    m.sin(DragAngle(m, velocity, rotation)) * DragCoefficient(m, velocity)
  }

  /** The angle from the blade to the owner's motion, brought into [-π, π) with
      JavaScript's `%`. */
  function DragAngle(m: Math, velocity: Vec, rotation: real): real
    requires m.pi != 0.0
  {
    var movementAngle := m.atan2(velocity.y, velocity.x);
    var moveToSwordAngle := movementAngle - rotation;
    JsRemainder(moveToSwordAngle + m.pi, 2.0 * m.pi) - m.pi
  }

  /** How strongly the owner's motion drags the blade: 0.4 · speed / 10. */
  function DragCoefficient(m: Math, velocity: Vec): real {
    0.4 * (Magnitude(m, velocity) / 10.0)
  }

  /** The sword's rotation after turning by its angular speed for elapsedTime. */
  function Turned(w: Weapon, dt: real): real
    requires w.Sword?
  {
    w.rotation + w.angularSpeed * dt
  }

  /** `moveSwordWeapon` for the player `p`, whose weapon is a sword. Only the sword
      changes: it is pinned to the player, turned by ω · elapsedTime, with the tip at its
      length along the new rotation. The smoothing step leaves ω as it was, so the new ω
      is the old one plus the torque of the old ω over min(elapsedTime, 0.025), minus the
      drag over min(50 · elapsedTime, 1.5) only when the player's speed exceeds 1. */
  method MoveSword(m: Math, p: Player, gravity: Vec, dt: real) returns (r: Player)
    requires p.weapon.Sword? && m.pi != 0.0
    ensures r == p.(weapon := r.weapon) && r.weapon.Sword?
    ensures var w := p.weapon;
      r.weapon == Sword(w.weight, w.width, w.length, p.position,
                        Some(TipAt(m, p.position, Turned(w, dt), w.length)), Turned(w, dt),
                        r.weapon.angularSpeed, w.maxSpeed, w.damageMultiplier)
    ensures r.weapon.angularSpeed
      == p.weapon.angularSpeed
         + SwingTorque(m, p.weapon.angularSpeed, Turned(p.weapon, dt), gravity) * Min(dt, 0.025)
         - (if Magnitude(m, p.velocity) > 1.0
            then DragEffect(m, p.velocity, Turned(p.weapon, dt)) * Min(dt * 50.0, 1.5) else 0.0)
  {
    var weapon := p.weapon;
    weapon := weapon.(position := p.position, rotation := weapon.rotation + weapon.angularSpeed * dt);
    assert weapon.rotation == Turned(p.weapon, dt);
    var tipPosition := TipAt(m, p.position, weapon.rotation, weapon.length);
    weapon := weapon.(tipPosition := Some(tipPosition));
    var gravityAngle := m.atan2(gravity.y, gravity.x);
    var gravityMagnitude := 3.0;
    var angleToGravity := gravityAngle - weapon.rotation;
    weapon := weapon.(angularSpeed := weapon.angularSpeed * 0.9 + weapon.angularSpeed * 0.1);
    assert weapon.angularSpeed == p.weapon.angularSpeed;
    var dampingFactor := 0.4;
    var angularSpeedDamping :=
      Sign(weapon.angularSpeed) * m.pow(Abs(weapon.angularSpeed), 1.5) * dampingFactor;
    var gravityTorque := m.sin(angleToGravity) * gravityMagnitude - angularSpeedDamping;
    assert gravityTorque == SwingTorque(m, p.weapon.angularSpeed, weapon.rotation, gravity);
    var timeScale := Min(dt, 0.025);
    weapon := weapon.(angularSpeed := weapon.angularSpeed + gravityTorque * timeScale);
    assert timeScale == Min(dt, 0.025);
    assert gravityTorque * timeScale
      == SwingTorque(m, p.weapon.angularSpeed, Turned(p.weapon, dt), gravity) * Min(dt, 0.025);
    if Magnitude(m, p.velocity) > 1.0 {
      var playerSpeed := Magnitude(m, p.velocity);
      var movementAngle := m.atan2(p.velocity.y, p.velocity.x);
      var moveToSwordAngle := movementAngle - weapon.rotation;
      var normalizedAngle := JsRemainder(moveToSwordAngle + m.pi, 2.0 * m.pi) - m.pi;
      var dragCoefficient := 0.4 * (playerSpeed / 10.0);
      var dragEffect := m.sin(normalizedAngle) * dragCoefficient;
      assert dragEffect == DragEffect(m, p.velocity, weapon.rotation);
      weapon := weapon.(angularSpeed := weapon.angularSpeed - dragEffect * Min(dt * 50.0, 1.5));
    }
    r := p.(weapon := weapon);
  }

  /** The gravity part of the torque is at most 3 in size, the drag at most 0.04 times the
      player's speed, and the steps they act over are at most 0.025 and 1.5 and never
      negative for a non-negative elapsed time. */
  lemma MoveSwordBounds(m: Math, velocity: Vec, rotation: real, gravity: Vec, dt: real)
    requires TrigLaw(m) && SqrtLaw(m) && m.pi != 0.0 && 0.0 <= dt
    ensures Abs(m.sin(m.atan2(gravity.y, gravity.x) - rotation) * 3.0) <= 3.0
    ensures Abs(DragEffect(m, velocity, rotation)) <= 0.04 * Magnitude(m, velocity)
    ensures 0.0 <= Min(dt, 0.025) <= 0.025 && 0.0 <= Min(dt * 50.0, 1.5) <= 1.5
  {
    UnitSine(m, m.atan2(gravity.y, gravity.x) - rotation);
    BoundedScale(m.sin(m.atan2(gravity.y, gravity.x) - rotation), 3.0);
    UnitSine(m, DragAngle(m, velocity, rotation));
    MagnitudeNonNegative(m, velocity);
    DragBound(m, velocity, rotation);
  }

  /** A sine of at most 1 in size times 0.4 · speed / 10 is at most 0.04 · speed in size. */
  lemma DragBound(m: Math, velocity: Vec, rotation: real)
    requires m.pi != 0.0 && 0.0 <= Magnitude(m, velocity)
    requires Abs(m.sin(DragAngle(m, velocity, rotation))) <= 1.0
    ensures Abs(DragEffect(m, velocity, rotation)) <= 0.04 * Magnitude(m, velocity)
  {
    BoundedScale(m.sin(DragAngle(m, velocity, rotation)), DragCoefficient(m, velocity));
  }

  /** Given sin² + cos² = 1, a sine is at most 1 in size. */
  lemma UnitSine(m: Math, a: real)
    requires TrigLaw(m)
    ensures Abs(m.sin(a)) <= 1.0
  {
    var s, c := m.sin(a), m.cos(a);
    assert s * s + c * c == 1.0;
    SquareLaw(c);
    if Abs(s) > 1.0 {
      assert false;
    }
  }

  lemma BoundedScale(s: real, k: real)
    requires Abs(s) <= 1.0 && 0.0 <= k
    ensures Abs(s * k) <= k
  {
    if s >= 0.0 {
      assert s * k <= 1.0 * k;
    } else {
      assert (-s) * k <= 1.0 * k;
    }
  }

  // ---------------------------------------------------------------- handleSwordWeaponCollisions

  /** One iteration of handleSwordWeaponCollisions' loop for the player stored under `self`
      (whose weapon is a sword) and the record stored under `other`, with the adapted copy
      of the sword made before the loop. The owner is skipped. Otherwise the other player's
      body meets the blade, and a strictly positive second damage becomes a weaponCollision
      event scaled by the sword's damageMultiplier; a flail head then meets the blade too,
      with no event; an aura or a sword is left alone. The collision routine may move the
      adapted copy, and the next iteration sees it moved. */
  function SwordStep(cs: Callees, s: PassState, blade: AdaptedRect, self: string,
                     other: string, dt: real)
    : (r: (PassState, AdaptedRect))
    requires self in s.players && other in s.players && s.players[self].weapon.Sword?
    requires 0.0 < dt
    ensures SameIds(s.players, r.0.players) && r.0.players[self] == s.players[self]
    ensures r.0.handled == s.handled && r.0.collided == s.collided
  {
    var p := s.players[self];
    var o := s.players[other];
    if p.id == o.id then (s, blade)
    else
      var (o1, blade1, events) := BladeContact(cs, p, o, blade, dt);
      var (o2, blade2) := HeadContact(cs, o1, blade1, dt);
      (s.(players := s.players[other := o2], damages := s.damages + events), blade2)
  }

  /** The other player's body meets the blade of `p`'s sword; a strictly positive second
      damage becomes a weaponCollision event scaled by the sword's damageMultiplier. */
  function BladeContact(cs: Callees, p: Player, o: Player, blade: AdaptedRect, dt: real)
    : (r: (Player, AdaptedRect, seq<Damage>))
    requires p.weapon.Sword? && 0.0 < dt
    ensures r.0.id == o.id && |r.2| <= 1
  {
    var res := cs.circleRectangleCollision(PlayerCircle(o), blade, dt);
    var events :=
      if res.secondDamage > 0.0
      then [Damage(WeaponCollision, o.id, p.id,
                   ScaledDamage(res.secondDamage, p.weapon.damageMultiplier, dt))]
      else [];
    (PlayerWithBody(o, res.first),
     blade.(position := res.second.position, velocity := res.second.velocity), events)
  }

  /** A flail head of the other player meets the blade too, with no event; an aura or a
      sword is left alone. */
  function HeadContact(cs: Callees, o: Player, blade: AdaptedRect, dt: real)
    : (r: (Player, AdaptedRect))
    ensures r.0.id == o.id
    ensures !o.weapon.Flail? ==> r == (o, blade)
  {
    match o.weapon
    case Flail(_, _, _, _, _, _) =>
      var head := cs.circleRectangleCollision(FlailCircle(o.weapon), blade, dt);
      (o.(weapon := FlailWithBody(o.weapon, head.first)),
       blade.(position := head.second.position, velocity := head.second.velocity))
    case Aura(_, _, _) => (o, blade)
    case Sword(_, _, _, _, _, _, _, _, _) => (o, blade)
  }

  /** handleSwordWeaponCollisions for the player under `self`, over the given keys. */
  function SwordPass(cs: Callees, s: PassState, blade: AdaptedRect, self: string,
                     others: seq<string>, dt: real)
    : (r: (PassState, AdaptedRect))
    requires self in s.players && s.players[self].weapon.Sword? && 0.0 < dt
    requires forall k :: k in others ==> k in s.players
    ensures SameIds(s.players, r.0.players) && r.0.players[self] == s.players[self]
    ensures r.0.handled == s.handled && r.0.collided == s.collided
    decreases |others|
  {
    if |others| == 0 then (s, blade)
    else
      var prev := SwordPass(cs, s, blade, self, others[..|others| - 1], dt);
      SwordStep(cs, prev.0, prev.1, self, others[|others| - 1], dt)
  }

  /** `handleSwordWeaponCollisions(weapon, player, room, elapsedTime, onPlayerDamage)` for
      the player stored under `self`: one adapted copy of the sword is made before the
      loop; the events passed to the callback are returned. */
  method SwordCollisions(m: Math, cs: Callees, room: Room, self: string, dt: real)
    returns (damages: seq<Damage>)
    requires room.Valid() && self in room.players && room.players[self].weapon.Sword?
    requires 0.0 < dt
    modifies room
    ensures room.Valid() && room.order == old(room.order)
    ensures var r := SwordPass(cs, PassState(old(room.players), {}, [], []),
                               Adapt(m, SwordCollider(old(room.players)[self].weapon)), self,
                               room.order, dt);
      room.players == r.0.players && damages == r.0.damages
  {
    ghost var start := PassState(room.players, {}, [], []);
    var blade := Adapt(m, SwordCollider(room.players[self].weapon));
    ghost var startBlade := blade;
    var keys := room.order;
    damages := [];
    var i := 0;
    while i < |keys|
      invariant 0 <= i <= |keys| && room.order == keys && room.Valid()
      invariant forall k :: k in keys ==> k in start.players
      invariant (PassState(room.players, {}, damages, []), blade)
        == SwordPass(cs, start, startBlade, self, keys[..i], dt)
    {
      SwordPassSnoc(cs, start, startBlade, self, keys, i, dt);
      damages, blade := StrikeWithSword(cs, room, blade, self, keys[i], damages, dt);
      i := i + 1;
    }
    assert keys[..i] == keys;
  }

  /** The body of handleSwordWeaponCollisions' loop for one other record. */
  method StrikeWithSword(cs: Callees, room: Room, blade: AdaptedRect, self: string,
                         other: string, damages: seq<Damage>, dt: real)
    returns (damagesOut: seq<Damage>, bladeOut: AdaptedRect)
    requires room.Valid() && self in room.players && other in room.players
    requires room.players[self].weapon.Sword? && 0.0 < dt
    modifies room
    ensures room.Valid() && room.order == old(room.order)
    ensures (PassState(room.players, {}, damagesOut, []), bladeOut)
      == SwordStep(cs, PassState(old(room.players), {}, damages, []), blade, self, other, dt)
  {
    damagesOut, bladeOut := damages, blade;
    var player := room.players[self];
    var otherPlayer := room.players[other];
    if player.id == otherPlayer.id {
      return;
    }
    var res := cs.circleRectangleCollision(PlayerCircle(otherPlayer), bladeOut, dt);
    otherPlayer := PlayerWithBody(otherPlayer, res.first);
    bladeOut := bladeOut.(position := res.second.position, velocity := res.second.velocity);
    if res.secondDamage > 0.0 {
      damagesOut := damagesOut + [Damage(WeaponCollision, otherPlayer.id, player.id,
                                         ScaledDamage(res.secondDamage,
                                                      player.weapon.damageMultiplier, dt))];
    }
    ghost var contact := BladeContact(cs, player, old(room.players)[other], blade, dt);
    assert otherPlayer == contact.0 && bladeOut == contact.1;
    assert damagesOut == damages + contact.2;
    ghost var touched := otherPlayer;
    ghost var touchedBlade := bladeOut;
    match otherPlayer.weapon {
      case Flail(_, _, _, _, _, _) =>
        var head := cs.circleRectangleCollision(FlailCircle(otherPlayer.weapon), bladeOut, dt);
        otherPlayer := otherPlayer.(weapon := FlailWithBody(otherPlayer.weapon, head.first));
        bladeOut := bladeOut.(position := head.second.position, velocity := head.second.velocity);
      case Aura(_, _, _) =>
      case Sword(_, _, _, _, _, _, _, _, _) =>
    }
    assert (otherPlayer, bladeOut) == HeadContact(cs, touched, touchedBlade, dt);
    room.players := room.players[other := otherPlayer];
  }

  lemma SwordPassSnoc(cs: Callees, s: PassState, blade: AdaptedRect, self: string,
                      keys: seq<string>, i: int, dt: real)
    requires self in s.players && s.players[self].weapon.Sword? && 0.0 < dt
    requires 0 <= i < |keys| && forall k :: k in keys ==> k in s.players
    ensures SwordPass(cs, s, blade, self, keys[..i + 1], dt)
      == SwordStep(cs, SwordPass(cs, s, blade, self, keys[..i], dt).0,
                   SwordPass(cs, s, blade, self, keys[..i], dt).1, self, keys[i], dt)
  {
    assert keys[..i + 1][..i] == keys[..i];
  }

  /** An event of the sword pass: a weaponCollision from the owner to another player,
      strictly positive when the sword's damage multiplier is. */
  ghost predicate SwordEvent(d: Damage, ownerId: string, multiplier: real) {
    && d.kind == WeaponCollision && d.playerId == ownerId && d.damagedPlayerId != ownerId
    && (0.0 < multiplier ==> 0.0 < d.amount)
  }

  /** The step emits at most one event, from the body contact; the flail contact emits
      none. The owner's record is never touched. */
  lemma SwordStepFacts(cs: Callees, s: PassState, blade: AdaptedRect, self: string,
                       other: string, dt: real)
    requires self in s.players && other in s.players && s.players[self].weapon.Sword?
    requires 0.0 < dt
    ensures var r := SwordStep(cs, s, blade, self, other, dt).0;
      var p, o := s.players[self], s.players[other];
      && s.damages <= r.damages && |r.damages| <= |s.damages| + 1
      && (p.id == o.id ==> r == s)
      && (o.weapon.Aura? || o.weapon.Sword? ==> r.players[other].weapon == o.weapon)
      && forall j :: |s.damages| <= j < |r.damages| ==>
           SwordEvent(r.damages[j], p.id, p.weapon.damageMultiplier)
           && r.damages[j].damagedPlayerId == o.id
  {
    var p, o := s.players[self], s.players[other];
    var res := cs.circleRectangleCollision(PlayerCircle(o), blade, dt);
    if res.secondDamage > 0.0 && 0.0 < p.weapon.damageMultiplier {
      PositiveQuotient(res.secondDamage * p.weapon.damageMultiplier, dt);
      assert 0.0 < ScaledDamage(res.secondDamage, p.weapon.damageMultiplier, dt);
    }
  }

  /** Every event of the pass is a weaponCollision from the owner to another player,
      strictly positive when the sword's multiplier is, at most one per record visited;
      earlier events are kept. */
  lemma {:induction false} SwordPassEvents(cs: Callees, s: PassState, blade: AdaptedRect,
                                           self: string, others: seq<string>, dt: real)
    requires self in s.players && s.players[self].weapon.Sword? && 0.0 < dt
    requires forall k :: k in others ==> k in s.players
    ensures var r := SwordPass(cs, s, blade, self, others, dt).0;
      var p := s.players[self];
      && s.damages <= r.damages && |r.damages| <= |s.damages| + |others|
      && forall j :: |s.damages| <= j < |r.damages| ==>
           SwordEvent(r.damages[j], p.id, p.weapon.damageMultiplier)
    decreases |others|
  {
    if |others| > 0 {
      var prev := SwordPass(cs, s, blade, self, others[..|others| - 1], dt);
      SwordPassEvents(cs, s, blade, self, others[..|others| - 1], dt);
      SwordStepFacts(cs, prev.0, prev.1, self, others[|others| - 1], dt);
    }
  }

  // ---------------------------------------------------------------- handleSwordWeaponLimitsCollisions

  /** Whether a blade of half-width `half` centred at `c` crosses a wall of [0, size]. */
  predicate Crosses(c: real, half: real, size: real) {
    c - half < 0.0 || c + half > size
  }

  /** How far such a blade crosses: positive past the low wall, negative past the high
      wall (looked at only when the low one is not crossed), 0 inside. */
  function Penetration(c: real, half: real, size: real): (r: real)
    ensures c - half < 0.0 ==> r == half - c && r > 0.0
    ensures c - half >= 0.0 && c + half > size ==> r == size - (c + half) && r < 0.0
    ensures r == 0.0 <==> !Crosses(c, half, size)
  {
    if c - half < 0.0 then Abs(c - half)
    else if c + half > size then -Abs(c + half - size)
    else 0.0
  }

  /** The angular speed after one axis: reversed and damped by 0.6 when it is crossed. */
  function Bounced(angularSpeed: real, crossed: bool): real {
    if crossed then -angularSpeed * 0.6 else angularSpeed
  }

  /** The pushback velocity of one axis as written: 6.5 times the penetration, capped
      above at 200. */
  function Pushback(penetration: real): real {
    Min(penetration * 6.5, 200.0)
  }

  /** The tip the limits pass works with: the stored one, or the one at the current
      rotation when none is stored. */
  function TipOf(m: Math, p: Player): Vec
    requires p.weapon.Sword?
  {
    match p.weapon.tipPosition
    case Some(tip) => tip
    case None => TipAt(m, p.position, p.weapon.rotation, p.weapon.length)
  }

  /** The player after the limits pass, given the pushback velocity of each axis. Each
      crossed axis bounces the angular speed; when any axis is crossed, the pushbacks are
      applied over elapsedTime and the angular speed is damped by 0.85. The tip is stored when it was
      missing. */
  function Limited(m: Math, p: Player, size: Vec, fx: real, fy: real, dt: real): (r: Player)
    requires p.weapon.Sword?
    ensures r.weapon.Sword? && r == p.(velocity := r.velocity, weapon := r.weapon)
  {
    var tip := TipOf(m, p);
    var half := p.weapon.width / 2.0;
    var crossX, crossY := Crosses(tip.x, half, size.x), Crosses(tip.y, half, size.y);
    var w := p.weapon.(tipPosition := Some(tip));
    if crossX || crossY then
      p.(velocity := p.velocity.(x := p.velocity.x + Impulse(fx, dt),
                                 y := p.velocity.y + Impulse(fy, dt)),
         weapon := w.(angularSpeed := Bounced(Bounced(w.angularSpeed, crossX), crossY) * 0.85))
    else p.(weapon := w)
  }

  /** A pushback velocity applied over elapsedTime. */
  function Impulse(force: real, dt: real): real {
    force * dt
  }

  /** The limits pass axis by axis, with the pushback as written. */
  function SwordLimitsSpec(m: Math, p: Player, size: Vec, dt: real): (r: Player)
    requires p.weapon.Sword?
    ensures r.weapon.Sword?
  {
    var tip := TipOf(m, p);
    var half := p.weapon.width / 2.0;
    Limited(m, p, size, Pushback(Penetration(tip.x, half, size.x)),
            Pushback(Penetration(tip.y, half, size.y)), dt)
  }

  /** `handleSwordWeaponLimitsCollisions` for the player `p`, whose weapon is a sword, in a
      room of the given size; it returns the updated player. */
  method SwordLimits(m: Math, p: Player, size: Vec, dt: real) returns (r: Player)
    requires p.weapon.Sword?
    ensures r == SwordLimitsSpec(m, p, size, dt)
  {
    var weapon := p.weapon;
    if weapon.tipPosition.None? {
      weapon := weapon.(tipPosition := Some(TipAt(m, p.position, weapon.rotation, weapon.length)));
    }
    var tip := weapon.tipPosition.value;
    assert tip == TipOf(m, p);
    var collision := false;
    var pushX, pushY := 0.0, 0.0;
    var halfWidth := weapon.width / 2.0;
    var angularSpeed := weapon.angularSpeed;
    pushX, collision, angularSpeed := WallContact(tip.x, halfWidth, size.x, pushX, collision,
                                                  angularSpeed);
    pushY, collision, angularSpeed := WallContact(tip.y, halfWidth, size.y, pushY, collision,
                                                  angularSpeed);
    weapon := weapon.(angularSpeed := angularSpeed);
    var velocity := p.velocity;
    if collision {
      var pushStrength := 6.5;
      var maxPushback := 200.0;
      var scaledForceX := Min(pushX * pushStrength, maxPushback);
      var scaledForceY := Min(pushY * pushStrength, maxPushback);
      velocity := velocity.(x := velocity.x + Impulse(scaledForceX, dt));
      velocity := velocity.(y := velocity.y + Impulse(scaledForceY, dt));
      weapon := weapon.(angularSpeed := weapon.angularSpeed * 0.85);
    }
    ghost var expected := Limited(m, p, size, Pushback(Penetration(tip.x, halfWidth, size.x)),
                                  Pushback(Penetration(tip.y, halfWidth, size.y)), dt);
    assert velocity == expected.velocity && weapon == expected.weapon;
    assert expected == SwordLimitsSpec(m, p, size, dt);
    r := p.(velocity := velocity, weapon := weapon);
  }

  /** The test of one axis of handleSwordWeaponLimitsCollisions, the same on x and y: a
      tip crossing the low wall adds its penetration to the pushback, one crossing the
      high wall subtracts it; either sets the collision flag and bounces the sword. */
  method WallContact(c: real, half: real, size: real, push: real, collision: bool,
                     angularSpeed: real)
    returns (pushOut: real, collisionOut: bool, angularSpeedOut: real)
    ensures pushOut == push + Penetration(c, half, size)
    ensures collisionOut == (collision || Crosses(c, half, size))
    ensures angularSpeedOut == Bounced(angularSpeed, Crosses(c, half, size))
  {
    pushOut, collisionOut, angularSpeedOut := push, collision, angularSpeed;
    if c - half < 0.0 {
      var penetration := Abs(c - half);
      pushOut := pushOut + penetration * 1.0;
      collisionOut := true;
      angularSpeedOut := -angularSpeedOut * 0.6;
    } else if c + half > size {
      var penetration := Abs(c + half - size);
      pushOut := pushOut - penetration * 1.0;
      collisionOut := true;
      angularSpeedOut := -angularSpeedOut * 0.6;
    }
  }

  /** A tip inside the room on both axes changes nothing but the stored tip. Otherwise
      the angular speed is the old one times −0.6 per crossed axis, times 0.85; the
      velocity moves away from each crossed low wall, and x and y are the only velocity
      components that change. Only the weapon and the velocity of the player change. */
  lemma SwordLimitsLaw(m: Math, p: Player, size: Vec, dt: real)
    requires p.weapon.Sword? && 0.0 <= dt
    ensures var r := SwordLimitsSpec(m, p, size, dt);
      var tip := TipOf(m, p);
      var half := p.weapon.width / 2.0;
      var crossX, crossY := Crosses(tip.x, half, size.x), Crosses(tip.y, half, size.y);
      && r == p.(velocity := r.velocity, weapon := r.weapon)
      && r.weapon == p.weapon.(tipPosition := Some(tip), angularSpeed := r.weapon.angularSpeed)
      && r.velocity.z == p.velocity.z
      && (!crossX && !crossY ==>
            r.velocity == p.velocity && r.weapon.angularSpeed == p.weapon.angularSpeed)
      && (crossX != crossY ==> r.weapon.angularSpeed == p.weapon.angularSpeed * -0.51)
      && (crossX && crossY ==> r.weapon.angularSpeed == p.weapon.angularSpeed * 0.306)
      && (tip.x - half < 0.0 ==> r.velocity.x >= p.velocity.x)
      && (tip.y - half < 0.0 ==> r.velocity.y >= p.velocity.y)
  {
    var half := p.weapon.width / 2.0;
    var tip := TipOf(m, p);
    PushbackStep(Penetration(tip.x, half, size.x), dt);
    PushbackStep(Penetration(tip.y, half, size.y), dt);
  }

  lemma PushbackStep(penetration: real, dt: real)
    requires 0.0 <= dt
    ensures penetration >= 0.0 ==> Pushback(penetration) * dt >= 0.0
  {
    if penetration >= 0.0 {
      MulNonNegative(Pushback(penetration), dt);
    }
  }

  /** As written, the 200 cap only bounds the pushback from above: past the right wall the
      player's x velocity can drop by far more than 200 · elapsedTime. A tip of width 8 at
      x = 2000 in a room 1000 wide crosses by 1004, a pushback of −6526 per second. */
  lemma SwordPushbackUnbounded(m: Math, p: Player, dt: real)
    requires p.weapon.Sword? && p.weapon.width == 8.0 && 0.0 < dt
    requires p.weapon.tipPosition == Some(Xy(2000.0, 500.0))
    ensures var r := SwordLimitsSpec(m, p, Xy(1000.0, 1000.0), dt);
      r.velocity.x - p.velocity.x == -6526.0 * dt
      && r.velocity.x - p.velocity.x < -200.0 * dt
  {
    assert Penetration(2000.0, 4.0, 1000.0) == -1004.0;
    assert Penetration(500.0, 4.0, 1000.0) == 0.0;
    assert Pushback(-1004.0) == -6526.0;
  }

  /** The pushback with the cap applied on both sides, as the "maximum pushback velocity"
      is evidently meant. */
  function CappedPushback(penetration: real): (f: real)
    ensures -200.0 <= f <= 200.0
    ensures penetration >= 0.0 ==> f >= 0.0
    ensures penetration <= 0.0 ==> f <= 0.0
    ensures -200.0 <= Pushback(penetration) ==> f == Pushback(penetration)
  {
    Max(-200.0, Pushback(penetration))
  }

  /** The limits pass axis by axis, with the pushback capped on both sides. */
  function SwordLimitsCapped(m: Math, p: Player, size: Vec, dt: real): (r: Player)
    requires p.weapon.Sword?
    ensures r.weapon.Sword?
  {
    var tip := TipOf(m, p);
    var half := p.weapon.width / 2.0;
    Limited(m, p, size, CappedPushback(Penetration(tip.x, half, size.x)),
            CappedPushback(Penetration(tip.y, half, size.y)), dt)
  }

  /** With the two-sided cap, no wall changes a velocity component by more than
      200 · elapsedTime, each crossed wall pushes the player back inside, and the sword
      ends as in the pass as written. */
  lemma SwordLimitsCappedLaw(m: Math, p: Player, size: Vec, dt: real)
    requires p.weapon.Sword? && 0.0 <= dt
    ensures var r := SwordLimitsCapped(m, p, size, dt);
      var tip := TipOf(m, p);
      var half := p.weapon.width / 2.0;
      && Abs(r.velocity.x - p.velocity.x) <= 200.0 * dt
      && Abs(r.velocity.y - p.velocity.y) <= 200.0 * dt
      && (tip.x - half < 0.0 ==> r.velocity.x >= p.velocity.x)
      && (tip.x - half >= 0.0 ==> r.velocity.x <= p.velocity.x)
      && (tip.y - half < 0.0 ==> r.velocity.y >= p.velocity.y)
      && (tip.y - half >= 0.0 ==> r.velocity.y <= p.velocity.y)
      && r.weapon == SwordLimitsSpec(m, p, size, dt).weapon
      && r.velocity.z == p.velocity.z
  {
    CappedSword(m, p, size, dt);
    CappedVelocity(m, p, size, dt);
  }

  lemma CappedSword(m: Math, p: Player, size: Vec, dt: real)
    requires p.weapon.Sword?
    ensures SwordLimitsCapped(m, p, size, dt).weapon == SwordLimitsSpec(m, p, size, dt).weapon
  {
    var tip := TipOf(m, p);
    var half := p.weapon.width / 2.0;
    LimitedLaw(m, p, size, CappedPushback(Penetration(tip.x, half, size.x)),
               CappedPushback(Penetration(tip.y, half, size.y)),
               Pushback(Penetration(tip.x, half, size.x)),
               Pushback(Penetration(tip.y, half, size.y)), dt);
  }

  lemma CappedVelocity(m: Math, p: Player, size: Vec, dt: real)
    requires p.weapon.Sword? && 0.0 <= dt
    ensures var r := SwordLimitsCapped(m, p, size, dt);
      var tip := TipOf(m, p);
      var half := p.weapon.width / 2.0;
      && Abs(r.velocity.x - p.velocity.x) <= 200.0 * dt
      && Abs(r.velocity.y - p.velocity.y) <= 200.0 * dt
      && (tip.x - half < 0.0 ==> r.velocity.x >= p.velocity.x)
      && (tip.x - half >= 0.0 ==> r.velocity.x <= p.velocity.x)
      && (tip.y - half < 0.0 ==> r.velocity.y >= p.velocity.y)
      && (tip.y - half >= 0.0 ==> r.velocity.y <= p.velocity.y)
      && r.velocity.z == p.velocity.z
  {
    var tip := TipOf(m, p);
    var half := p.weapon.width / 2.0;
    var penX, penY := Penetration(tip.x, half, size.x), Penetration(tip.y, half, size.y);
    var fx, fy := CappedPushback(penX), CappedPushback(penY);
    LimitedLaw(m, p, size, fx, fy, fx, fy, dt);
    var r := SwordLimitsCapped(m, p, size, dt);
    var any := Crosses(tip.x, half, size.x) || Crosses(tip.y, half, size.y);
    CappedAxis(p.velocity.x, r.velocity.x, penX, any, dt);
    CappedAxis(p.velocity.y, r.velocity.y, penY, any, dt);
  }

  lemma CappedAxis(before: real, after: real, penetration: real, any: bool, dt: real)
    requires 0.0 <= dt
    requires after == before + (if any then Impulse(CappedPushback(penetration), dt) else 0.0)
    ensures Abs(after - before) <= 200.0 * dt
    ensures penetration >= 0.0 ==> after >= before
    ensures penetration <= 0.0 ==> after <= before
  {
    CappedStep(CappedPushback(penetration), dt);
  }

  /** The velocity change of each axis enters only when some axis is crossed, and the
      sword does not depend on it. */
  lemma LimitedLaw(m: Math, p: Player, size: Vec, fx: real, fy: real, ex: real, ey: real,
                   dt: real)
    requires p.weapon.Sword?
    ensures var r := Limited(m, p, size, fx, fy, dt);
      var tip := TipOf(m, p);
      var half := p.weapon.width / 2.0;
      var any := Crosses(tip.x, half, size.x) || Crosses(tip.y, half, size.y);
      && r.velocity == p.velocity.(x := p.velocity.x + (if any then Impulse(fx, dt) else 0.0),
                                   y := p.velocity.y + (if any then Impulse(fy, dt) else 0.0))
      && r.weapon == Limited(m, p, size, ex, ey, dt).weapon
  {
  }

  lemma CappedStep(f: real, dt: real)
    requires 0.0 <= dt && -200.0 <= f <= 200.0
    ensures Abs(f * dt) <= 200.0 * dt && (f >= 0.0 ==> f * dt >= 0.0) && (f <= 0.0 ==> f * dt <= 0.0)
  {
    MulNonNegative(200.0 - f, dt);
    MulNonNegative(200.0 + f, dt);
    if f >= 0.0 {
      MulNonNegative(f, dt);
    } else {
      MulNonNegative(-f, dt);
    }
  }

  // ---------------------------------------------------------------- applyFrictionToSwordWeapon

  /** The friction factor of the sword: 0.85 when both the player (speed under 3) and the
      blade (|ω| under 0.3) are almost still, 0.97 when only the player is, 0.99 when the
      player moves. */
  function SwordFrictionFactor(swordSpeed: real, playerSpeed: real): (f: real)
    ensures 0.0 < f <= 1.0
    ensures f == 0.85 <==> playerSpeed < 3.0 && swordSpeed < 0.3
    ensures f == 0.97 <==> playerSpeed < 3.0 && swordSpeed >= 0.3
    ensures f == 0.99 <==> playerSpeed >= 3.0
  {
    if playerSpeed < 3.0 then
      if swordSpeed < 0.3 then 0.85 else 0.97
    else 0.99
  }

  /** `applyFrictionToSwordWeapon` for the player `p`, whose weapon is a sword: only the
      angular speed changes, by the angular friction of the regime's factor; for a
      non-negative elapsed time it never grows in size and keeps its sign. */
  method SwordFriction(m: Math, p: Player, dt: real) returns (r: Player)
    requires p.weapon.Sword?
    ensures r == p.(weapon := p.weapon.(angularSpeed := AngularFriction(
      m, p.weapon.angularSpeed,
      SwordFrictionFactor(Abs(p.weapon.angularSpeed), Magnitude(m, p.velocity)), dt)))
    ensures PowLaw(m) && 0.0 <= dt ==>
      Abs(r.weapon.angularSpeed) <= Abs(p.weapon.angularSpeed)
      && (p.weapon.angularSpeed >= 0.0 <==> r.weapon.angularSpeed >= 0.0)
  {
    var swordSpeed := Abs(p.weapon.angularSpeed);
    var playerSpeed := Magnitude(m, p.velocity);
    var factor;
    if playerSpeed < 3.0 {
      if swordSpeed < 0.3 {
        factor := 0.85;
      } else {
        factor := 0.97;
      }
    } else {
      factor := 0.99;
    }
    r := p.(weapon := p.weapon.(angularSpeed :=
         AngularFriction(m, p.weapon.angularSpeed, factor, dt)));
  }
}
