/** The flail: a ball on a chain that is integrated under gravity and pulled back to the
    chain's length, its collision pass against the other players and their flails, and
    its wall and friction steps. */
module PhysicsFlail {
  import opened Numerics
  import opened Vector
  import opened Types
  import opened PhysicsCommon

  // ---------------------------------------------------------------- moveFlailWeapon

  /** The flail head after the integrator ran under the room's gravity, before the chain
      constraint. */
  function Integrated(cs: Callees, w: Weapon, gravity: Vec, dt: real): (r: Weapon)
    requires w.Flail?
    ensures r.Flail? && r == w.(position := r.position, velocity := r.velocity)
  {
    FlailWithBody(w, cs.moveWithAcceleration(Body(w.position, w.velocity), gravity,
                                             w.maxSpeed, dt))
  }

  /** `moveFlailWeapon` for a flail whose owner stands at `owner`: integrate, then, when the
      chain is longer than its length, move the head back along the chain by the excess and
      add that correction, times ELASTICITY per second, to its velocity. The source divides
      by elapsedTime there; a zero time step is excluded. */
  function MoveFlail(m: Math, cs: Callees, w: Weapon, owner: Vec, gravity: Vec, dt: real)
    : (r: Weapon)
    requires w.Flail? && 0.0 < dt
    ensures r.Flail? && r == w.(position := r.position, velocity := r.velocity)
  {
    var w1 := Integrated(cs, w, gravity, dt);
    var chain := Subtract(owner, w1.position);
    var len := Magnitude(m, chain);
    if len > w1.chainLength then
      var delta := ClampMagnitude(m, chain, len - w1.chainLength);
      w1.(position := Add(w1.position, [delta]),
          velocity := Add(w1.velocity, [Multiply(delta, ELASTICITY / dt)]))
    else w1
  }

  /** A chain no longer than its length leaves the integrated head alone. A longer one puts
      the head at exactly the chain's length from the owner, and the velocity grows by the
      head's displacement times ELASTICITY / elapsedTime. */
  lemma MoveFlailLaw(m: Math, cs: Callees, w: Weapon, owner: Vec, gravity: Vec, dt: real)
    requires w.Flail? && 0.0 < dt && SqrtLaw(m)
    ensures var w1 := Integrated(cs, w, gravity, dt);
      var r := MoveFlail(m, cs, w, owner, gravity, dt);
      && (Magnitude(m, Subtract(owner, w1.position)) <= w.chainLength ==> r == w1)
      && (Magnitude(m, Subtract(owner, w1.position)) > w.chainLength ==>
            && (0.0 <= w.chainLength ==> Magnitude(m, Subtract(owner, r.position)) == w.chainLength)
            && r.velocity
               == Add(w1.velocity, [Multiply(Subtract(r.position, w1.position), ELASTICITY / dt)]))
  {
    var w1 := Integrated(cs, w, gravity, dt);
    var chain := Subtract(owner, w1.position);
    var len := Magnitude(m, chain);
    var r := MoveFlail(m, cs, w, owner, gravity, dt);
    if len > w.chainLength {
      var delta := ClampMagnitude(m, chain, len - w.chainLength);
      AddNoneOrOne(w1.position, delta);
      assert Subtract(r.position, w1.position) == delta;
      if 0.0 <= w.chainLength {
        ChainCorrected(m, owner, w1.position, w.chainLength);
      }
    }
  }

  /** Moving a point that is farther than `cl` from `owner` by the chain vector clamped to
      the excess leaves it at distance exactly `cl`. */
  lemma ChainCorrected(m: Math, owner: Vec, head: Vec, cl: real)
    requires SqrtLaw(m) && 0.0 <= cl < Magnitude(m, Subtract(owner, head))
    ensures var chain := Subtract(owner, head);
      var len := Magnitude(m, chain);
      Magnitude(m, Subtract(owner, Add(head, [ClampMagnitude(m, chain, len - cl)]))) == cl
  {
    var chain := Subtract(owner, head);
    var len := Magnitude(m, chain);
    var delta := ClampMagnitude(m, chain, len - cl);
    ClampedChain(m, chain, cl);
    AddNoneOrOne(head, delta);
    var rest := Subtract(owner, Add(head, [delta]));
    assert rest.x == chain.x * (cl / len) by { ChainComponent(owner.x, head.x, len, cl); }
    assert rest.y == chain.y * (cl / len) by { ChainComponent(owner.y, head.y, len, cl); }
    assert rest.z == chain.z * (cl / len) by { ChainComponent(owner.z, head.z, len, cl); }
    assert rest == Multiply(chain, cl / len);
    MagnitudeScale(m, chain, cl / len);
    AbsRatio(cl, len);
  }

  /** Clamping a vector to its length minus a non-negative amount scales it by the ratio
      of what is left. */
  lemma ClampedChain(m: Math, chain: Vec, cl: real)
    requires 0.0 <= cl < Magnitude(m, chain)
    ensures ClampMagnitude(m, chain, Magnitude(m, chain) - cl)
      == Multiply(chain, (Magnitude(m, chain) - cl) / Magnitude(m, chain))
  {
    var len := Magnitude(m, chain);
    if cl == 0.0 {
      assert (len - cl) / len == 1.0;
      assert Multiply(chain, 1.0) == chain;
    }
  }

  lemma ChainComponent(o: real, h: real, len: real, cl: real)
    requires 0.0 < len
    ensures o - (h + (o - h) * ((len - cl) / len)) == (o - h) * (cl / len)
  {
    var k := (len - cl) / len;
    var q := cl / len;
    assert k * len == len - cl;
    assert q * len == cl;
    assert (k + q - 1.0) * len == 0.0;
    ZeroProduct(k + q - 1.0, len);
    assert o - (h + (o - h) * k) == (o - h) * (1.0 - k);
  }

  // ---------------------------------------------------------------- handleFlailWeaponCollisions

  /** One iteration of handleFlailWeaponCollisions' loop, for the player stored under
      `self` (whose weapon is a flail) and the record stored under `other`. The owner is
      skipped. Otherwise the head and the other player collide and both move; a strictly
      positive damage for the other player becomes a weaponCollision event from the owner;
      and when the other player also has a flail, the two heads collide, with no event. */
  function FlailStep(cs: Callees, s: PassState, self: string, other: string, dt: real)
    : (r: PassState)
    requires self in s.players && other in s.players && s.players[self].weapon.Flail?
    requires 0.0 < dt
    ensures SameIds(s.players, r.players) && r.players[self].weapon.Flail?
    ensures r.handled == s.handled && r.collided == s.collided
  {
    var p := s.players[self];
    var o := s.players[other];
    if p.id == o.id then s
    else
      var res := cs.circlesCollision(FlailCircle(p.weapon), PlayerCircle(o), dt);
      var w1 := FlailWithBody(p.weapon, res.first);
      var o1 := PlayerWithBody(o, res.second);
      var damages := s.damages
        + (if res.secondDamage > 0.0
           then [Damage(WeaponCollision, o.id, p.id, res.secondDamage / dt)] else []);
      var (w2, o2) :=
        if o1.weapon.Flail? then
          var heads := cs.circlesCollision(FlailCircle(w1), FlailCircle(o1.weapon), dt);
          (FlailWithBody(w1, heads.first),
           o1.(weapon := FlailWithBody(o1.weapon, heads.second)))
        else (w1, o1);
      s.(players := s.players[self := p.(weapon := w2)][other := o2], damages := damages)
  }

  /** handleFlailWeaponCollisions for the player under `self`, over the given keys. */
  function FlailPass(cs: Callees, s: PassState, self: string, others: seq<string>, dt: real)
    : (r: PassState)
    requires self in s.players && s.players[self].weapon.Flail? && 0.0 < dt
    requires forall k :: k in others ==> k in s.players
    ensures SameIds(s.players, r.players) && r.players[self].weapon.Flail?
    ensures r.handled == s.handled && r.collided == s.collided
    decreases |others|
  {
    if |others| == 0 then s
    else FlailStep(cs, FlailPass(cs, s, self, others[..|others| - 1], dt), self,
                   others[|others| - 1], dt)
  }

  /** `handleFlailWeaponCollisions(weapon, player, room, elapsedTime, onPlayerDamage)` for
      the player stored under `self`; the events passed to the callback are returned. */
  method FlailCollisions(cs: Callees, room: Room, self: string, dt: real)
    returns (damages: seq<Damage>)
    requires room.Valid() && self in room.players && room.players[self].weapon.Flail?
    requires 0.0 < dt
    modifies room
    ensures room.Valid() && room.order == old(room.order)
    ensures var r := FlailPass(cs, PassState(old(room.players), {}, [], []), self,
                               room.order, dt);
      room.players == r.players && damages == r.damages
  {
    ghost var start := PassState(room.players, {}, [], []);
    var keys := room.order;
    damages := [];
    var i := 0;
    while i < |keys|
      invariant 0 <= i <= |keys| && room.order == keys && room.Valid()
      invariant forall k :: k in keys ==> k in start.players
      invariant PassState(room.players, {}, damages, [])
        == FlailPass(cs, start, self, keys[..i], dt)
    {
      FlailPassSnoc(cs, start, self, keys, i, dt);
      damages := CollideFlail(cs, room, self, keys[i], damages, dt);
      i := i + 1;
    }
    assert keys[..i] == keys;
  }

  /** The body of handleFlailWeaponCollisions' loop for one other record. */
  method CollideFlail(cs: Callees, room: Room, self: string, other: string,
                      damages: seq<Damage>, dt: real)
    returns (damagesOut: seq<Damage>)
    requires room.Valid() && self in room.players && other in room.players
    requires room.players[self].weapon.Flail? && 0.0 < dt
    modifies room
    ensures room.Valid() && room.order == old(room.order)
    ensures PassState(room.players, {}, damagesOut, [])
      == FlailStep(cs, PassState(old(room.players), {}, damages, []), self, other, dt)
  {
    damagesOut := damages;
    var p := room.players[self];
    var o := room.players[other];
    if p.id == o.id {
      return;
    }
    var res := cs.circlesCollision(FlailCircle(p.weapon), PlayerCircle(o), dt);
    var weapon := FlailWithBody(p.weapon, res.first);
    var otherPlayer := PlayerWithBody(o, res.second);
    if res.secondDamage > 0.0 {
      damagesOut := damagesOut + [Damage(WeaponCollision, o.id, p.id, res.secondDamage / dt)];
    }
    if otherPlayer.weapon.Flail? {
      var heads := cs.circlesCollision(FlailCircle(weapon), FlailCircle(otherPlayer.weapon), dt);
      weapon := FlailWithBody(weapon, heads.first);
      otherPlayer := otherPlayer.(weapon := FlailWithBody(otherPlayer.weapon, heads.second));
    }
    room.players := room.players[self := p.(weapon := weapon)];
    room.players := room.players[other := otherPlayer];
  }

  lemma FlailPassSnoc(cs: Callees, s: PassState, self: string, keys: seq<string>, i: int,
                      dt: real)
    requires self in s.players && s.players[self].weapon.Flail? && 0.0 < dt
    requires 0 <= i < |keys| && forall k :: k in keys ==> k in s.players
    ensures FlailPass(cs, s, self, keys[..i + 1], dt)
      == FlailStep(cs, FlailPass(cs, s, self, keys[..i], dt), self, keys[i], dt)
  {
    assert keys[..i + 1][..i] == keys[..i];
  }

  /** An event of a weapon pass by the player `ownerId`: a strictly positive
      weaponCollision that the owner caused to somebody else. */
  ghost predicate OwnerEvent(d: Damage, ownerId: string) {
    d.kind == WeaponCollision && d.playerId == ownerId && d.damagedPlayerId != ownerId
    && 0.0 < d.amount
  }

  /** Every event of the pass is a positive weaponCollision from the owner to another
      player; earlier events are kept. */
  lemma {:induction false} FlailPassEvents(cs: Callees, s: PassState, self: string,
                                           others: seq<string>, dt: real)
    requires self in s.players && s.players[self].weapon.Flail? && 0.0 < dt
    requires forall k :: k in others ==> k in s.players
    ensures var r := FlailPass(cs, s, self, others, dt);
      && s.damages <= r.damages
      && forall j :: |s.damages| <= j < |r.damages| ==>
           OwnerEvent(r.damages[j], s.players[self].id)
    decreases |others|
  {
    if |others| > 0 {
      var prev := FlailPass(cs, s, self, others[..|others| - 1], dt);
      FlailPassEvents(cs, s, self, others[..|others| - 1], dt);
      FlailStepFacts(cs, prev, self, others[|others| - 1], dt);
    }
  }

  /** The step emits at most one event, the other player's damage from the head-player
      collision, and the other player's weapon changes only when it is a flail. */
  lemma FlailStepFacts(cs: Callees, s: PassState, self: string, other: string, dt: real)
    requires self in s.players && other in s.players && s.players[self].weapon.Flail?
    requires 0.0 < dt
    ensures var r := FlailStep(cs, s, self, other, dt);
      var p, o := s.players[self], s.players[other];
      var res := cs.circlesCollision(FlailCircle(p.weapon), PlayerCircle(o), dt);
      && s.damages <= r.damages && |r.damages| <= |s.damages| + 1
      && (|r.damages| == |s.damages| + 1 <==> p.id != o.id && res.secondDamage > 0.0)
      && (|r.damages| == |s.damages| + 1 ==>
            r.damages[|s.damages|] == Damage(WeaponCollision, o.id, p.id, res.secondDamage / dt)
            && OwnerEvent(r.damages[|s.damages|], p.id))
      && (p.id == o.id ==> r == s)
      && (p.id != o.id ==>
            r.players[other].position == res.second.position
            && r.players[other].velocity == res.second.velocity
            && (!o.weapon.Flail? ==> r.players[other].weapon == o.weapon))
  {
    var p, o := s.players[self], s.players[other];
    var res := cs.circlesCollision(FlailCircle(p.weapon), PlayerCircle(o), dt);
    if p.id != o.id && res.secondDamage > 0.0 {
      PositiveQuotient(res.secondDamage, dt);
    }
  }

  // ---------------------------------------------------------------- limits and friction

  /** `handleFlailWeaponLimitsCollisions`: the wall routine on the head with the room's
      width and height; nothing else of the flail changes. */
  function FlailLimits(cs: Callees, w: Weapon, config: RoomConfig, dt: real): (r: Weapon)
    requires w.Flail?
    ensures r.Flail? && r == w.(position := r.position, velocity := r.velocity)
    ensures Body(r.position, r.velocity)
      == cs.circleWithLimits(FlailCircle(w), config.size.x, config.size.y, dt)
  {
    FlailWithBody(w, cs.circleWithLimits(FlailCircle(w), config.size.x, config.size.y, dt))
  }

  /** `applyFrictionToFlailWeapon`: the friction routine on the head. */
  function FlailFriction(cs: Callees, w: Weapon, dt: real): (r: Weapon)
    requires w.Flail?
    ensures r.Flail? && r == w.(position := r.position, velocity := r.velocity)
    ensures Body(r.position, r.velocity) == cs.applyFriction(Body(w.position, w.velocity), dt)
  {
    FlailWithBody(w, cs.applyFriction(Body(w.position, w.velocity), dt))
  }
}
