/** The aura: a larger, heavier circle around its owner's body that pushes the other
    players and the other auras away. */
module PhysicsAura {
  import opened Numerics
  import opened Vector
  import opened Types
  import opened PhysicsCommon

  /** The aura's collider radius around its owner. */
  function AuraRadius(p: Player): real
    requires p.weapon.Aura?
  {
    p.radius + p.weapon.radiusFromPlayer
  }

  /** The aura's collider weight. */
  function AuraWeight(p: Player): real
    requires p.weapon.Aura?
  {
    p.weight * p.weapon.playerCollisionWeightMultiplier
  }

  function BodyOf(p: Player): Body {
    Body(p.position, p.velocity)
  }

  /** The aura of `p` against the body of `o`: both bodies move, and a strictly positive
      damage for `o` becomes a weaponCollision event scaled by the aura's damageMultiplier. */
  function BodyContact(cs: Callees, p: Player, o: Player, dt: real)
    : (r: (Player, Player, seq<Damage>))
    requires p.weapon.Aura? && 0.0 < dt
    ensures r.0 == p.(position := r.0.position, velocity := r.0.velocity)
    ensures r.1 == o.(position := r.1.position, velocity := r.1.velocity)
  {
    var res := cs.rawCirclesCollision(BodyOf(p), AuraRadius(p), AuraWeight(p),
                                      BodyOf(o), o.radius, o.weight, dt);
    (PlayerWithBody(p, res.first), PlayerWithBody(o, res.second),
     if res.secondDamage > 0.0
     then [Damage(WeaponCollision, o.id, p.id, ScaledDamage(res.secondDamage, p.weapon.damageMultiplier, dt))]
     else [])
  }

  /** The aura of `p` against the aura of `o`: both bodies move, and each strictly positive
      damage becomes an event without the multiplier, the one that damages `p` first. */
  function AuraContact(cs: Callees, p: Player, o: Player, dt: real)
    : (r: (Player, Player, seq<Damage>))
    requires p.weapon.Aura? && o.weapon.Aura? && 0.0 < dt
    ensures r.0 == p.(position := r.0.position, velocity := r.0.velocity)
    ensures r.1 == o.(position := r.1.position, velocity := r.1.velocity)
  {
    var res := cs.rawCirclesCollision(BodyOf(p), AuraRadius(p), AuraWeight(p),
                                      BodyOf(o), AuraRadius(o), AuraWeight(o), dt);
    (PlayerWithBody(p, res.first), PlayerWithBody(o, res.second),
     (if res.firstDamage > 0.0
      then [Damage(WeaponCollision, p.id, o.id, res.firstDamage / dt)] else [])
     + (if res.secondDamage > 0.0
        then [Damage(WeaponCollision, o.id, p.id, res.secondDamage / dt)] else []))
  }

  /** One iteration of handleAuraWeaponCollisions' loop for the player stored under `self`
      (whose weapon is an aura) and the record stored under `other`: the owner is skipped;
      otherwise the body contact runs, then, when the other player also has an aura, the
      aura contact. */
  function AuraStep(cs: Callees, s: PassState, self: string, other: string, dt: real)
    : (r: PassState)
    requires self in s.players && other in s.players && s.players[self].weapon.Aura?
    requires 0.0 < dt
    ensures SameIds(s.players, r.players) && r.players[self].weapon == s.players[self].weapon
    ensures r.handled == s.handled && r.collided == s.collided
  {
    var p := s.players[self];
    var o := s.players[other];
    if p.id == o.id then s
    else
      var (p1, o1, bodyEvent) := BodyContact(cs, p, o, dt);
      if o1.weapon.Aura? then
        var (p2, o2, auraEvents) := AuraContact(cs, p1, o1, dt);
        s.(players := s.players[self := p2][other := o2],
           damages := s.damages + bodyEvent + auraEvents)
      else
        s.(players := s.players[self := p1][other := o1], damages := s.damages + bodyEvent)
  }

  /** handleAuraWeaponCollisions for the player under `self`, over the given keys. */
  function AuraPass(cs: Callees, s: PassState, self: string, others: seq<string>, dt: real)
    : (r: PassState)
    requires self in s.players && s.players[self].weapon.Aura? && 0.0 < dt
    requires forall k :: k in others ==> k in s.players
    ensures SameIds(s.players, r.players) && r.players[self].weapon == s.players[self].weapon
    ensures r.handled == s.handled && r.collided == s.collided
    decreases |others|
  {
    if |others| == 0 then s
    else AuraStep(cs, AuraPass(cs, s, self, others[..|others| - 1], dt), self,
                  others[|others| - 1], dt)
  }

  /** `handleAuraWeaponCollisions(weapon, player, room, elapsedTime, onPlayerDamage)` for
      the player stored under `self`; the events passed to the callback are returned. */
  method AuraCollisions(cs: Callees, room: Room, self: string, dt: real)
    returns (damages: seq<Damage>)
    requires room.Valid() && self in room.players && room.players[self].weapon.Aura?
    requires 0.0 < dt
    modifies room
    ensures room.Valid() && room.order == old(room.order)
    ensures var r := AuraPass(cs, PassState(old(room.players), {}, [], []), self,
                              room.order, dt);
      room.players == r.players && damages == r.damages
  {
    ghost var start := PassState(room.players, {}, [], []);
    var keys := room.order;
    damages := [];
    var i := 0;
    while i < |keys|
      invariant 0 <= i <= |keys| && room.order == keys && room.Valid()
      invariant forall k :: k in keys ==> k in start.players
      invariant PassState(room.players, {}, damages, [])
        == AuraPass(cs, start, self, keys[..i], dt)
    {
      AuraPassSnoc(cs, start, self, keys, i, dt);
      damages := CollideAura(cs, room, self, keys[i], damages, dt);
      i := i + 1;
    }
    assert keys[..i] == keys;
  }

  /** The body of handleAuraWeaponCollisions' loop for one other record. */
  method CollideAura(cs: Callees, room: Room, self: string, other: string,
                     damages: seq<Damage>, dt: real)
    returns (damagesOut: seq<Damage>)
    requires room.Valid() && self in room.players && other in room.players
    requires room.players[self].weapon.Aura? && 0.0 < dt
    modifies room
    ensures room.Valid() && room.order == old(room.order)
    ensures PassState(room.players, {}, damagesOut, [])
      == AuraStep(cs, PassState(old(room.players), {}, damages, []), self, other, dt)
  {
    damagesOut := damages;
    var player := room.players[self];
    var otherPlayer := room.players[other];
    if player.id == otherPlayer.id {
      return;
    }
    var res := cs.rawCirclesCollision(BodyOf(player), AuraRadius(player), AuraWeight(player),
                                      BodyOf(otherPlayer), otherPlayer.radius,
                                      otherPlayer.weight, dt);
    var movedPlayer := PlayerWithBody(player, res.first);
    var movedOther := PlayerWithBody(otherPlayer, res.second);
    if res.secondDamage > 0.0 {
      damagesOut := damagesOut + [Damage(WeaponCollision, otherPlayer.id, player.id,
                                         ScaledDamage(res.secondDamage, player.weapon.damageMultiplier, dt))];
    }
    ghost var contact := BodyContact(cs, player, otherPlayer, dt);
    assert movedPlayer == contact.0 && movedOther == contact.1;
    assert damagesOut == damages + contact.2;
    if movedOther.weapon.Aura? {
      ghost var before := damagesOut;
      ghost var auraContact := AuraContact(cs, movedPlayer, movedOther, dt);
      var auras := cs.rawCirclesCollision(BodyOf(movedPlayer), AuraRadius(movedPlayer),
                                          AuraWeight(movedPlayer), BodyOf(movedOther),
                                          AuraRadius(movedOther), AuraWeight(movedOther), dt);
      movedPlayer := PlayerWithBody(movedPlayer, auras.first);
      movedOther := PlayerWithBody(movedOther, auras.second);
      if auras.firstDamage > 0.0 {
        damagesOut := damagesOut + [Damage(WeaponCollision, player.id, otherPlayer.id,
                                           auras.firstDamage / dt)];
      }
      if auras.secondDamage > 0.0 {
        damagesOut := damagesOut + [Damage(WeaponCollision, otherPlayer.id, player.id,
                                           auras.secondDamage / dt)];
      }
      assert movedPlayer == auraContact.0 && movedOther == auraContact.1;
      assert damagesOut == before + auraContact.2;
    }
    room.players := room.players[self := movedPlayer];
    room.players := room.players[other := movedOther];
  }

  lemma AuraPassSnoc(cs: Callees, s: PassState, self: string, keys: seq<string>, i: int,
                     dt: real)
    requires self in s.players && s.players[self].weapon.Aura? && 0.0 < dt
    requires 0 <= i < |keys| && forall k :: k in keys ==> k in s.players
    ensures AuraPass(cs, s, self, keys[..i + 1], dt)
      == AuraStep(cs, AuraPass(cs, s, self, keys[..i], dt), self, keys[i], dt)
  {
    assert keys[..i + 1][..i] == keys[..i];
  }

  /** An aura event between the owner and another player: a weaponCollision between two
      different players, one of them the owner, and strictly positive when the aura's
      damage multiplier is. */
  ghost predicate AuraEvent(d: Damage, ownerId: string, multiplier: real) {
    && d.kind == WeaponCollision && d.damagedPlayerId != d.playerId
    && (d.playerId == ownerId || d.damagedPlayerId == ownerId)
    && (0.0 < multiplier ==> 0.0 < d.amount)
  }

  /** The body contact emits at most one event: the other player's damage, from the
      owner, with the multiplier. */
  lemma BodyContactEvents(cs: Callees, p: Player, o: Player, dt: real)
    requires p.weapon.Aura? && 0.0 < dt && p.id != o.id
    ensures var events := BodyContact(cs, p, o, dt).2;
      && |events| <= 1
      && forall d :: d in events ==>
           d.damagedPlayerId == o.id && d.playerId == p.id
           && AuraEvent(d, p.id, p.weapon.damageMultiplier)
  {
    var res := cs.rawCirclesCollision(BodyOf(p), AuraRadius(p), AuraWeight(p),
                                      BodyOf(o), o.radius, o.weight, dt);
    if res.secondDamage > 0.0 && 0.0 < p.weapon.damageMultiplier {
      PositiveQuotient(res.secondDamage * p.weapon.damageMultiplier, dt);
      assert 0.0 < ScaledDamage(res.secondDamage, p.weapon.damageMultiplier, dt);
    }
  }

  /** The aura contact emits at most two events, each strictly positive; one damaging the
      owner comes first. */
  lemma AuraContactEvents(cs: Callees, p: Player, o: Player, dt: real)
    requires p.weapon.Aura? && o.weapon.Aura? && 0.0 < dt && p.id != o.id
    ensures var events := AuraContact(cs, p, o, dt).2;
      && |events| <= 2
      && (forall d :: d in events ==> AuraEvent(d, p.id, 1.0))
      && (|events| == 2 ==> events[0].damagedPlayerId == p.id && events[1].damagedPlayerId == o.id)
  {
    var res := cs.rawCirclesCollision(BodyOf(p), AuraRadius(p), AuraWeight(p),
                                      BodyOf(o), AuraRadius(o), AuraWeight(o), dt);
    if res.firstDamage > 0.0 {
      PositiveQuotient(res.firstDamage, dt);
    }
    if res.secondDamage > 0.0 {
      PositiveQuotient(res.secondDamage, dt);
    }
  }

  /** The step adds the body contact's event and, only when the other player has an aura,
      the aura contact's events: at most three, each an event between the owner and the
      other player. */
  lemma AuraStepFacts(cs: Callees, s: PassState, self: string, other: string, dt: real)
    requires self in s.players && other in s.players && s.players[self].weapon.Aura?
    requires 0.0 < dt
    ensures var r := AuraStep(cs, s, self, other, dt);
      var p, o := s.players[self], s.players[other];
      && s.damages <= r.damages
      && |r.damages| <= |s.damages| + 3
      && (p.id == o.id ==> r == s)
      && (p.id != o.id ==> s.damages + BodyContact(cs, p, o, dt).2 <= r.damages)
      && (p.id != o.id && !o.weapon.Aura? ==>
            r.damages == s.damages + BodyContact(cs, p, o, dt).2)
      && (forall j :: |s.damages| <= j < |r.damages| ==>
            AuraEvent(r.damages[j], p.id, p.weapon.damageMultiplier))
  {
    var p, o := s.players[self], s.players[other];
    if p.id != o.id {
      var c := BodyContact(cs, p, o, dt);
      BodyContactEvents(cs, p, o, dt);
      var r := AuraStep(cs, s, self, other, dt);
      if c.1.weapon.Aura? {
        var a := AuraContact(cs, c.0, c.1, dt);
        AuraContactEvents(cs, c.0, c.1, dt);
        assert r.damages == s.damages + c.2 + a.2;
        forall j | |s.damages| <= j < |r.damages|
          ensures AuraEvent(r.damages[j], p.id, p.weapon.damageMultiplier)
        {
          if j < |s.damages| + |c.2| {
            assert r.damages[j] in c.2;
          } else {
            assert r.damages[j] in a.2;
          }
        }
      } else {
        forall j | |s.damages| <= j < |r.damages|
          ensures AuraEvent(r.damages[j], p.id, p.weapon.damageMultiplier)
        {
          assert r.damages[j] in c.2;
        }
      }
    }
  }

  /** Every event of the pass is a weaponCollision between the owner and another player,
      strictly positive when the owner's damage multiplier is; earlier events are kept. */
  lemma {:induction false} AuraPassEvents(cs: Callees, s: PassState, self: string,
                                          others: seq<string>, dt: real)
    requires self in s.players && s.players[self].weapon.Aura? && 0.0 < dt
    requires forall k :: k in others ==> k in s.players
    ensures var r := AuraPass(cs, s, self, others, dt);
      var p := s.players[self];
      && s.damages <= r.damages
      && |r.damages| <= |s.damages| + 3 * |others|
      && forall j :: |s.damages| <= j < |r.damages| ==>
           AuraEvent(r.damages[j], p.id, p.weapon.damageMultiplier)
    decreases |others|
  {
    if |others| > 0 {
      var prev := AuraPass(cs, s, self, others[..|others| - 1], dt);
      AuraPassEvents(cs, s, self, others[..|others| - 1], dt);
      AuraStepFacts(cs, prev, self, others[|others| - 1], dt);
    }
  }
}
