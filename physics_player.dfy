/** The player's share of a physics tick: the movement gain, the player-player collision
    pass with its handled-pairs set, and the wall and friction steps. */
module PhysicsPlayer {
  import opened Numerics
  import opened Vector
  import opened Types
  import opened PhysicsCommon

  // ---------------------------------------------------------------- movePlayer

  /** One axis of movePlayer's acceleration: the requested component scaled by
      log2(max(2, |a − v| / 2)), so a player far from the speed it asks for accelerates
      harder. */
  function Gain(m: Math, a: real, v: real): real {
    a * m.log2(Max(2.0, Abs(a - v) / 2.0))
  }

  /** The gain factor is at least 1: each effective component keeps the requested one's
      sign and is at least as large, and a zero request stays zero. */
  lemma GainLaw(m: Math, a: real, v: real)
    requires Log2Law(m)
    ensures 1.0 <= m.log2(Max(2.0, Abs(a - v) / 2.0))
    ensures a == 0.0 ==> Gain(m, a, v) == 0.0
    ensures a > 0.0 ==> Gain(m, a, v) >= a
    ensures a < 0.0 ==> Gain(m, a, v) <= a
    ensures Abs(a) <= Abs(Gain(m, a, v))
  {
    var x := Max(2.0, Abs(a - v) / 2.0);
    var g := m.log2(x);
    assert 0.0 < 2.0 <= x;
    assert m.log2(2.0) <= g;
    assert Gain(m, a, v) == a * g;
    GrowFactor(a, g);
  }

  lemma GrowFactor(a: real, g: real)
    requires 1.0 <= g
    ensures a == 0.0 ==> a * g == 0.0
    ensures a > 0.0 ==> a * g >= a
    ensures a < 0.0 ==> a * g <= a
    ensures Abs(a) <= Abs(a * g)
  {
    if a > 0.0 {
      MulNonNegative(a, g - 1.0);
      assert a * (g - 1.0) == a * g - a;
    } else if a < 0.0 {
      MulNonNegative(-a, g - 1.0);
      assert (-a) * (g - 1.0) == a - a * g;
    }
  }

  /** The acceleration movePlayer hands to the integrator. */
  function EffectiveAcceleration(m: Math, p: Player): Vec {
    Vec(Gain(m, p.acceleration.x, p.velocity.x),
        Gain(m, p.acceleration.y, p.velocity.y),
        Gain(m, p.acceleration.z, p.velocity.z))
  }

  /** `movePlayer`: integrate the player's body with the effective acceleration, capped
      at the room's maximum player speed. */
  function MovePlayer(m: Math, cs: Callees, p: Player, config: RoomConfig, dt: real): Player {
    PlayerWithBody(p, cs.moveWithAcceleration(Body(p.position, p.velocity),
                                              EffectiveAcceleration(m, p),
                                              config.maxPlayerSpeed, dt))
  }

  /** movePlayer changes only the body, through the integrator called with the room's
      speed cap; the acceleration it passes agrees in sign with the requested one on
      every axis and is at least as large. */
  lemma MovePlayerLaw(m: Math, cs: Callees, p: Player, config: RoomConfig, dt: real)
    requires Log2Law(m)
    ensures var r := MovePlayer(m, cs, p, config, dt);
      var b := cs.moveWithAcceleration(Body(p.position, p.velocity),
                                       EffectiveAcceleration(m, p), config.maxPlayerSpeed, dt);
      r.position == b.position && r.velocity == b.velocity
      && r == p.(position := r.position, velocity := r.velocity)
    ensures var e := EffectiveAcceleration(m, p);
      Abs(p.acceleration.x) <= Abs(e.x) && Abs(p.acceleration.y) <= Abs(e.y)
      && Abs(p.acceleration.z) <= Abs(e.z)
      && (p.acceleration.x >= 0.0 <==> e.x >= 0.0)
      && (p.acceleration.y >= 0.0 <==> e.y >= 0.0)
      && (p.acceleration.z >= 0.0 <==> e.z >= 0.0)
  {
    GainLaw(m, p.acceleration.x, p.velocity.x);
    GainLaw(m, p.acceleration.y, p.velocity.y);
    GainLaw(m, p.acceleration.z, p.velocity.z);
  }

  // ---------------------------------------------------------------- handlePlayerCollisions

  /** One iteration of handlePlayerCollisions' loop: the player stored under `self` against
      the one stored under `other`. The same player, or a pair already in the handled set,
      is skipped; otherwise both orders of the pair are recorded, the collision routine
      runs, and each strictly positive result becomes a playerCollision event whose amount
      is the result per second. */
  function PlayerStep(cs: Callees, s: PassState, self: string, other: string, dt: real)
    : (r: PassState)
    requires self in s.players && other in s.players && 0.0 < dt
    ensures SameIds(s.players, r.players)
  {
    var p := s.players[self];
    var o := s.players[other];
    if p.id == o.id then s
    else if PairKey(p.id, o.id) in s.handled then s
    else
      var handled := s.handled + {PairKey(p.id, o.id), PairKey(o.id, p.id)};
      var res := cs.circlesCollision(PlayerCircle(p), PlayerCircle(o), dt);
      var players := s.players[self := PlayerWithBody(p, res.first)]
                                [other := PlayerWithBody(o, res.second)];
      var damages := s.damages
        + (if res.firstDamage > 0.0
           then [Damage(PlayerCollision, p.id, o.id, res.firstDamage / dt)] else [])
        + (if res.secondDamage > 0.0
           then [Damage(PlayerCollision, o.id, p.id, res.secondDamage / dt)] else []);
      PassState(players, handled, damages, s.collided + [(p.id, o.id)])
  }

  /** handlePlayerCollisions for the player under `self`, visiting the other records in
      the given key order. */
  function PlayerPass(cs: Callees, s: PassState, self: string, others: seq<string>, dt: real)
    : (r: PassState)
    requires self in s.players && 0.0 < dt
    requires forall k :: k in others ==> k in s.players
    ensures SameIds(s.players, r.players)
    decreases |others|
  {
    if |others| == 0 then s
    else
      var prev := PlayerPass(cs, s, self, others[..|others| - 1], dt);
      SameIdsTransitive(s.players, prev.players, PlayerStep(cs, prev, self, others[|others| - 1], dt).players);
      PlayerStep(cs, prev, self, others[|others| - 1], dt)
  }

  /** `handlePlayerCollisions(player, room, handledCollisions, elapsedTime, onPlayerDamage)`
      for the player stored under `self`: the handled set is passed in and the updated one
      returned; the events passed to the callback are returned in order, with the id pairs
      of the collisions that ran. */
  method PlayerCollisions(cs: Callees, room: Room, self: string, handled: set<string>,
                          dt: real)
    returns (handledOut: set<string>, damages: seq<Damage>, collided: seq<(string, string)>)
    requires room.Valid() && self in room.players && 0.0 < dt
    modifies room
    ensures room.Valid() && room.order == old(room.order)
    ensures PassState(room.players, handledOut, damages, collided)
      == PlayerPass(cs, PassState(old(room.players), handled, [], []), self, room.order, dt)
  {
    ghost var start := PassState(room.players, handled, [], []);
    var keys := room.order;
    handledOut, damages, collided := handled, [], [];
    var i := 0;
    while i < |keys|
      invariant 0 <= i <= |keys| && room.order == keys
      invariant forall k :: k in keys ==> k in start.players
      invariant PassState(room.players, handledOut, damages, collided)
        == PlayerPass(cs, start, self, keys[..i], dt)
      invariant room.Valid()
    {
      PlayerPassSnoc(cs, start, self, keys, i, dt);
      handledOut, damages, collided :=
        CollidePlayers(cs, room, self, keys[i], handledOut, damages, collided, dt);
      i := i + 1;
    }
    assert keys[..i] == keys;
  }

  /** The body of handlePlayerCollisions' loop for one other record. */
  method CollidePlayers(cs: Callees, room: Room, self: string, other: string,
                        handled: set<string>, damages: seq<Damage>,
                        collided: seq<(string, string)>, dt: real)
    returns (handledOut: set<string>, damagesOut: seq<Damage>,
             collidedOut: seq<(string, string)>)
    requires room.Valid() && self in room.players && other in room.players && 0.0 < dt
    modifies room
    ensures room.Valid() && room.order == old(room.order)
    ensures PassState(room.players, handledOut, damagesOut, collidedOut)
      == PlayerStep(cs, PassState(old(room.players), handled, damages, collided), self, other,
                    dt)
  {
    handledOut, damagesOut, collidedOut := handled, damages, collided;
    var p := room.players[self];
    var o := room.players[other];
    if p.id == o.id {
      return;
    }
    if PairKey(p.id, o.id) in handled {
      return;
    }
    handledOut := handledOut + {PairKey(p.id, o.id)};
    handledOut := handledOut + {PairKey(o.id, p.id)};
    var res := cs.circlesCollision(PlayerCircle(p), PlayerCircle(o), dt);
    room.players := room.players[self := PlayerWithBody(p, res.first)];
    room.players := room.players[other := PlayerWithBody(o, res.second)];
    if res.firstDamage > 0.0 {
      damagesOut := damagesOut + [Damage(PlayerCollision, p.id, o.id, res.firstDamage / dt)];
    }
    if res.secondDamage > 0.0 {
      damagesOut := damagesOut + [Damage(PlayerCollision, o.id, p.id, res.secondDamage / dt)];
    }
    collidedOut := collidedOut + [(p.id, o.id)];
  }

  /** The pass over one more key is one more step. */
  lemma PlayerPassSnoc(cs: Callees, s: PassState, self: string, keys: seq<string>, i: int,
                       dt: real)
    requires self in s.players && 0.0 < dt && 0 <= i < |keys|
    requires forall k :: k in keys ==> k in s.players
    ensures PlayerPass(cs, s, self, keys[..i + 1], dt)
      == PlayerStep(cs, PlayerPass(cs, s, self, keys[..i], dt), self, keys[i], dt)
  {
    assert keys[..i + 1][..i] == keys[..i];
  }

  /** A playerCollision event of this pass: strictly positive, between two different
      players, and about a pair whose collision ran in the pass (in either role). */
  ghost predicate PlayerEventOf(d: Damage, pairs: seq<(string, string)>) {
    && d.kind == PlayerCollision
    && 0.0 < d.amount
    && d.damagedPlayerId != d.playerId
    && ((d.damagedPlayerId, d.playerId) in pairs || (d.playerId, d.damagedPlayerId) in pairs)
  }

  /** From `s` to `r` the logs only grow, and what was added is a pass's output for the
      player `selfId`: each collision pairs it with a different player and has both orders
      of the pair in the handled set, and each event is a positive playerCollision between
      the two players of one of the added collisions. */
  ghost predicate Grows(s: PassState, r: PassState, selfId: string) {
    && s.damages <= r.damages && s.collided <= r.collided && s.handled <= r.handled
    && (forall j :: |s.collided| <= j < |r.collided| ==>
          r.collided[j].0 == selfId && r.collided[j].1 != r.collided[j].0
          && PairKey(r.collided[j].0, r.collided[j].1) in r.handled
          && PairKey(r.collided[j].1, r.collided[j].0) in r.handled)
    && (forall j :: |s.damages| <= j < |r.damages| ==>
          PlayerEventOf(r.damages[j], r.collided[|s.collided|..]))
  }

  lemma GrowsTransitive(s: PassState, t: PassState, r: PassState, selfId: string)
    requires Grows(s, t, selfId) && Grows(t, r, selfId)
    ensures Grows(s, r, selfId)
  {
    forall j | |s.damages| <= j < |r.damages|
      ensures PlayerEventOf(r.damages[j], r.collided[|s.collided|..])
    {
      if j < |t.damages| {
        assert r.damages[j] == t.damages[j];
        TailWidens(s.collided, t.collided, r.collided, r.damages[j]);
      } else {
        TailGrows(|s.collided|, |t.collided|, r.collided, r.damages[j]);
      }
    }
  }

  /** A pair in the tail of a log after a prefix is still there once the log grows. */
  lemma TailWidens(a: seq<(string, string)>, b: seq<(string, string)>,
                   c: seq<(string, string)>, d: Damage)
    requires a <= b && b <= c && PlayerEventOf(d, b[|a|..])
    ensures PlayerEventOf(d, c[|a|..])
  {
    assert b[|a|..] <= c[|a|..];
  }

  /** A pair in a shorter tail of a log is in every longer one. */
  lemma TailGrows(from: nat, to: nat, c: seq<(string, string)>, d: Damage)
    requires from <= to <= |c| && PlayerEventOf(d, c[to..])
    ensures PlayerEventOf(d, c[from..])
  {
    assert c[to..] == c[from..][to - from..];
  }

  /** Every collision the pass runs pairs the player with a different one, and records both
      orders of the pair in the handled set; every event it emits is a positive
      playerCollision between the two players of one of those collisions. Earlier events,
      collisions and handled entries are kept. */
  lemma {:induction false} PlayerPassFacts(cs: Callees, s: PassState, self: string,
                                           others: seq<string>, dt: real)
    requires self in s.players && 0.0 < dt
    requires forall k :: k in others ==> k in s.players
    ensures Grows(s, PlayerPass(cs, s, self, others, dt), s.players[self].id)
    decreases |others|
  {
    if |others| == 0 {
    } else {
      var init := others[..|others| - 1];
      var prev := PlayerPass(cs, s, self, init, dt);
      PlayerPassFacts(cs, s, self, init, dt);
      PlayerStepFacts(cs, prev, self, others[|others| - 1], dt);
      GrowsTransitive(s, prev, PlayerStep(cs, prev, self, others[|others| - 1], dt),
                      s.players[self].id);
    }
  }

  /** The step's own facts: at most one collision, between the two records given, and no
      event without it. */
  lemma PlayerStepFacts(cs: Callees, s: PassState, self: string, other: string, dt: real)
    requires self in s.players && other in s.players && 0.0 < dt
    ensures var r := PlayerStep(cs, s, self, other, dt);
      && Grows(s, r, s.players[self].id)
      && |r.collided| <= |s.collided| + 1
      && (|r.collided| == |s.collided| + 1 ==>
            r.collided[|s.collided|] == (s.players[self].id, s.players[other].id))
      && (|r.collided| == |s.collided| ==> r.damages == s.damages && r.handled == s.handled)
  {
    var p, o := s.players[self], s.players[other];
    if p.id != o.id && PairKey(p.id, o.id) !in s.handled {
      var res := cs.circlesCollision(PlayerCircle(p), PlayerCircle(o), dt);
      var r := PlayerStep(cs, s, self, other, dt);
      assert r.collided[|s.collided|..] == [(p.id, o.id)];
      if res.firstDamage > 0.0 {
        PositiveQuotient(res.firstDamage, dt);
      }
      if res.secondDamage > 0.0 {
        PositiveQuotient(res.secondDamage, dt);
      }
    }
  }

  /** The bookkeeping of one step: the same player or a known pair leaves the handled set
      and the collision list as they were; otherwise both orders of the pair are added to
      the handled set and the pair to the list. */
  lemma PlayerStepBooks(cs: Callees, s: PassState, self: string, other: string, dt: real)
    requires self in s.players && other in s.players && 0.0 < dt
    ensures var p, o, r := s.players[self], s.players[other], PlayerStep(cs, s, self, other, dt);
      if p.id == o.id || PairKey(p.id, o.id) in s.handled
      then r.handled == s.handled && r.collided == s.collided
      else && r.handled == s.handled + {PairKey(p.id, o.id), PairKey(o.id, p.id)}
           && r.collided == s.collided + [(p.id, o.id)]
  {
  }

  // ---------------------------------------------------------------- limits and friction

  /** `handlePlayerLimitsCollisions`: the wall routine on the player's body with the room's
      width and height. */
  function PlayerLimits(cs: Callees, p: Player, config: RoomConfig, dt: real): (r: Player)
    ensures r == p.(position := r.position, velocity := r.velocity)
    ensures Body(r.position, r.velocity)
      == cs.circleWithLimits(PlayerCircle(p), config.size.x, config.size.y, dt)
  {
    PlayerWithBody(p, cs.circleWithLimits(PlayerCircle(p), config.size.x, config.size.y, dt))
  }

  /** `applyFrictionToPlayer`: the friction routine on the player's body; the room is not
      consulted. */
  function PlayerFriction(cs: Callees, p: Player, config: RoomConfig, dt: real): (r: Player)
    ensures r == p.(position := r.position, velocity := r.velocity)
    ensures Body(r.position, r.velocity) == cs.applyFriction(Body(p.position, p.velocity), dt)
  {
    PlayerWithBody(p, cs.applyFriction(Body(p.position, p.velocity), dt))
  }
}
