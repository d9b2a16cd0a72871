/** One physics tick of a room: every player and weapon moves, then collides, then meets the
    walls, then slows down, each phase visiting every player once in the room's key order.
    The collision phase shares one handled-pairs set, so each pair of players collides once. */
module Physics {
  import opened Numerics
  import opened Types
  import opened PhysicsCommon
  import opened PhysicsPlayer
  import opened PhysicsWeapon
  import opened PhysicsPairs
  import opened PairOrder

  // ---------------------------------------------------------------- the pointwise phases

  /** The move phase on one player: the player moves, then its weapon, from the player's
      new position. */
  function Moved(m: Math, cs: Callees, config: RoomConfig, dt: real, p: Player): (r: Player)
    requires 0.0 < dt
    ensures r.id == p.id && WeaponType(r.weapon) == WeaponType(p.weapon)
  {
    MoveWeapon(m, cs, MovePlayer(m, cs, p, config, dt), config, dt)
  }

  /** The limits phase on one player: the player's wall routine, then the weapon's. */
  function Bounded(cs: Callees, config: RoomConfig, dt: real, p: Player): Player {
    cs.weaponLimits(PlayerLimits(cs, p, config, dt), config, dt)
  }

  /** The friction phase on one player: the player's friction, then the weapon's. */
  function Slowed(cs: Callees, config: RoomConfig, dt: real, p: Player): Player {
    cs.weaponFriction(PlayerFriction(cs, p, config, dt), config, dt)
  }

  /** A loop of `applyPhysics` that visits every player of the room in key order and
      replaces its record by `f` of it. Each record is visited exactly once, so the room
      ends with `f` applied once to every record and its keys and order unchanged. */
  method EachPlayer(room: Room, f: Player -> Player)
    requires room.Valid()
    modifies room
    ensures room.Valid() && room.order == old(room.order)
    ensures room.players == map k | k in old(room.players) :: f(old(room.players)[k])
  {
    ghost var start := room.players;
    var i := 0;
    while i < |room.order|
      invariant 0 <= i <= |room.order| && room.order == old(room.order)
      invariant room.players.Keys == start.Keys && room.Valid()
      invariant forall k :: k in start ==>
        room.players[k] == if k in room.order[..i] then f(start[k]) else start[k]
    {
      var key := room.order[i];
      assert key !in room.order[..i];
      assert room.order[..i + 1] == room.order[..i] + [key];
      room.players := room.players[key := f(room.players[key])];
      i := i + 1;
    }
    assert room.order[..i] == room.order;
  }

  // ---------------------------------------------------------------- the collision phase

  /** One iteration of the collision loop for the player stored under `self`: its
      player-player pass with the shared handled set, then its weapon pass; the events of
      both are appended in that order. */
  function CollisionStep(cs: Callees, s: PassState, self: string, order: seq<string>,
                         dt: real)
    : (r: PassState)
    requires self in s.players && 0.0 < dt
    requires forall k :: k in order ==> k in s.players
    ensures SameIds(s.players, r.players)
  {
    var r1 := PlayerPass(cs, PassState(s.players, s.handled, [], []), self, order, dt);
    var r2 := WeaponPass(cs, r1.players, self, order, dt);
    SameIdsTransitive(s.players, r1.players, r2.players);
    PassState(r2.players, r1.handled, s.damages + r1.damages + r2.damages,
              s.collided + r1.collided)
  }

  /** The collision loop of `applyPhysics` over the given players, each pass visiting the
      records in `order`. */
  function CollisionPhase(cs: Callees, s: PassState, selves: seq<string>, order: seq<string>,
                          dt: real)
    : (r: PassState)
    requires 0.0 < dt
    requires forall k :: k in selves ==> k in s.players
    requires forall k :: k in order ==> k in s.players
    ensures SameIds(s.players, r.players)
    decreases |selves|
  {
    if |selves| == 0 then s
    else
      var prev := CollisionPhase(cs, s, selves[..|selves| - 1], order, dt);
      var r := CollisionStep(cs, prev, selves[|selves| - 1], order, dt);
      SameIdsTransitive(s.players, prev.players, r.players);
      r
  }

  /** The collision loop of `applyPhysics`: one fresh handled set for the whole loop; the
      events passed to the callback are returned, with the id pairs of the player-player
      collisions that ran. */
  method Collisions(cs: Callees, room: Room, dt: real)
    returns (damages: seq<Damage>, collided: seq<(string, string)>)
    requires room.Valid() && 0.0 < dt
    modifies room
    ensures room.Valid() && room.order == old(room.order)
    ensures var r := CollisionPhase(cs, PassState(old(room.players), {}, [], []), room.order,
                                    room.order, dt);
      room.players == r.players && damages == r.damages && collided == r.collided
  {
    ghost var start := PassState(room.players, {}, [], []);
    var keys := room.order;
    var handled: set<string> := {};
    damages, collided := [], [];
    var i := 0;
    while i < |keys|
      invariant 0 <= i <= |keys| && room.order == keys && room.Valid()
      invariant forall k :: k in keys ==> k in start.players
      invariant PassState(room.players, handled, damages, collided)
        == CollisionPhase(cs, start, keys[..i], keys, dt)
    {
      handled, damages, collided := CollisionRound(cs, room, start, i, handled, damages,
                                                   collided, dt);
      i := i + 1;
    }
    assert keys[..i] == keys;
  }

  /** The loop over one more player is one more step. */
  lemma CollisionPhaseSnoc(cs: Callees, s: PassState, keys: seq<string>, i: int, dt: real)
    requires 0 <= i < |keys| && 0.0 < dt
    requires forall k :: k in keys ==> k in s.players
    ensures CollisionPhase(cs, s, keys[..i + 1], keys, dt)
      == CollisionStep(cs, CollisionPhase(cs, s, keys[..i], keys, dt), keys[i], keys, dt)
  {
    assert keys[..i + 1][..i] == keys[..i] && keys[..i + 1][i] == keys[i];
  }

  /** The body of the collision loop for the player at position `i` of the key order:
      the loop over the players before it, from `start`, becomes the loop over one more. */
  method CollisionRound(cs: Callees, room: Room, ghost start: PassState, i: int,
                        handled: set<string>, damages: seq<Damage>,
                        collided: seq<(string, string)>, dt: real)
    returns (handledOut: set<string>, damagesOut: seq<Damage>,
             collidedOut: seq<(string, string)>)
    requires room.Valid() && 0 <= i < |room.order| && 0.0 < dt
    requires forall k :: k in room.order ==> k in start.players
    requires PassState(room.players, handled, damages, collided)
      == CollisionPhase(cs, start, room.order[..i], room.order, dt)
    modifies room
    ensures room.Valid() && room.order == old(room.order)
    ensures PassState(room.players, handledOut, damagesOut, collidedOut)
      == CollisionPhase(cs, start, room.order[..i + 1], room.order, dt)
  {
    CollisionPhaseSnoc(cs, start, room.order, i, dt);
    var self := room.order[i];
    var playerDamages, pairs;
    handledOut, playerDamages, pairs := PlayerCollisions(cs, room, self, handled, dt);
    var weaponDamages := WeaponCollisions(cs, room, self, dt);
    damagesOut := damages + playerDamages + weaponDamages;
    collidedOut := collided + pairs;
  }

  // ---------------------------------------------------------------- applyPhysics

  /** The records after each phase of a tick, and the events of the collision phase. */
  datatype Tick = Tick(moved: map<string, Player>, collision: PassState,
                       bounded: map<string, Player>, slowed: map<string, Player>)

  /** The records after the move phase. */
  function MovedAll(m: Math, cs: Callees, config: RoomConfig, players: map<string, Player>,
                    dt: real)
    : (r: map<string, Player>)
    requires 0.0 < dt
    ensures r.Keys == players.Keys
  {
    map k | k in players :: Moved(m, cs, config, dt, players[k])
  }

  /** The records after the limits phase. */
  function BoundedAll(cs: Callees, config: RoomConfig, players: map<string, Player>, dt: real)
    : (r: map<string, Player>)
    ensures r.Keys == players.Keys
  {
    map k | k in players :: Bounded(cs, config, dt, players[k])
  }

  /** The records after the friction phase. */
  function SlowedAll(cs: Callees, config: RoomConfig, players: map<string, Player>, dt: real)
    : (r: map<string, Player>)
    ensures r.Keys == players.Keys
  {
    map k | k in players :: Slowed(cs, config, dt, players[k])
  }

  /** A tick of the room's records in the given key order. */
  function TickOf(m: Math, cs: Callees, config: RoomConfig, players: map<string, Player>,
                  order: seq<string>, dt: real)
    : (t: Tick)
    requires WellOrdered(players, order) && 0.0 < dt
    ensures t.moved.Keys == t.collision.players.Keys == t.bounded.Keys == t.slowed.Keys
      == players.Keys
  {
    var moved := MovedAll(m, cs, config, players, dt);
    var collision := CollisionPhase(cs, PassState(moved, {}, [], []), order, order, dt);
    var bounded := BoundedAll(cs, config, collision.players, dt);
    Tick(moved, collision, bounded, SlowedAll(cs, config, bounded, dt))
  }

  /** `applyPhysics(room, elapsedTime, onPlayerDamage)`: the four phases in order; the
      events passed to the callback, all from the collision phase, are returned. */
  method ApplyPhysics(m: Math, cs: Callees, room: Room, dt: real) returns (damages: seq<Damage>)
    requires room.Valid() && 0.0 < dt
    modifies room
    ensures room.Valid() && room.order == old(room.order)
    ensures var t := TickOf(m, cs, room.config, old(room.players), room.order, dt);
      room.players == t.slowed && damages == t.collision.damages
  {
    ghost var t := TickOf(m, cs, room.config, room.players, room.order, dt);
    MovePhase(m, cs, room, dt);
    var collided;
    damages, collided := Collisions(cs, room, dt);
    LimitsPhase(cs, room, dt);
    FrictionPhase(cs, room, dt);
  }

  /** The move loop of `applyPhysics`. */
  method MovePhase(m: Math, cs: Callees, room: Room, dt: real)
    requires room.Valid() && 0.0 < dt
    modifies room
    ensures room.Valid() && room.order == old(room.order)
    ensures room.players == MovedAll(m, cs, room.config, old(room.players), dt)
  {
    var config := room.config;
    EachPlayer(room, (p: Player) => Moved(m, cs, config, dt, p));
  }

  /** The limits loop of `applyPhysics`. */
  method LimitsPhase(cs: Callees, room: Room, dt: real)
    requires room.Valid()
    modifies room
    ensures room.Valid() && room.order == old(room.order)
    ensures room.players == BoundedAll(cs, room.config, old(room.players), dt)
  {
    var config := room.config;
    EachPlayer(room, (p: Player) => Bounded(cs, config, dt, p));
  }

  /** The friction loop of `applyPhysics`. */
  method FrictionPhase(cs: Callees, room: Room, dt: real)
    requires room.Valid()
    modifies room
    ensures room.Valid() && room.order == old(room.order)
    ensures room.players == SlowedAll(cs, room.config, old(room.players), dt)
  {
    var config := room.config;
    EachPlayer(room, (p: Player) => Slowed(cs, config, dt, p));
  }

  // ---------------------------------------------------------------- each pair collides once

  /** For records stored under their own ids, the handled set and the collision list of
      the collision loop are its bookkeeping, and the ids stay the keys. */
  lemma {:induction false} CollisionPhaseBooks(cs: Callees, s: PassState, selves: seq<string>,
                                               order: seq<string>, dt: real)
    requires IdsAreKeys(s.players, order) && 0.0 < dt
    requires forall k :: k in selves ==> k in order
    ensures var r := CollisionPhase(cs, s, selves, order, dt);
      && Books(r.handled, r.collided) == BooksPhase(PairKey, Books(s.handled, s.collided), selves, order)
      && IdsAreKeys(r.players, order)
    decreases |selves|
  {
    if |selves| > 0 {
      var init, self := selves[..|selves| - 1], selves[|selves| - 1];
      assert forall k :: k in init ==> k in selves;
      CollisionPhaseBooks(cs, s, init, order, dt);
      var prev := CollisionPhase(cs, s, init, order, dt);
      assert self in order;
      var start := PassState(prev.players, prev.handled, [], []);
      assert forall k :: k in [self] + order ==> k in order;
      PlayerPassBooks(cs, start, self, order, dt);
      var r1 := PlayerPass(cs, start, self, order, dt);
      var r2 := WeaponPass(cs, r1.players, self, order, dt);
      IdsKept(prev.players, r2.players, order);
      assert CollisionPhase(cs, s, selves, order, dt) == CollisionStep(cs, prev, self, order, dt);
    }
  }

  /** In a tick over records stored under their own ids, the player-player collision
      routine runs once for each pair of players, the earlier in key order first, and
      for no other pair. */
  lemma TickCollidesEachPairOnce(m: Math, cs: Callees, config: RoomConfig,
                                 players: map<string, Player>, order: seq<string>, dt: real)
    requires WellOrdered(players, order) && KeyIsId(players) && 0.0 < dt
    requires PairKeysDistinct(order)
    ensures TickOf(m, cs, config, players, order, dt).collision.collided
      == AllPairs(order, |order|)
  {
    var moved := MovedAll(m, cs, config, players, dt);
    assert IdsAreKeys(moved, order);
    CollisionPhaseBooks(cs, PassState(moved, {}, [], []), order, order, dt);
    DistinctUnique(order);
    BooksPhaseOnce(PairKey, order, |order|);
    assert order[..|order|] == order;
  }
}
