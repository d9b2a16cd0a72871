/** The dispatch from a player's weapon to the routines of its type. Only the flail is
    dispatched: a player with an aura or a sword has no weapon movement and no weapon
    collision pass in these two routines. */
module PhysicsWeapon {
  import opened Types
  import opened Numerics
  import opened PhysicsCommon
  import opened PhysicsFlail

  /** `moveWeapon(player, room, elapsedTime)`: a flail is moved with its owner's position
      and the room's gravity; any other weapon is left as it is. */
  function MoveWeapon(m: Math, cs: Callees, p: Player, config: RoomConfig, dt: real)
    : (r: Player)
    requires 0.0 < dt
    ensures r == p.(weapon := r.weapon)
    ensures WeaponType(r.weapon) == WeaponType(p.weapon)
    ensures p.weapon.Flail? ==>
      r.weapon == MoveFlail(m, cs, p.weapon, p.position, config.gravity, dt)
    ensures !p.weapon.Flail? ==> r == p
  {
    match p.weapon
    case Flail(_, _, _, _, _, _) =>
      p.(weapon := MoveFlail(m, cs, p.weapon, p.position, config.gravity, dt))
    case Aura(_, _, _) => p
    case Sword(_, _, _, _, _, _, _, _, _) => p
  }

  /** What `handleWeaponCollisions` does to the records and which events it reports, for
      the player stored under `self`: the flail pass for a flail, nothing otherwise. */
  function WeaponPass(cs: Callees, players: map<string, Player>, self: string,
                      order: seq<string>, dt: real)
    : (r: PassState)
    requires self in players && 0.0 < dt
    requires forall k :: k in order ==> k in players
    ensures SameIds(players, r.players) && r.handled == {} && r.collided == []
    ensures !players[self].weapon.Flail? ==> r == PassState(players, {}, [], [])
  {
    if players[self].weapon.Flail?
    then FlailPass(cs, PassState(players, {}, [], []), self, order, dt)
    else PassState(players, {}, [], [])
  }

  /** Every event of the weapon dispatch is a positive weaponCollision that the player
      stored under `self` caused to somebody else; a player without a flail causes none. */
  lemma WeaponPassEvents(cs: Callees, players: map<string, Player>, self: string,
                         order: seq<string>, dt: real)
    requires self in players && 0.0 < dt
    requires forall k :: k in order ==> k in players
    ensures var r := WeaponPass(cs, players, self, order, dt);
      && (forall d :: d in r.damages ==> OwnerEvent(d, players[self].id))
      && (!players[self].weapon.Flail? ==> r.damages == [])
  {
    if players[self].weapon.Flail? {
      FlailPassEvents(cs, PassState(players, {}, [], []), self, order, dt);
    }
  }

  /** `handleWeaponCollisions(player, room, elapsedTime, onPlayerDamage)` for the player
      stored under `self`; the events passed to the callback are returned. */
  method WeaponCollisions(cs: Callees, room: Room, self: string, dt: real)
    returns (damages: seq<Damage>)
    requires room.Valid() && self in room.players && 0.0 < dt
    modifies room
    ensures room.Valid() && room.order == old(room.order)
    ensures var r := WeaponPass(cs, old(room.players), self, room.order, dt);
      room.players == r.players && damages == r.damages
  {
    match room.players[self].weapon {
      case Flail(_, _, _, _, _, _) =>
        damages := FlailCollisions(cs, room, self, dt);
      case Aura(_, _, _) =>
        damages := [];
      case Sword(_, _, _, _, _, _, _, _, _) =>
        damages := [];
    }
  }
}
