/** The first server's room tick (`updateRoom` of server/logic.ts): physics, the damage
    loop, then every dead player is announced and deleted straight from the room; the room
    itself is never deleted. */
module LegacyLogic {
  import opened Types
  import opened Numerics
  import opened PhysicsCommon
  import opened Physics
  import opened RoomTick

  /** The state of the removal loop: the records and their key order, the notices sent so
      far, and whether every dead id was found. */
  datatype Cleared = Cleared(players: map<string, Player>, order: seq<string>,
                             notices: seq<Notice>, ok: bool)

  /** The removal loop after its first i dead ids: each is looked up, announced with
      playerDied and deleted under that id; a missing one stops the loop. */
  function LegacyEvictions(roomId: int, players: map<string, Player>, order: seq<string>,
                           dead: seq<string>, i: nat)
    : (r: Cleared)
    requires i <= |dead|
  {
    if i == 0 then Cleared(players, order, [], true)
    else
      var prev := LegacyEvictions(roomId, players, order, dead, i - 1);
      var id := dead[i - 1];
      if !prev.ok then prev
      else if id !in prev.players then prev.(ok := false)
      else Cleared(prev.players - {id}, Without(prev.order, id),
                   prev.notices + [PlayerDied(roomId, prev.players[id])], true)
  }

  /** The playerDied notices for the first i dead ids, with the records they had. */
  function Deaths(roomId: int, players: map<string, Player>, dead: seq<string>, i: nat)
    : (r: seq<Notice>)
    requires i <= |dead| && forall x :: x in dead ==> x in players
    ensures |r| == i
  {
    if i == 0 then []
    else Deaths(roomId, players, dead, i - 1) + [PlayerDied(roomId, players[dead[i - 1]])]
  }

  /** When the dead ids are distinct keys of the room, the loop never stops early: every
      dead player is announced once, in set order, and removed, and every other player
      keeps its record. */
  lemma {:induction false} LegacyEvictionsComplete(roomId: int, players: map<string, Player>,
                                                   order: seq<string>, dead: seq<string>,
                                                   i: nat)
    requires i <= |dead| && Distinct(dead) && forall x :: x in dead ==> x in players
    ensures var r := LegacyEvictions(roomId, players, order, dead, i);
      && r.ok
      && (forall k :: k in r.players <==> k in players && k !in dead[..i])
      && (forall k :: k in r.players ==> r.players[k] == players[k])
      && r.notices == Deaths(roomId, players, dead, i)
  {
    if i > 0 {
      LegacyEvictionsComplete(roomId, players, order, dead, i - 1);
      var prev := LegacyEvictions(roomId, players, order, dead, i - 1);
      var id := dead[i - 1];
      assert id !in dead[..i - 1];
      assert dead[..i] == dead[..i - 1] + [id];
    }
  }

  /** After a damage loop that found every target, on records stored under their own ids,
      the removal loop finds every dead player: exactly the players the damage left with no
      health are announced, once each, and deleted, and the others keep their records. */
  lemma LegacyRemovesTheDead(roomId: int, players: map<string, Player>, order: seq<string>,
                             damages: seq<Damage>)
    requires KeyIsId(players)
    requires DamageFold(players, damages, |damages|).missing.None?
    ensures var hurt := DamageFold(players, damages, |damages|);
      var r := LegacyEvictions(roomId, hurt.players, order, hurt.dead, |hurt.dead|);
      && r.ok
      && (forall k :: k in r.players <==> k in players && k !in hurt.dead)
      && (forall k :: k in r.players ==> r.players[k] == hurt.players[k])
      && (forall x :: x in hurt.dead ==> x in hurt.players)
      && r.notices == Deaths(roomId, hurt.players, hurt.dead, |hurt.dead|)
  {
    var hurt := DamageFold(players, damages, |damages|);
    DeadAreKeys(players, damages, |damages|);
    DeadDistinct(players, damages, |damages|);
    LegacyEvictionsComplete(roomId, hurt.players, order, hurt.dead, |hurt.dead|);
    assert hurt.dead[..|hurt.dead|] == hurt.dead;
  }

  /** The loop keeps the key order in step with the records. */
  lemma {:induction false} LegacyEvictionsOrdered(roomId: int, players: map<string, Player>,
                                                  order: seq<string>, dead: seq<string>,
                                                  i: nat)
    requires i <= |dead| && WellOrdered(players, order)
    ensures var r := LegacyEvictions(roomId, players, order, dead, i);
      WellOrdered(r.players, r.order)
  {
    if i > 0 {
      LegacyEvictionsOrdered(roomId, players, order, dead, i - 1);
      var prev := LegacyEvictions(roomId, players, order, dead, i - 1);
      WithoutDistinct(prev.order, dead[i - 1]);
    }
  }

  /** `for (const deadPlayerId of deadPlayerIds)`: announce, then delete. */
  method LegacyEvict(room: Room, dead: seq<string>) returns (ok: bool, ghost notices: seq<Notice>)
    requires room.Valid()
    modifies room
    ensures room.Valid()
    ensures var r := LegacyEvictions(room.config.id, old(room.players), old(room.order), dead,
                                     |dead|);
      room.players == r.players && room.order == r.order && notices == r.notices && ok == r.ok
  {
    ghost var players0, order0 := room.players, room.order;
    notices := [];
    var i := 0;
    while i < |dead|
      invariant 0 <= i <= |dead| && room.Valid()
      invariant LegacyEvictions(room.config.id, players0, order0, dead, i)
        == Cleared(room.players, room.order, notices, true)
    {
      var deadPlayerId := dead[i];
      if deadPlayerId !in room.players {
        LegacyEvictionsStop(room.config.id, players0, order0, dead, i + 1, |dead|);
        ok := false;
        return;
      }
      var deadPlayer := room.players[deadPlayerId];
      notices := notices + [PlayerDied(room.config.id, deadPlayer)];
      room.Delete(deadPlayerId);
      i := i + 1;
    }
    ok := true;
  }

  /** Once the loop has stopped, later ids change nothing. */
  lemma {:induction false} LegacyEvictionsStop(roomId: int, players: map<string, Player>,
                                               order: seq<string>, dead: seq<string>,
                                               i: nat, j: nat)
    requires i <= j <= |dead| && !LegacyEvictions(roomId, players, order, dead, i).ok
    ensures LegacyEvictions(roomId, players, order, dead, j)
      == LegacyEvictions(roomId, players, order, dead, i)
  {
    if i < j {
      LegacyEvictionsStop(roomId, players, order, dead, i, j - 1);
    }
  }

  /** What one call of the legacy `updateRoom` does to the room: the physics tick, the
      damage loop on its events and the removal loop on the dead set. */
  ghost function LegacyOutcome(m: Math, cs: Callees, config: RoomConfig,
                               players: map<string, Player>, order: seq<string>, dt: real)
    : (r: (Damaged, Cleared))
    requires WellOrdered(players, order) && 0.0 < dt
  {
    var tick := TickOf(m, cs, config, players, order, dt);
    var damages := tick.collision.damages;
    var hurt := DamageFold(tick.slowed, damages, |damages|);
    (hurt, LegacyEvictions(config.id, hurt.players, order, hurt.dead, |hurt.dead|))
  }

  /** `updateRoom(room, elapsedTime)` of server/logic.ts. It returns false where the source
      fails an assertion (an event or a dead id naming a player that is not in the room),
      with the room as the loops left it; otherwise the notices end with roomUpdated. */
  method LegacyUpdateRoom(m: Math, cs: Callees, room: Room, dt: real)
    returns (ok: bool, ghost notices: seq<Notice>)
    requires room.Valid() && 0.0 < dt
    modifies room
    ensures room.Valid()
    ensures var (hurt, cleared) := LegacyOutcome(m, cs, room.config, old(room.players),
                                                 old(room.order), dt);
      && ok == (hurt.missing.None? && cleared.ok)
      && (hurt.missing.Some? ==> room.players == hurt.players && notices == [])
      && (hurt.missing.None? ==> room.players == cleared.players && room.order == cleared.order)
      && (hurt.missing.None? && !ok ==> notices == cleared.notices)
      && (ok ==> notices == cleared.notices + [RoomUpdated(room.config.id, room.players)])
  {
    var damages := ApplyPhysics(m, cs, room, dt);
    var dead;
    dead, ok := ApplyDamages(room, damages);
    if !ok {
      notices := [];
      return;
    }
    ok, notices := LegacyEvict(room, dead);
    if ok {
      notices := notices + [RoomUpdated(room.config.id, room.players)];
    }
  }
}
