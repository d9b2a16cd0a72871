/** The part of a room tick that follows the physics step and is the same in every room
    controller: the damage events are applied to the players in list order, and the ids of
    the players whose health dropped to zero or below are collected, each once, in the
    order a JavaScript Set keeps them. */
module RoomTick {
  import opened Types

  /** What the server broadcasts to the clients of a room. */
  datatype Notice =
    | PlayerDied(roomId: int, player: Player)
    | PlayerLeft(roomId: int, player: Player)
    | RoomUpdated(roomId: int, players: map<string, Player>)

  /** The state of the damage loop: the records, the dead ids so far, and the target that
      was not found, if the loop stopped at one (the source's assertion failure). */
  datatype Damaged = Damaged(players: map<string, Player>, dead: seq<string>,
                             missing: Option<string>)

  /** One pass of the loop body: the named player loses the amount, and joins the dead
      set when its health is no longer positive. A missing target stops the loop. */
  function DamageStep(s: Damaged, d: Damage): (r: Damaged)
    ensures forall k :: k in r.players <==> k in s.players
  {
    var key := d.damagedPlayerId;
    if s.missing.Some? then s
    else if key !in s.players then s.(missing := Some(key))
    else
      var hit := Hurt(s.players[key], d.amount);
      Damaged(s.players[key := hit], Mourn(s.dead, hit), None)
  }

  /** `damagedPlayer.health -= damage.amount`. */
  function Hurt(p: Player, amount: real): (r: Player)
    ensures r == p.(health := r.health) && r.health == p.health - amount
  {
    p.(health := p.health - amount)
  }

  /** `if (damagedPlayer.health <= 0) deadPlayerIds.add(damagedPlayer.id)`: a Set keeps
      the first insertion only. */
  function Mourn(dead: seq<string>, hit: Player): (r: seq<string>)
    ensures hit.health <= 0.0 && hit.id !in dead ==> r == dead + [hit.id]
    ensures !(hit.health <= 0.0 && hit.id !in dead) ==> r == dead
  {
    if hit.health <= 0.0 && hit.id !in dead then dead + [hit.id] else dead
  }

  /** The damage loop after its first i events. */
  function DamageFold(players: map<string, Player>, damages: seq<Damage>, i: nat): (r: Damaged)
    requires i <= |damages|
    ensures forall k :: k in r.players <==> k in players
  {
    if i == 0 then Damaged(players, [], None)
    else DamageStep(DamageFold(players, damages, i - 1), damages[i - 1])
  }

  /** The total amount of the first i events that are aimed at `key`. */
  function TotalDamage(damages: seq<Damage>, i: nat, key: string): real
    requires i <= |damages|
  {
    if i == 0 then 0.0
    else
      var d := damages[i - 1];
      TotalDamage(damages, i - 1, key) + (if d.damagedPlayerId == key then d.amount else 0.0)
  }

  /** Once the loop has stopped at a missing target, later events change nothing. */
  lemma {:induction false} FoldStops(players: map<string, Player>, damages: seq<Damage>,
                                     i: nat, j: nat)
    requires i <= j <= |damages| && DamageFold(players, damages, i).missing.Some?
    ensures DamageFold(players, damages, j) == DamageFold(players, damages, i)
  {
    if i < j {
      FoldStops(players, damages, i, j - 1);
    }
  }

  /** The loop gets past the first i events exactly when each of them names a key of the
      room. */
  lemma {:induction false} MissingTarget(players: map<string, Player>, damages: seq<Damage>,
                                         i: nat)
    requires i <= |damages|
    ensures DamageFold(players, damages, i).missing.None?
      <==> forall j :: 0 <= j < i ==> damages[j].damagedPlayerId in players
  {
    if i > 0 {
      MissingTarget(players, damages, i - 1);
    }
  }

  /** Without a missing target, every player ends with its health minus the total amount
      aimed at it, and nothing else in its record changes. */
  lemma {:induction false} DamageHealth(players: map<string, Player>, damages: seq<Damage>,
                                        i: nat)
    requires i <= |damages|
    ensures var r := DamageFold(players, damages, i);
      r.missing.None? ==>
        forall k :: k in players ==>
          r.players[k] == players[k].(health := players[k].health - TotalDamage(damages, i, k))
  {
    if i > 0 {
      DamageHealth(players, damages, i - 1);
    }
  }

  /** A player that none of the first i events names keeps its record, whether or not the
      loop stops. */
  lemma {:induction false} DamageUntouched(players: map<string, Player>, damages: seq<Damage>,
                                           i: nat, key: string)
    requires i <= |damages| && key in players
    requires forall j :: 0 <= j < i ==> damages[j].damagedPlayerId != key
    ensures DamageFold(players, damages, i).players[key] == players[key]
  {
    if i > 0 {
      DamageUntouched(players, damages, i - 1, key);
    }
  }

  /** Right after event i, the record that event hit has id x and health at most zero. */
  ghost predicate KilledAt(players: map<string, Player>, damages: seq<Damage>, i: nat,
                           x: string)
    requires i < |damages|
  {
    var r := DamageFold(players, damages, i + 1);
    var key := damages[i].damagedPlayerId;
    && r.missing.None? && key in r.players
    && r.players[key].id == x && r.players[key].health <= 0.0
  }

  /** `deadPlayerIds` holds x exactly when some event left the record it hit, of id x, with
      no health left. */
  lemma {:induction false} DeadExactly(players: map<string, Player>, damages: seq<Damage>,
                                       i: nat, x: string)
    requires i <= |damages|
    ensures x in DamageFold(players, damages, i).dead
      <==> exists j :: 0 <= j < i && KilledAt(players, damages, j, x)
  {
    if i > 0 {
      var prev := DamageFold(players, damages, i - 1);
      var r := DamageFold(players, damages, i);
      DeadExactly(players, damages, i - 1, x);
      if x in r.dead && x !in prev.dead {
        assert KilledAt(players, damages, i - 1, x);
      }
      if KilledAt(players, damages, i - 1, x) {
        assert x in r.dead;
      }
    }
  }

  /** Each dead id is collected once. */
  lemma {:induction false} DeadDistinct(players: map<string, Player>, damages: seq<Damage>,
                                        i: nat)
    requires i <= |damages|
    ensures Distinct(DamageFold(players, damages, i).dead)
  {
    if i > 0 {
      var prev := DamageFold(players, damages, i - 1);
      DeadDistinct(players, damages, i - 1);
      var r := DamageStep(prev, damages[i - 1]);
      if r.dead != prev.dead {
        var x := r.dead[|r.dead| - 1];
        assert r.dead == prev.dead + [x] && x !in prev.dead;
      }
    }
  }

  /** The records keep their ids. */
  lemma {:induction false} DamageKeepsIds(players: map<string, Player>, damages: seq<Damage>,
                                          i: nat)
    requires i <= |damages|
    ensures var r := DamageFold(players, damages, i);
      forall k :: k in players ==> r.players[k].id == players[k].id
  {
    if i > 0 {
      DamageKeepsIds(players, damages, i - 1);
    }
  }

  /** When every record is stored under its own id, so is every record after the loop,
      and each dead id is a key of the room. */
  lemma {:induction false} DeadAreKeys(players: map<string, Player>, damages: seq<Damage>,
                                       i: nat)
    requires i <= |damages| && KeyIsId(players)
    ensures var r := DamageFold(players, damages, i);
      KeyIsId(r.players) && forall x :: x in r.dead ==> x in players
  {
    DamageKeepsIds(players, damages, i);
    if i > 0 {
      DeadAreKeys(players, damages, i - 1);
    }
  }

  /** The loop `for (const damage of damages)` of every room controller. It returns the
      dead set and whether the loop ran to the end; when it stops at a missing target, the
      events before it have already been applied. */
  method ApplyDamages(room: Room, damages: seq<Damage>) returns (dead: seq<string>, ok: bool)
    requires room.Valid()
    modifies room
    ensures room.Valid() && room.order == old(room.order)
    ensures var r := DamageFold(old(room.players), damages, |damages|);
      room.players == r.players && dead == r.dead && ok == r.missing.None?
  {
    ghost var start := room.players;
    dead := [];
    var i := 0;
    while i < |damages|
      invariant 0 <= i <= |damages|
      invariant room.Valid() && room.order == old(room.order)
      invariant DamageFold(start, damages, i) == Damaged(room.players, dead, None)
    {
      var damage := damages[i];
      if damage.damagedPlayerId !in room.players {
        FoldStops(start, damages, i + 1, |damages|);
        ok := false;
        return;
      }
      var hit := Hurt(room.players[damage.damagedPlayerId], damage.amount);
      room.Put(damage.damagedPlayerId, hit);
      dead := Mourn(dead, hit);
      i := i + 1;
    }
    ok := true;
  }
}
