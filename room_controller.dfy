/** The room controllers of the server (`BaseRoomController` and its closure form
    `makeBaseRoomController`, and the load-test room's override of `disconnectPlayer`): a
    player joins at the centre of the room, a player leaves from the room and the two
    server-wide maps, and a room tick steers the bots, runs the physics, applies the damage,
    disconnects every dead player once and deletes the room once no human is left. */
module RoomControllers {
  import opened Types
  import opened Numerics
  import opened Vector
  import opened PhysicsCommon
  import opened Physics
  import opened RoomTick
  import opened ServerWorld
  import opened Digits
  import opened BotSeats

  /** `BaseRoomController.makeRoom(roomId)`: the settings of every base room, which starts
      with no players. */
  function BaseRoomConfig(roomId: int): (c: RoomConfig)
    ensures c.id == roomId && c.maxPlayers == 5
    ensures c.size == Xy(2000.0, 2000.0) && c.gravity == Xy(0.0, 200.0)
    ensures c.maxPlayerSpeed == 500.0 && c.maxPlayerAcceleration == 400.0
  {
    RoomConfig(roomId, 5, Xy(2000.0, 2000.0), Xy(0.0, 200.0), 500.0, 400.0)
  }

  /** Which `disconnectPlayer` a controller runs: the base one, or the load-test room's,
      which seats a bot again under the number read from the leaving player's id. `nanX`
      stands for the x coordinate NaN of the bot seated when that number is NaN. */
  datatype Kind = Base | LoadTest(botCount: nat, makeBot: BotMaker, nanX: real)

  /** `updateBots(room)` of server/logic/logic.ai.ts, which is not part of this model: each
      record is replaced by some function of it and of the room's records before the step. */
  type BotStep = (map<string, Player>, Player) -> Player

  /** The state a controller touches: its room's records and their key order, the
      server-wide `playersById` and the keys of `socketsById`, and the broadcast notices. */
  datatype Hub = Hub(players: map<string, Player>, order: seq<string>,
                     playersById: map<string, Player>, sockets: set<string>,
                     notices: seq<Notice>)

  /** The outcome of the removal loop: the state, and whether every dead id was found. */
  datatype Evicted = Evicted(hub: Hub, ok: bool)

  /** `room.players[key] = p` on the hub. */
  function Seated(h: Hub, key: string, p: Player): Hub {
    h.(players := h.players[key := p],
       order := if key in h.players then h.order else h.order + [key])
  }

  /** After `joinPlayer`: the record is registered under its id in the room and in
      `playersById`, and the id gets a socket. */
  function Joined(h: Hub, p: Player): Hub {
    Seated(h, p.id, p).(playersById := h.playersById[p.id := p], sockets := h.sockets + {p.id})
  }

  /** After `disconnectPlayer`: the base controller deletes the id from the room and both
      maps and announces playerLeft; the load-test room then seats bot n when the id reads
      as `_BOT_<n>`, and the bot `_BOT_NaN` when the id's number is NaN. */
  function Disconnected(kind: Kind, config: RoomConfig, h: Hub, p: Player): (r: Hub)
    ensures p.id !in r.playersById && p.id !in r.sockets
    ensures r.notices == h.notices + [PlayerLeft(config.id, p)]
  {
    var left := Hub(h.players - {p.id}, Without(h.order, p.id), h.playersById - {p.id},
                    h.sockets - {p.id}, h.notices + [PlayerLeft(config.id, p)]);
    match kind
    case Base => left
    case LoadTest(botCount, makeBot, nanX) =>
      match SeatFor(config, makeBot, botCount, nanX, p.id)
      case Some(seat) => Seated(left, seat.key, seat.bot)
      case None => left
  }

  /** One pass of the removal loop: the dead id is looked up in the room, announced with
      playerDied and disconnected; a missing one stops the loop, and a stopped loop does
      nothing more. */
  function Pass(kind: Kind, config: RoomConfig, e: Evicted, id: string): (r: Evicted)
    ensures r.ok <==> e.ok && id in e.hub.players
  {
    if !e.ok then e
    else if id !in e.hub.players then Evicted(e.hub, false)
    else
      var p := e.hub.players[id];
      var announced := e.hub.(notices := e.hub.notices + [PlayerDied(config.id, p)]);
      Evicted(Disconnected(kind, config, announced, p), true)
  }

  /** The removal loop of `updateRoom` after its first i dead ids. */
  function Evictions(kind: Kind, config: RoomConfig, h: Hub, dead: seq<string>, i: nat)
    : (r: Evicted)
    requires i <= |dead|
  {
    PassesUpTo(kind, config, h, dead, i)
  }

  /** The first i passes, one after the other. `Evictions` names their outcome, so that a
      proof about it sees one pass at a time. */
  function PassesUpTo(kind: Kind, config: RoomConfig, h: Hub, dead: seq<string>, i: nat)
    : (r: Evicted)
    requires i <= |dead|
  {
    if i == 0 then Evicted(h, true)
    else Pass(kind, config, PassesUpTo(kind, config, h, dead, i - 1), dead[i - 1])
  }

  /** The notices of the first i dead players: playerDied, then playerLeft, each with the
      record the player had. */
  function Farewells(roomId: int, players: map<string, Player>, dead: seq<string>, i: nat)
    : (r: seq<Notice>)
    requires i <= |dead| && forall x :: x in dead ==> x in players
    ensures |r| == 2 * i
  {
    if i == 0 then []
    else
      var p := players[dead[i - 1]];
      Farewells(roomId, players, dead, i - 1) + [PlayerDied(roomId, p), PlayerLeft(roomId, p)]
  }

  /** `Object.values(room.players).some((p) => !p.isBot)`. */
  predicate HasHuman(players: map<string, Player>) {
    exists k :: k in players && !players[k].isBot
  }

  /** The records after the bots step. */
  function Steered(bots: BotStep, players: map<string, Player>): (r: map<string, Player>)
    ensures r.Keys == players.Keys
  {
    map k | k in players :: bots(players, players[k])
  }

  /** What one `updateRoom(elapsedTime)` does before the room is checked for humans: the
      bots step, the physics tick, the damage loop on the tick's events and the removal
      loop on the dead set. */
  ghost function Outcome(m: Math, cs: Callees, kind: Kind, config: RoomConfig, h: Hub,
                         bots: BotStep, dt: real)
    : (r: (Damaged, Evicted))
    requires WellOrdered(h.players, h.order) && 0.0 < dt
  {
    var tick := TickOf(m, cs, config, Steered(bots, h.players), h.order, dt);
    var damages := tick.collision.damages;
    var hurt := DamageFold(tick.slowed, damages, |damages|);
    (hurt, Evictions(kind, config, h.(players := hurt.players), hurt.dead, |hurt.dead|))
  }

  // ---------------------------------------------------------------- properties

  /** Deleting a key that was just appended gives the order back. */
  lemma {:induction false} WithoutAppended(order: seq<string>, key: string)
    requires key !in order
    ensures Without(order + [key], key) == order
  {
    if |order| > 0 {
      assert (order + [key])[1..] == order[1..] + [key];
      WithoutAppended(order[1..], key);
    }
  }

  /** A player who joins under a fresh id and then leaves the base room leaves the room and
      both maps as they were; only the playerLeft notice remains. */
  lemma JoinThenLeave(config: RoomConfig, h: Hub, p: Player)
    requires WellOrdered(h.players, h.order)
    requires p.id !in h.players && p.id !in h.playersById && p.id !in h.sockets
    ensures Disconnected(Base, config, Joined(h, p), p)
      == h.(notices := h.notices + [PlayerLeft(config.id, p)])
  {
    WithoutAppended(h.order, p.id);
    assert h.players[p.id := p] - {p.id} == h.players;
    assert h.playersById[p.id := p] - {p.id} == h.playersById;
    assert (h.sockets + {p.id}) - {p.id} == h.sockets;
  }

  /** The load-test room reads back the number of a leaving bot and seats that bot again
      under the same id, now last in key order and with a fresh record. */
  lemma BotRespawned(config: RoomConfig, botCount: nat, makeBot: BotMaker, nanX: real,
                     h: Hub, p: Player, n: nat)
    requires p.id == BotId(n)
    ensures var r := Disconnected(LoadTest(botCount, makeBot, nanX), config, h, p);
      && r.players == h.players[p.id := Bot(config, makeBot, botCount, n)]
      && r.order == Without(h.order, p.id) + [p.id]
      && r.playersById == h.playersById - {p.id} && r.sockets == h.sockets - {p.id}
      && r.notices == h.notices + [PlayerLeft(config.id, p)]
  {
    BotIdRoundTrip(n);
    assert (h.players - {p.id})[p.id := Bot(config, makeBot, botCount, n)]
      == h.players[p.id := Bot(config, makeBot, botCount, n)];
  }

  /** A player whose id's number is NaN, as a human's usually is, leaves the load-test room
      and the bot `_BOT_NaN` is written into it: last in key order when it is new, with a
      fresh record when it is already seated. */
  lemma NaNBotSeated(config: RoomConfig, botCount: nat, makeBot: BotMaker, nanX: real,
                     h: Hub, p: Player)
    requires NaNTail(p.id)
    ensures var r := Disconnected(LoadTest(botCount, makeBot, nanX), config, h, p);
      && r.players == (h.players - {p.id})[NAN_BOT_ID := NaNBot(config, makeBot, nanX)]
      && r.order == if NAN_BOT_ID in h.players - {p.id} then Without(h.order, p.id)
                    else Without(h.order, p.id) + [NAN_BOT_ID]
  {
    NaNTailNoNumber(p.id);
  }

  /** The leaving id stays in the room only when the load-test room seats a bot under it:
      a bot id, or `_BOT_NaN`. */
  lemma DisconnectedStays(kind: Kind, config: RoomConfig, h: Hub, p: Player)
    ensures var r := Disconnected(kind, config, h, p);
      p.id in r.players ==> kind.LoadTest? && (IsBotId(p.id) || p.id == NAN_BOT_ID)
  {
  }

  /** Both controllers take the id out of both server-wide maps and announce playerLeft. */
  lemma DisconnectedBooks(kind: Kind, config: RoomConfig, h: Hub, p: Player)
    ensures var r := Disconnected(kind, config, h, p);
      && r.playersById == h.playersById - {p.id} && r.sockets == h.sockets - {p.id}
      && r.notices == h.notices + [PlayerLeft(config.id, p)]
  {
  }

  /** Writing a record keeps the room's key order in step with its records. */
  lemma SeatedOrdered(h: Hub, key: string, p: Player)
    requires WellOrdered(h.players, h.order)
    ensures var r := Seated(h, key, p); WellOrdered(r.players, r.order)
  {
    if key !in h.players {
      var o := h.order + [key];
      forall i, j | 0 <= i < j < |o| ensures o[i] != o[j] {
        if j == |h.order| {
          assert o[i] == h.order[i] && o[i] in h.players;
        }
      }
    }
  }

  /** Both controllers keep the room's key order in step with its records. */
  lemma DisconnectedOrdered(kind: Kind, config: RoomConfig, h: Hub, p: Player)
    requires WellOrdered(h.players, h.order)
    ensures var r := Disconnected(kind, config, h, p); WellOrdered(r.players, r.order)
  {
    WithoutDistinct(h.order, p.id);
    var left := Hub(h.players - {p.id}, Without(h.order, p.id), h.playersById - {p.id},
                    h.sockets - {p.id}, h.notices + [PlayerLeft(config.id, p)]);
    assert WellOrdered(left.players, left.order);
    if kind.LoadTest? {
      var seat := SeatFor(config, kind.makeBot, kind.botCount, kind.nanX, p.id);
      if seat.Some? {
        SeatedOrdered(left, seat.value.key, seat.value.bot);
      }
    }
  }

  /** A pass keeps the room's key order in step with its records. */
  lemma PassOrdered(kind: Kind, config: RoomConfig, e: Evicted, id: string)
    requires WellOrdered(e.hub.players, e.hub.order)
    ensures var r := Pass(kind, config, e, id); WellOrdered(r.hub.players, r.hub.order)
  {
    if e.ok && id in e.hub.players {
      var p := e.hub.players[id];
      DisconnectedOrdered(kind, config,
                          e.hub.(notices := e.hub.notices + [PlayerDied(config.id, p)]), p);
    }
  }

  lemma {:induction false} EvictionsOrdered(kind: Kind, config: RoomConfig, h: Hub,
                                            dead: seq<string>, i: nat)
    requires i <= |dead| && WellOrdered(h.players, h.order)
    ensures var r := Evictions(kind, config, h, dead, i); WellOrdered(r.hub.players, r.hub.order)
  {
    if i > 0 {
      EvictionsOrdered(kind, config, h, dead, i - 1);
      PassOrdered(kind, config, Evictions(kind, config, h, dead, i - 1), dead[i - 1]);
    }
  }

  /** Once the loop has stopped, later ids change nothing. */
  lemma {:induction false} EvictionsStop(kind: Kind, config: RoomConfig, h: Hub,
                                         dead: seq<string>, i: nat, j: nat)
    requires i <= j <= |dead| && !Evictions(kind, config, h, dead, i).ok
    ensures Evictions(kind, config, h, dead, j) == Evictions(kind, config, h, dead, i)
  {
    if i < j {
      EvictionsStop(kind, config, h, dead, i, j - 1);
    }
  }

  /** The first i dead ids, as a set. */
  ghost function Gone(dead: seq<string>, i: nat): (g: set<string>)
    requires i <= |dead|
    ensures forall x :: x in g ==> x in dead
  {
    if i == 0 then {} else Gone(dead, i - 1) + {dead[i - 1]}
  }

  lemma {:induction false} GoneIsPrefix(dead: seq<string>, i: nat)
    requires i <= |dead|
    ensures forall x :: x in Gone(dead, i) <==> x in dead[..i]
  {
    if i > 0 {
      GoneIsPrefix(dead, i - 1);
      assert dead[..i] == dead[..i - 1] + [dead[i - 1]];
    }
  }

  /** Each dead id is missing from the ones before it. */
  ghost predicate NoRepeats(dead: seq<string>) {
    forall j {:trigger Gone(dead, j)} :: 0 <= j < |dead| ==> dead[j] !in Gone(dead, j)
  }

  /** Distinct dead ids repeat none. */
  lemma DistinctNoRepeats(dead: seq<string>)
    requires Distinct(dead)
    ensures NoRepeats(dead)
  {
    forall j | 0 <= j < |dead|
      ensures dead[j] !in Gone(dead, j)
    {
      GoneIsPrefix(dead, j);
      assert forall k :: 0 <= k < j ==> dead[..j][k] == dead[k];
    }
  }

  /** The dead set of a tick on records stored under their own ids: ids of the room, none
      repeated. */
  ghost predicate Dying(h: Hub, dead: seq<string>) {
    && NoRepeats(dead) && KeyIsId(h.players)
    && forall x :: x in dead ==> x in h.players
  }

  /** ... where every dead id is a bot id. */
  ghost predicate BotsDying(h: Hub, dead: seq<string>) {
    Dying(h, dead) && forall x :: x in dead ==> IsBotId(x)
  }

  /** A pass that finds its dead id, stored under that id, takes the id out of both
      server-wide maps and announces playerDied and playerLeft with the record found. This
      holds in both kinds of room. */
  lemma PassBooks(kind: Kind, config: RoomConfig, e: Evicted, id: string)
    requires e.ok && id in e.hub.players && e.hub.players[id].id == id
    ensures var r := Pass(kind, config, e, id); var p := e.hub.players[id];
      && r.ok
      && r.hub.playersById == e.hub.playersById - {id} && r.hub.sockets == e.hub.sockets - {id}
      && r.hub.notices == e.hub.notices + [PlayerDied(config.id, p), PlayerLeft(config.id, p)]
  {
    var p := e.hub.players[id];
    DisconnectedBooks(kind, config,
                      e.hub.(notices := e.hub.notices + [PlayerDied(config.id, p)]), p);
  }

  /** Pass i finds its dead id, still with the record it had at the start. */
  ghost predicate FoundAt(kind: Kind, config: RoomConfig, h: Hub, dead: seq<string>, i: nat)
    requires 0 < i <= |dead| && forall x :: x in dead ==> x in h.players
  {
    var e := Evictions(kind, config, h, dead, i - 1);
    && e.ok && dead[i - 1] in e.hub.players
    && e.hub.players[dead[i - 1]] == h.players[dead[i - 1]]
  }

  /** When every pass finds its dead player with the original record, stored under its
      own id, the removal loop takes each of them out of both server-wide maps and
      announces each with playerDied and playerLeft, in set order. This holds in both
      kinds of room. */
  lemma {:induction false} EvictionsBooks(kind: Kind, config: RoomConfig, h: Hub,
                                          dead: seq<string>, i: nat)
    requires i <= |dead| && Dying(h, dead)
    requires forall j :: 0 < j <= i ==> FoundAt(kind, config, h, dead, j)
    ensures var r := Evictions(kind, config, h, dead, i);
      && r.ok
      && r.hub.playersById == h.playersById - Gone(dead, i)
      && r.hub.sockets == h.sockets - Gone(dead, i)
      && r.hub.notices == h.notices + Farewells(config.id, h.players, dead, i)
  {
    if i > 0 {
      EvictionsBooks(kind, config, h, dead, i - 1);
      BooksStep(kind, config, h, dead, i);
    }
  }

  /** One more pass that finds its dead player keeps the books of the removal loop. */
  lemma BooksStep(kind: Kind, config: RoomConfig, h: Hub, dead: seq<string>, i: nat)
    requires 0 < i <= |dead| && Dying(h, dead) && FoundAt(kind, config, h, dead, i)
    requires var e := Evictions(kind, config, h, dead, i - 1);
      && e.hub.playersById == h.playersById - Gone(dead, i - 1)
      && e.hub.sockets == h.sockets - Gone(dead, i - 1)
      && e.hub.notices == h.notices + Farewells(config.id, h.players, dead, i - 1)
    ensures var r := Evictions(kind, config, h, dead, i);
      && r.ok
      && r.hub.playersById == h.playersById - Gone(dead, i)
      && r.hub.sockets == h.sockets - Gone(dead, i)
      && r.hub.notices == h.notices + Farewells(config.id, h.players, dead, i)
  {
    var id := dead[i - 1];
    assert id in dead && h.players[id].id == id;
    var e := Evictions(kind, config, h, dead, i - 1);
    assert Evictions(kind, config, h, dead, i) == Pass(kind, config, e, id);
    PassBooks(kind, config, e, id);
    var p := h.players[id];
    assert h.notices + Farewells(config.id, h.players, dead, i)
      == e.hub.notices + [PlayerDied(config.id, p), PlayerLeft(config.id, p)];
    assert h.playersById - Gone(dead, i - 1) - {id} == h.playersById - Gone(dead, i);
  }

  /** In a base room whose records sit under their own ids, distinct dead ids that are all
      in the room are each found and leave it; every other player keeps its record. */
  lemma {:induction false} BaseEvictionsFound(config: RoomConfig, h: Hub, dead: seq<string>,
                                              i: nat)
    requires i <= |dead| && Dying(h, dead)
    ensures var r := Evictions(Base, config, h, dead, i);
      r.ok && r.hub.players == h.players - Gone(dead, i)
  {
    if i > 0 {
      BaseEvictionsFound(config, h, dead, i - 1);
      var id := dead[i - 1];
      assert id in dead && id !in Gone(dead, i - 1);
      assert h.players - Gone(dead, i - 1) - {id} == h.players - Gone(dead, i);
    }
  }

  /** ... and each is announced once with playerDied and playerLeft, in set order, and
      leaves both server-wide maps. */
  lemma BaseEvictionsComplete(config: RoomConfig, h: Hub, dead: seq<string>, i: nat)
    requires i <= |dead| && Dying(h, dead)
    ensures var r := Evictions(Base, config, h, dead, i);
      && r.ok
      && r.hub.playersById == h.playersById - Gone(dead, i)
      && r.hub.sockets == h.sockets - Gone(dead, i)
      && r.hub.notices == h.notices + Farewells(config.id, h.players, dead, i)
  {
    forall j | 0 < j <= i
      ensures FoundAt(Base, config, h, dead, j)
    {
      BaseEvictionsFound(config, h, dead, j - 1);
      assert dead[j - 1] in dead && dead[j - 1] !in Gone(dead, j - 1);
    }
    EvictionsBooks(Base, config, h, dead, i);
  }

  /** A base room tick whose damage loop found every target, on records stored under their
      own ids: exactly the players the damage left with no health are announced, once each,
      and leave the room and both maps; the other players keep their damaged records. */
  lemma BaseRemovesTheDead(config: RoomConfig, h: Hub, damages: seq<Damage>)
    requires KeyIsId(h.players)
    requires DamageFold(h.players, damages, |damages|).missing.None?
    ensures var hurt := DamageFold(h.players, damages, |damages|);
      var r := Evictions(Base, config, h.(players := hurt.players), hurt.dead, |hurt.dead|);
      var gone := set x | x in hurt.dead;
      && gone <= hurt.players.Keys
      && r.ok
      && r.hub.players == hurt.players - gone
      && r.hub.playersById == h.playersById - gone
      && r.hub.sockets == h.sockets - gone
      && r.hub.notices == h.notices + Farewells(config.id, hurt.players, hurt.dead, |hurt.dead|)
  {
    var hurt := DamageFold(h.players, damages, |damages|);
    DeadAreKeys(h.players, damages, |damages|);
    DeadDistinct(h.players, damages, |damages|);
    var start := h.(players := hurt.players);
    DistinctNoRepeats(hurt.dead);
    BaseEvictionsFound(config, start, hurt.dead, |hurt.dead|);
    BaseEvictionsComplete(config, start, hurt.dead, |hurt.dead|);
    GoneIsPrefix(hurt.dead, |hurt.dead|);
    assert hurt.dead[..|hurt.dead|] == hurt.dead;
    assert Gone(hurt.dead, |hurt.dead|) == set x | x in hurt.dead;
  }

  /** The id of bot n, and nothing else: reading its number back and printing it gives the
      same id. */
  predicate IsBotId(id: string) {
    BotNumber(id).Some? && BotId(BotNumber(id).value) == id
  }

  /** One disconnect in the load-test room seats the bot numbered by a bot id again under
      that same id. */
  lemma LoadTestReseats(config: RoomConfig, botCount: nat, makeBot: BotMaker, nanX: real,
                        h: Hub, p: Player)
    requires IsBotId(p.id)
    ensures Disconnected(LoadTest(botCount, makeBot, nanX), config, h, p).players
      == h.players[p.id := Bot(config, makeBot, botCount, BotNumber(p.id).value)]
  {
    var b := Bot(config, makeBot, botCount, BotNumber(p.id).value);
    assert (h.players - {p.id})[p.id := b] == h.players[p.id := b];
  }

  /** The records start with every bot id of g holding the fresh record of the bot it
      numbers. */
  ghost function Reseat(config: RoomConfig, botCount: nat, makeBot: BotMaker,
                        start: map<string, Player>, g: set<string>): map<string, Player>
  {
    map k | k in start ::
      if k in g && BotNumber(k).Some? then Bot(config, makeBot, botCount, BotNumber(k).value)
      else start[k]
  }

  /** Seating the bot of one more bot id of the room reseats one more id. */
  lemma ReseatOne(config: RoomConfig, botCount: nat, makeBot: BotMaker,
                  start: map<string, Player>, g: set<string>, id: string)
    requires IsBotId(id) && id in start
    ensures Reseat(config, botCount, makeBot, start, g)
                [id := Bot(config, makeBot, botCount, BotNumber(id).value)]
      == Reseat(config, botCount, makeBot, start, g + {id})
  {
  }

  /** A load-test pass on a bot id not yet removed, stored under that id, finds it and
      seats its bot again. */
  lemma LoadTestPass(config: RoomConfig, botCount: nat, makeBot: BotMaker, nanX: real,
                     start: map<string, Player>, e: Evicted, g: set<string>, id: string)
    requires e.ok && e.hub.players == Reseat(config, botCount, makeBot, start, g)
    requires IsBotId(id) && id in start && id !in g && start[id].id == id
    ensures var r := Pass(LoadTest(botCount, makeBot, nanX), config, e, id);
      r.ok && r.hub.players == Reseat(config, botCount, makeBot, start, g + {id})
  {
    var p := e.hub.players[id];
    LoadTestReseats(config, botCount, makeBot, nanX,
                    e.hub.(notices := e.hub.notices + [PlayerDied(config.id, p)]), p);
    ReseatOne(config, botCount, makeBot, start, g, id);
  }

  /** In a load-test room whose records sit under their own ids, when every dead id is a
      bot id, each dead bot is found and seated again: the room keeps all its keys, every
      dead bot gets the fresh record of its number, and every other player keeps its
      record. */
  lemma {:induction false} LoadTestEvictionsFound(config: RoomConfig, botCount: nat,
                                                  makeBot: BotMaker, nanX: real, h: Hub,
                                                  dead: seq<string>, i: nat)
    requires i <= |dead| && BotsDying(h, dead)
    ensures Evictions(LoadTest(botCount, makeBot, nanX), config, h, dead, i).ok
    ensures Evictions(LoadTest(botCount, makeBot, nanX), config, h, dead, i).hub.players
      == Reseat(config, botCount, makeBot, h.players, Gone(dead, i))
  {
    if i > 0 {
      var kind := LoadTest(botCount, makeBot, nanX);
      LoadTestEvictionsFound(config, botCount, makeBot, nanX, h, dead, i - 1);
      var id := dead[i - 1];
      assert id in dead && id !in Gone(dead, i - 1);
      var e := Evictions(kind, config, h, dead, i - 1);
      assert Evictions(kind, config, h, dead, i) == Pass(kind, config, e, id);
      LoadTestPass(config, botCount, makeBot, nanX, h.players, e, Gone(dead, i - 1), id);
    }
  }

  /** So each load-test pass finds its dead bot with the record it had at the start. */
  lemma LoadTestFoundAt(config: RoomConfig, botCount: nat, makeBot: BotMaker, nanX: real,
                        h: Hub, dead: seq<string>, j: nat)
    requires 0 < j <= |dead| && BotsDying(h, dead)
    ensures FoundAt(LoadTest(botCount, makeBot, nanX), config, h, dead, j)
  {
    LoadTestEvictionsFound(config, botCount, makeBot, nanX, h, dead, j - 1);
    assert dead[j - 1] in dead && dead[j - 1] !in Gone(dead, j - 1);
  }

  /** ... and each dead bot is announced once with playerDied and playerLeft, in set order,
      and leaves both server-wide maps. */
  lemma LoadTestEvictionsComplete(config: RoomConfig, botCount: nat, makeBot: BotMaker,
                                  nanX: real, h: Hub, dead: seq<string>, i: nat)
    requires i <= |dead| && BotsDying(h, dead)
    ensures var r := Evictions(LoadTest(botCount, makeBot, nanX), config, h, dead, i);
      && r.ok
      && r.hub.playersById == h.playersById - Gone(dead, i)
      && r.hub.sockets == h.sockets - Gone(dead, i)
      && r.hub.notices == h.notices + Farewells(config.id, h.players, dead, i)
  {
    forall j | 0 < j <= i
      ensures FoundAt(LoadTest(botCount, makeBot, nanX), config, h, dead, j)
    {
      LoadTestFoundAt(config, botCount, makeBot, nanX, h, dead, j);
    }
    EvictionsBooks(LoadTest(botCount, makeBot, nanX), config, h, dead, i);
  }

  // ---------------------------------------------------------------- the controller

  class RoomController {
    const room: Room
    const kind: Kind

    constructor (room: Room, kind: Kind)
      ensures this.room == room && this.kind == kind
    {
      this.room := room;
      this.kind := kind;
    }

    /** The state this controller's methods read and write. */
    ghost function HubOf(world: World): Hub
      reads room, world
    {
      Hub(room.players, room.order, world.playersById, world.sockets, world.notices)
    }

    /** `joinPlayer(socket, username)`: a new player under the socket's id, at the centre
        of the room with a flail at the same place, registered in the room and in both
        server-wide maps. `now` is the clock reading `makePlayer` takes. */
    method JoinPlayer(world: World, socketId: string, username: string, now: real)
      returns (player: Player)
      requires room.Valid()
      modifies room, world`playersById, world`sockets, world`notices
      ensures room.Valid()
      ensures var position := Divide(room.config.size, 2.0);
        player == MakePlayer(socketId, room.config.id, username, position,
                             MakeFlailWeapon(position), now)
      ensures HubOf(world) == Joined(old(HubOf(world)), player)
    {
      var playerPosition := Divide(room.config.size, 2.0);
      player := MakePlayer(socketId, room.config.id, username, playerPosition,
                           MakeFlailWeapon(playerPosition), now);
      world.sockets := world.sockets + {socketId};
      world.playersById := world.playersById[socketId := player];
      room.Put(socketId, player);
    }

    /** `disconnectPlayer(player)`: the id leaves the room and both maps and playerLeft is
        broadcast; the load-test room then seats the bot numbered by the id again. */
    method DisconnectPlayer(world: World, player: Player)
      requires room.Valid()
      modifies room, world`playersById, world`sockets, world`notices
      ensures room.Valid()
      ensures HubOf(world) == Disconnected(kind, room.config, old(HubOf(world)), player)
    {
      room.Delete(player.id);
      world.playersById := world.playersById - {player.id};
      world.sockets := world.sockets - {player.id};
      world.notices := world.notices + [PlayerLeft(room.config.id, player)];
      if kind.LoadTest? {
        var botIndex := BotNumber(player.id);
        if botIndex.Some? {
          AddBot(room, kind.makeBot, botIndex.value, kind.botCount);
        } else if NaNTail(player.id) {
          AddNaNBot(room, kind.makeBot, kind.nanX);
        }
      }
    }

    /** One pass of the removal loop: the dead player is looked up, announced with
        playerDied and disconnected; `found` is false, and nothing changes, when the id is
        not in the room. */
    method EvictOne(world: World, deadPlayerId: string) returns (found: bool)
      requires room.Valid()
      modifies room, world`playersById, world`sockets, world`notices
      ensures room.Valid()
      ensures Evicted(HubOf(world), found)
        == Pass(kind, room.config, Evicted(old(HubOf(world)), true), deadPlayerId)
    {
      if deadPlayerId !in room.players {
        return false;
      }
      var deadPlayer := room.players[deadPlayerId];
      world.notices := world.notices + [PlayerDied(room.config.id, deadPlayer)];
      DisconnectPlayer(world, deadPlayer);
      found := true;
    }

    /** `for (const deadPlayerId of deadPlayerIds)`: announce the death, then disconnect. */
    method EvictDead(world: World, dead: seq<string>) returns (ok: bool)
      requires room.Valid()
      modifies room, world`playersById, world`sockets, world`notices
      ensures room.Valid()
      ensures var r := Evictions(kind, room.config, old(HubOf(world)), dead, |dead|);
        HubOf(world) == r.hub && ok == r.ok
    {
      ghost var start := HubOf(world);
      var i := 0;
      ok := true;
      while i < |dead| && ok
        invariant 0 <= i <= |dead| && room.Valid()
        invariant Evictions(kind, room.config, start, dead, i) == Evicted(HubOf(world), ok)
      {
        ok := EvictOne(world, dead[i]);
        i := i + 1;
      }
      if !ok {
        EvictionsStop(kind, room.config, start, dead, i, |dead|);
      }
    }

    /** `updateRoom(elapsedTime)`. It returns false where the source fails an assertion (an
        event or a dead id naming a player that is not in the room), with the state as the
        loops left it. Otherwise the room is deleted from the world exactly when no human
        is left in it, and roomUpdated is broadcast last either way. */
    method UpdateRoom(m: Math, cs: Callees, world: World, bots: BotStep, dt: real)
      returns (ok: bool)
      requires room.Valid() && world.Valid() && 0.0 < dt
      modifies room, world`rooms, world`roomIds, world`playersById, world`sockets, world`notices
      ensures room.Valid() && world.Valid()
      ensures var (hurt, ev) := Outcome(m, cs, kind, room.config, old(HubOf(world)), bots, dt);
        && ok == (hurt.missing.None? && ev.ok)
        && (hurt.missing.Some? ==> HubOf(world) == old(HubOf(world)).(players := hurt.players))
        && (hurt.missing.None? && !ev.ok ==> HubOf(world) == ev.hub)
        && (!ok ==> world.rooms == old(world.rooms) && world.roomIds == old(world.roomIds))
        && (ok ==> HubOf(world)
                     == ev.hub.(notices := ev.hub.notices + [RoomUpdated(room.config.id,
                                                                         ev.hub.players)]))
        && (ok && HasHuman(ev.hub.players) ==>
              world.rooms == old(world.rooms) && world.roomIds == old(world.roomIds))
        && (ok && !HasHuman(ev.hub.players) ==>
              world.rooms == old(world.rooms) - {room.config.id}
              && world.roomIds == RemoveId(old(world.roomIds), room.config.id))
    {
      ghost var start := HubOf(world);
      var before := room.players;
      EachPlayer(room, (p: Player) => bots(before, p));
      assert room.players == Steered(bots, before);
      var damages := ApplyPhysics(m, cs, room, dt);
      var dead;
      dead, ok := ApplyDamages(room, damages);
      if ok {
        ok := EvictDead(world, dead);
        if ok {
          if !HasHuman(room.players) {
            world.DeleteRoom(room.config.id);
          }
          world.notices := world.notices + [RoomUpdated(room.config.id, room.players)];
        }
      }
    }
  }
}
