/** The methods of server/logic.ai.ts that write the room: the rename, the steering and
    the loop of `updateBots`, proved against the functions of `BotAi`. */
module BotAiContexts {
  import opened Types
  import opened Numerics
  import opened Vector
  import opened BotAi

  /** The steering half of the loop body: the bot under key gets its new acceleration;
      `draws` random numbers have been taken before it. */
  method SteerBot(m: Math, room: Room, key: string, target: Option<Player>,
                  otherBots: seq<Player>, random: Random, draws: nat)
    requires room.Valid() && key in room.players && 0.0 < room.config.maxPlayerSpeed
    modifies room
    ensures room.Valid() && room.order == old(room.order)
    ensures var bot := old(room.players[key]);
      room.players == old(room.players)[key := bot.(acceleration :=
        Steering(m, room.config, bot.position, bot.velocity, target, otherBots,
                 (random(draws), random(draws + 1))))]
  {
    var bot := room.players[key];
    var maxAcc := room.config.maxPlayerAcceleration;
    var currentSpeed := Magnitude(m, bot.velocity);
    var direction;
    if currentSpeed == 0.0 {
      direction := Xy(random(draws) - 0.5, random(draws + 1) - 0.5);
    } else {
      direction := Rotate(m, bot.velocity, TurnAngle(m, currentSpeed, room.config.maxPlayerSpeed));
    }
    var newAcceleration := WithMagnitude(m, direction, maxAcc);
    if target.Some? {
      var accelerationAgainstBots := Repulsion(m, bot.position, otherBots, maxAcc);
      if accelerationAgainstBots.x != 0.0 || accelerationAgainstBots.y != 0.0 {
        accelerationAgainstBots := WithMagnitude(m, accelerationAgainstBots, maxAcc / 1.5);
      }
      var vectorToPlayer := WithMagnitude(m, Subtract(target.value.position, bot.position),
                                          maxAcc / 1.5);
      newAcceleration := WithMagnitude(m, Add(newAcceleration, [vectorToPlayer,
                                                                accelerationAgainstBots]),
                                       maxAcc);
    }
    room.Put(key, bot.(acceleration := newAcceleration));
  }

  /** The rename stamps of the bots: the AI context each bot object carries. */
  class AiContexts {
    /** `bot[AI_CONTEXT_SYMBOL].lastNameUpdate`, by the bot's key in the room. */
    var lastNameUpdate: map<string, real>

    constructor ()
      ensures lastNameUpdate == map[]
    {
      lastNameUpdate := map[];
    }

    /** `updateBotName(bot, target)` for the bot stored under key. */
    method UpdateBotName(room: Room, key: string, target: Option<Player>, hash: HashCode,
                         now: real)
      requires room.Valid() && key in room.players
      modifies room, this`lastNameUpdate
      ensures room.Valid() && room.order == old(room.order)
      ensures var r := NameStep(old(lastNameUpdate), key, old(room.players[key]), target, hash, now);
        room.players == old(room.players)[key := r.0] && lastNameUpdate == r.1
    {
      var bot := room.players[key];
      if LastNameUpdate(lastNameUpdate, key) >= now - MILLISECONDS_BETWEEN_UPDATES {
        assert room.players == room.players[key := bot];
        return;
      }
      lastNameUpdate := lastNameUpdate[key := now];
      var offset := Offset(hash, bot.id, now);
      var botName := FirstField(bot.username, ':');
      if target.Some? {
        var message := BotMessage(offset, target.value.username);
        room.Put(key, bot.(username := botName + ": " + message));
      } else {
        room.Put(key, bot.(username := botName));
      }
    }

    /** One turn of the loop of `updateBots`: the bot under key renamed, then given its
        new acceleration; it returns the number of random draws the bot took. */
    method UpdateBot(m: Math, room: Room, key: string, values: seq<Player>,
                     target: Option<Player>, random: Random, draws: nat, hash: HashCode,
                     now: real)
      returns (used: nat)
      requires room.Valid() && key in room.players && 0.0 < room.config.maxPlayerSpeed
      modifies room, this`lastNameUpdate
      ensures room.Valid() && room.order == old(room.order)
      ensures var bot := old(room.players[key]);
        var named := NameStep(old(lastNameUpdate), key, bot, target, hash, now);
        && room.players == old(room.players)[key := named.0.(acceleration :=
             Steering(m, room.config, bot.position, bot.velocity, target,
                      OtherBots(values, bot.id), (random(draws), random(draws + 1))))]
        && lastNameUpdate == named.1
        && used == if Magnitude(m, bot.velocity) == 0.0 then 2 else 0
    {
      UpdateBotName(room, key, target, hash, now);
      var bot := room.players[key];
      SteerBot(m, room, key, target, OtherBots(values, bot.id), random, draws);
      used := if Magnitude(m, bot.velocity) == 0.0 then 2 else 0;
    }

    /** The turn of the loop of `updateBots` for the bot it visits i-th. */
    method UpdateBotAt(m: Math, room: Room, keys: seq<string>, i: nat, values: seq<Player>,
                       target: Option<Player>, random: Random, draws: nat, hash: HashCode,
                       now: real, ghost start: map<string, Player>,
                       ghost contexts: map<string, real>, ghost accelerations: seq<Vec>)
      returns (used: nat, ghost accelerations': seq<Vec>)
      requires room.Valid() && i < |keys|
      requires TurnsDone(m, room.config, start, values, target, keys, random, contexts, hash, now,
                         i, accelerations, draws, BotsState(room.players, lastNameUpdate))
      modifies room, this`lastNameUpdate
      ensures room.Valid() && room.order == old(room.order)
      ensures TurnsDone(m, room.config, start, values, target, keys, random, contexts, hash, now,
                        i + 1, accelerations', draws + used,
                        BotsState(room.players, lastNameUpdate))
    {
      ghost var players, stamps := room.players, lastNameUpdate;
      used := UpdateBot(m, room, keys[i], values, target, random, draws, hash, now);
      TurnStep(m, room.config, start, values, target, keys, random, contexts, hash, now, i,
               accelerations, draws, players, stamps, room.players, lastNameUpdate, used);
      accelerations' := accelerations
        + [BotAcceleration(m, room.config, start, values, target, keys, i, random)];
    }

    /** `updateBots(room)`: the bots, in key order, renamed and steered; `now` is the clock
        reading of every rename. The accelerations the bots get are returned for the proof. */
    method UpdateBots(m: Math, room: Room, random: Random, hash: HashCode, now: real)
      returns (ghost accelerations: seq<Vec>)
      requires room.Valid() && 0.0 < room.config.maxPlayerSpeed
      modifies room, this`lastNameUpdate
      ensures room.Valid() && room.order == old(room.order)
      ensures UpdatedBots(m, room.config, old(room.players), old(room.order), old(room.Values()),
                          old(lastNameUpdate), random, hash, now, accelerations,
                          BotsState(room.players, lastNameUpdate))
    {
      var values := room.Values();
      var firstPlayer := Target(values);
      var keys := BotKeys(room.players, room.order);
      BotKeysDistinct(room.players, room.order);
      accelerations := UpdateBotsInOrder(m, room, keys, values, firstPlayer, random, hash, now,
                                         room.players, lastNameUpdate);
    }

    /** The loop of `updateBots` over the bot keys, from the records `start` and the stamps
        `contexts`. */
    method UpdateBotsInOrder(m: Math, room: Room, keys: seq<string>, values: seq<Player>,
                             target: Option<Player>, random: Random, hash: HashCode, now: real,
                             ghost start: map<string, Player>, ghost contexts: map<string, real>)
      returns (ghost accelerations: seq<Vec>)
      requires room.Valid() && 0.0 < room.config.maxPlayerSpeed
      requires room.players == start && lastNameUpdate == contexts
      requires Distinct(keys) && forall j :: 0 <= j < |keys| ==> keys[j] in start
      modifies room, this`lastNameUpdate
      ensures room.Valid() && room.order == old(room.order)
      ensures |accelerations| == |keys|
      ensures SteeredInOrder(m, room.config, start, values, target, keys, random, accelerations,
                             |keys|)
      ensures BotsUpdated(start, target, keys, |keys|, contexts, hash, now, accelerations)
        == BotsState(room.players, lastNameUpdate)
    {
      accelerations := [];
      var draws: nat := 0;
      TurnsDoneStart(m, room.config, start, values, target, keys, random, contexts, hash, now);
      for i := 0 to |keys|
        modifies room, this`lastNameUpdate
        invariant room.Valid() && room.order == old(room.order)
        invariant TurnsDone(m, room.config, start, values, target, keys, random, contexts, hash,
                            now, i, accelerations, draws, BotsState(room.players, lastNameUpdate))
      {
        var used;
        used, accelerations := UpdateBotAt(m, room, keys, i, values, target, random, draws, hash,
                                           now, start, contexts, accelerations);
        draws := draws + used;
      }
      TurnsDoneEnd(m, room.config, start, values, target, keys, random, contexts, hash, now,
                   accelerations, draws, BotsState(room.players, lastNameUpdate));
    }
  }
}
