/** The bots' steering and taunts (server/logic.ai.ts). Each bot in the room, in key order,
    first has its name rewritten at most once every five seconds, with a taunt at the first
    human of the room; then it gets a new acceleration of the room's maximum length: a
    wander along (or, when it stands still, a random direction turned from) its velocity,
    and, when there is a human to chase, the pull towards that human plus a push away from
    the bots within 300 of it. */
module BotAi {
  import opened Types
  import opened Numerics
  import opened Vector

  const BOT_MESSAGES: seq<string> := [
    "Come here <PLAYER_NAME>!",
    "Fight you coward!",
    "Let me hit that ass!",
    "Is that all the balls you have?",
    "Are you scared <PLAYER_NAME>?",
    "I'll end you in no time!",
    "Are they sending children to fight now?",
    "Isn't it bedtime for you?"
  ]

  /** The placeholder the taunts carry for the human's name. */
  const PLAYER_NAME: string := "<PLAYER_NAME>"

  const MILLISECONDS_BETWEEN_UPDATES: real := 5000.0

  /** Bots further apart than this do not push each other. */
  const REPULSION_RANGE: real := 300.0

  /** `Math.random()`: the k-th number it returns during one `updateBots` call. */
  type Random = nat -> real

  /** `hashCode` of client/utils.ts, which is not part of this model. */
  type HashCode = string -> int

  // ---------------------------------------------------------------- the target

  /** `Object.values(room.players).find((p) => !p.isBot)`, as the place of the first human. */
  function FirstHuman(vs: seq<Player>): (r: Option<nat>)
    ensures r.Some? ==> r.value < |vs| && !vs[r.value].isBot
    ensures r.Some? ==> forall j :: 0 <= j < r.value ==> vs[j].isBot
    ensures r.None? ==> forall j :: 0 <= j < |vs| ==> vs[j].isBot
  {
    if |vs| == 0 then None
    else if !vs[0].isBot then Some(0)
    else match FirstHuman(vs[1..])
      case None => None
      case Some(k) => Some(k + 1)
  }

  /** The human the bots chase, if any. */
  function Target(vs: seq<Player>): Option<Player> {
    match FirstHuman(vs)
    case None => None
    case Some(k) => Some(vs[k])
  }

  // ---------------------------------------------------------------- wandering

  /** `max(0, min(maxPlayerSpeed, speed)) / maxPlayerSpeed`. */
  function SpeedShare(speed: real, maxSpeed: real): (r: real)
    requires 0.0 < maxSpeed
    ensures 0.0 <= r <= 1.0
    ensures 0.0 <= speed <= maxSpeed ==> r * maxSpeed == speed
    ensures maxSpeed <= speed ==> r == 1.0
  {
    Max(0.0, Min(maxSpeed, speed)) / maxSpeed
  }

  /** `(Math.PI * share) / 1.5`: a bot turns further the faster it goes, up to 120 degrees. */
  function TurnAngle(m: Math, speed: real, maxSpeed: real): (r: real)
    requires 0.0 < maxSpeed
    ensures 0.0 <= m.pi ==> 0.0 <= r <= m.pi / 1.5
  {
    m.pi * SpeedShare(speed, maxSpeed) / 1.5
  }

  /** The acceleration before the chase: the velocity turned by the angle, or the random
      pair minus one half when the bot stands still, at the room's maximum length. */
  function Wander(m: Math, config: RoomConfig, velocity: Vec, draw: (real, real)): Vec
    requires 0.0 < config.maxPlayerSpeed
  {
    WithMagnitude(m, Heading(m, config, velocity, draw), config.maxPlayerAcceleration)
  }

  /** The direction of the wander, before it is set to length. */
  function Heading(m: Math, config: RoomConfig, velocity: Vec, draw: (real, real)): Vec
    requires 0.0 < config.maxPlayerSpeed
  {
    var speed := Magnitude(m, velocity);
    if speed == 0.0 then Xy(draw.0 - 0.5, draw.1 - 0.5)
    else Rotate(m, velocity, TurnAngle(m, speed, config.maxPlayerSpeed))
  }

  // ---------------------------------------------------------------- the push between bots

  /** `Object.values(room.players).filter((p) => p.isBot && p.id !== bot.id)`. */
  function OtherBots(vs: seq<Player>, id: string): (r: seq<Player>)
    ensures forall p :: p in r <==> p in vs && p.isBot && p.id != id
  {
    if |vs| == 0 then []
    else if vs[0].isBot && vs[0].id != id then [vs[0]] + OtherBots(vs[1..], id)
    else OtherBots(vs[1..], id)
  }

  /** The `reduce` over the other bots: from (0, 0), each bot within range adds the vector
      from it to this bot at the maximum acceleration's length. */
  function Repulsion(m: Math, at: Vec, others: seq<Player>, maxAcc: real): Vec
    decreases |others|
  {
    if |others| == 0 then Xy(0.0, 0.0)
    else
      var acc := Repulsion(m, at, others[..|others| - 1], maxAcc);
      var away := Subtract(at, others[|others| - 1].position);
      if Magnitude(m, away) > REPULSION_RANGE then acc
      else Add(acc, [WithMagnitude(m, away, maxAcc)])
  }

  predicate IsNear(m: Math, at: Vec, other: Player) {
    Magnitude(m, Subtract(at, other.position)) <= REPULSION_RANGE
  }

  /** The other bots within range, in order. */
  function Near(m: Math, at: Vec, others: seq<Player>): (r: seq<Player>)
    ensures forall p :: p in r ==> p in others && IsNear(m, at, p)
    decreases |others|
  {
    if |others| == 0 then []
    else
      var last := others[|others| - 1];
      Near(m, at, others[..|others| - 1]) + (if IsNear(m, at, last) then [last] else [])
  }

  /** Bots out of range add nothing: the push is the same over the bots in range only. */
  lemma {:induction false} RepulsionOnlyNear(m: Math, at: Vec, others: seq<Player>,
                                             maxAcc: real)
    ensures Repulsion(m, at, others, maxAcc) == Repulsion(m, at, Near(m, at, others), maxAcc)
    decreases |others|
  {
    if |others| > 0 {
      var pre := others[..|others| - 1];
      var last := others[|others| - 1];
      RepulsionOnlyNear(m, at, pre, maxAcc);
      if IsNear(m, at, last) {
        var near := Near(m, at, pre) + [last];
        assert Near(m, at, others) == near;
        assert near[..|near| - 1] == Near(m, at, pre);
        assert near[|near| - 1] == last;
      } else {
        assert Near(m, at, others) == Near(m, at, pre) + [];
        assert Near(m, at, pre) + [] == Near(m, at, pre);
      }
    }
  }

  /** The push, set to two thirds of the maximum acceleration when its x or y is not zero. */
  function AgainstBots(m: Math, sum: Vec, maxAcc: real): (r: Vec)
  {
    if sum.x != 0.0 || sum.y != 0.0 then WithMagnitude(m, sum, maxAcc / 1.5) else sum
  }

  /** The push is left at (0, 0) when there is none, and otherwise has two thirds of the
      maximum acceleration's length. */
  lemma AgainstBotsLength(m: Math, sum: Vec, maxAcc: real)
    requires SqrtLaw(m) && 0.0 <= maxAcc
    ensures sum.x == 0.0 && sum.y == 0.0 ==> AgainstBots(m, sum, maxAcc) == sum
    ensures sum.x != 0.0 || sum.y != 0.0 ==>
      Magnitude(m, AgainstBots(m, sum, maxAcc)) == maxAcc / 1.5
  {
    WithMagnitudeLength(m, sum, maxAcc / 1.5);
  }

  /** The new acceleration of a bot: the wander alone without a target; with one, the
      wander plus the pull towards the target and the push away from the bots in range,
      set to the maximum acceleration's length. */
  function Steering(m: Math, config: RoomConfig, position: Vec, velocity: Vec,
                    target: Option<Player>, others: seq<Player>, draw: (real, real)): Vec
    requires 0.0 < config.maxPlayerSpeed
  {
    var maxAcc := config.maxPlayerAcceleration;
    var wander := Wander(m, config, velocity, draw);
    if target.None? then wander
    else
      var against := AgainstBots(m, Repulsion(m, position, others, maxAcc), maxAcc);
      var toPlayer := WithMagnitude(m, Subtract(target.value.position, position), maxAcc / 1.5);
      WithMagnitude(m, Add(wander, [toPlayer, against]), maxAcc)
  }

  /** Whatever the target, a bot always accelerates at exactly the room's maximum. */
  lemma SteeringMagnitude(m: Math, config: RoomConfig, position: Vec, velocity: Vec,
                          target: Option<Player>, others: seq<Player>, draw: (real, real))
    requires SqrtLaw(m) && 0.0 < config.maxPlayerSpeed && 0.0 <= config.maxPlayerAcceleration
    ensures Magnitude(m, Steering(m, config, position, velocity, target, others, draw))
      == config.maxPlayerAcceleration
  {
    var maxAcc := config.maxPlayerAcceleration;
    var wander := Wander(m, config, velocity, draw);
    WithMagnitudeLength(m, Heading(m, config, velocity, draw), maxAcc);
    if target.Some? {
      var against := AgainstBots(m, Repulsion(m, position, others, maxAcc), maxAcc);
      var toPlayer := WithMagnitude(m, Subtract(target.value.position, position), maxAcc / 1.5);
      WithMagnitudeLength(m, Add(wander, [toPlayer, against]), maxAcc);
    }
  }

  // ---------------------------------------------------------------- names

  /** The pattern occurs in s at place i. */
  predicate OccursAt(s: string, pattern: string, i: int) {
    0 <= i && i + |pattern| <= |s| && s[i..i + |pattern|] == pattern
  }

  /** `s.replace(/pattern/g, replacement)`: every occurrence of the pattern, scanned from
      the left and not overlapping, replaced by the replacement taken literally. */
  function ReplaceAll(s: string, pattern: string, replacement: string): string
    requires |pattern| > 0
    decreases |s|
  {
    if |s| < |pattern| then s
    else if s[..|pattern|] == pattern then replacement + ReplaceAll(s[|pattern|..], pattern, replacement)
    else [s[0]] + ReplaceAll(s[1..], pattern, replacement)
  }

  /** A text in which the pattern occurs nowhere is left as it is. */
  lemma {:induction false} ReplaceAllAbsent(s: string, pattern: string, replacement: string)
    requires |pattern| > 0
    requires forall i :: !OccursAt(s, pattern, i)
    ensures ReplaceAll(s, pattern, replacement) == s
    decreases |s|
  {
    if |s| >= |pattern| {
      assert !OccursAt(s, pattern, 0);
      assert s[0..|pattern|] == s[..|pattern|];
      forall i
        ensures !OccursAt(s[1..], pattern, i)
      {
        if 0 <= i && i + |pattern| <= |s| - 1 {
          assert s[1..][i..i + |pattern|] == s[i + 1..i + 1 + |pattern|];
          assert !OccursAt(s, pattern, i + 1);
        }
      }
      ReplaceAllAbsent(s[1..], pattern, replacement);
      assert [s[0]] + s[1..] == s;
    }
  }

  /** JavaScript's `%` on integers: the remainder of truncating division. */
  function JsIntRemainder(a: int, b: int): (r: int)
    requires 0 < b
    ensures -b < r < b
    ensures 0 <= a ==> r == a % b
    ensures a <= 0 ==> r <= 0 && r == -((-a) % b)
  {
    if a >= 0 then a % b else -((-a) % b)
  }

  /** `Math.floor(hashCode(bot.id) + now / millisecondsBetweenUpdates)`. */
  function Offset(hash: HashCode, id: string, now: real): int {
    (hash(id) as real + now / MILLISECONDS_BETWEEN_UPDATES).Floor
  }

  /** The place `botMessages[offset % botMessages.length]` reads, when it holds a taunt. */
  function MessageIndex(offset: int): Option<nat> {
    var i := JsIntRemainder(offset, |BOT_MESSAGES|);
    if 0 <= i then Some(i) else None
  }

  /** Which taunt an offset picks: the one at offset mod 8 when the offset is not negative
      or is a multiple of eight (a negative multiple gives -0, which reads place 0), and
      none when it is negative and not a multiple of eight. */
  lemma MessageIndexChoice(offset: int)
    ensures 0 <= offset ==> MessageIndex(offset) == Some(offset % 8)
    ensures offset < 0 && offset % 8 == 0 ==> MessageIndex(offset) == Some(0)
    ensures offset < 0 && offset % 8 != 0 ==> MessageIndex(offset).None?
  {
    if offset < 0 {
      var q := offset / 8;
      var r := offset % 8;
      assert offset == 8 * q + r;
      if r == 0 {
        assert -offset == 8 * (-q);
        ModOfMultiple(-offset, -q);
      } else {
        assert -offset == 8 * (-q - 1) + (8 - r);
        ModOfSum(-offset, -q - 1, 8 - r);
      }
    }
  }

  lemma ModOfMultiple(a: int, q: int)
    requires a == 8 * q
    ensures a % 8 == 0
  {
  }

  lemma ModOfSum(a: int, q: int, r: int)
    requires a == 8 * q + r && 0 <= r < 8
    ensures a % 8 == r
  {
  }

  /** `botMessages[...]?.replace(/<PLAYER_NAME>/g, targetName)` inside a template: the
      taunt with the target's name filled in, or the text "undefined" when there is none. */
  function BotMessage(offset: int, targetName: string): string {
    match MessageIndex(offset)
    case Some(i) => ReplaceAll(BOT_MESSAGES[i], PLAYER_NAME, targetName)
    case None => "undefined"
  }

  /** The bot's new name: its name before the first colon, then ": " and the taunt when
      there is a target, or that name alone when there is none. */
  function RenamedUsername(username: string, target: Option<Player>, offset: int): string {
    var botName := FirstField(username, ':');
    if target.Some? then botName + ": " + BotMessage(offset, target.value.username)
    else botName
  }

  /** A renamed bot keeps its name: the part before the first colon never changes. */
  lemma RenamedKeepsName(username: string, target: Option<Player>, offset: int)
    ensures FirstField(RenamedUsername(username, target, offset), ':')
      == FirstField(username, ':')
  {
    var botName := FirstField(username, ':');
    if target.None? {
      FirstFieldOfSepFree(botName, "", ':');
      assert botName + "" == botName;
    } else {
      var tail := ": " + BotMessage(offset, target.value.username);
      FirstFieldOfSepFree(botName, tail, ':');
      assert botName + ": " + BotMessage(offset, target.value.username) == botName + tail;
    }
  }

  /** The time of a bot's last rename, 0 before the first. */
  function LastNameUpdate(contexts: map<string, real>, key: string): real {
    if key in contexts then contexts[key] else 0.0
  }

  /** `updateBotName(bot, target)` on the bot stored under key: nothing when the last
      rename was 5000 ms ago or less, otherwise the rename, stamped with `now`. */
  function NameStep(contexts: map<string, real>, key: string, bot: Player,
                    target: Option<Player>, hash: HashCode, now: real)
    : (r: (Player, map<string, real>))
    ensures LastNameUpdate(r.1, key) >= now - MILLISECONDS_BETWEEN_UPDATES
    ensures r.1 == contexts || r.1 == contexts[key := now]
    ensures r.0 == bot.(username := r.0.username)
  {
    if LastNameUpdate(contexts, key) >= now - MILLISECONDS_BETWEEN_UPDATES then (bot, contexts)
    else
      (bot.(username := RenamedUsername(bot.username, target, Offset(hash, bot.id, now))),
       contexts[key := now])
  }

  /** A bot is renamed at most once every five seconds: once a call has renamed it, a call
      up to 5000 ms later changes neither the bot nor the stamps. */
  lemma RenamedAtMostEveryFiveSeconds(contexts: map<string, real>, key: string, bot: Player,
                                      target: Option<Player>, hash: HashCode, now: real,
                                      later: Player, target2: Option<Player>, now2: real)
    requires LastNameUpdate(contexts, key) < now - MILLISECONDS_BETWEEN_UPDATES
    requires now2 <= now + MILLISECONDS_BETWEEN_UPDATES
    ensures var c := NameStep(contexts, key, bot, target, hash, now).1;
      NameStep(c, key, later, target2, hash, now2) == (later, c)
  {
  }

  // ---------------------------------------------------------------- the loop

  /** The keys of the bots, in key order. */
  function BotKeys(players: map<string, Player>, order: seq<string>): (r: seq<string>)
    requires forall i :: 0 <= i < |order| ==> order[i] in players
    ensures forall k :: k in r <==> k in order && players[k].isBot
    ensures forall j :: 0 <= j < |r| ==> r[j] in players
  {
    if |order| == 0 then []
    else if players[order[0]].isBot then [order[0]] + BotKeys(players, order[1..])
    else BotKeys(players, order[1..])
  }

  /** Distinct keys give distinct bot keys: the loop visits each bot once. */
  lemma {:induction false} BotKeysDistinct(players: map<string, Player>, order: seq<string>)
    requires forall i :: 0 <= i < |order| ==> order[i] in players
    requires Distinct(order)
    ensures Distinct(BotKeys(players, order))
  {
    if |order| > 0 {
      assert forall i, j :: 0 <= i < j < |order| - 1 ==> order[1..][i] == order[i + 1] && order[1..][j] == order[j + 1];
      BotKeysDistinct(players, order[1..]);
      if players[order[0]].isBot {
        var rest := BotKeys(players, order[1..]);
        assert forall j :: 0 <= j < |order| - 1 ==> order[1..][j] != order[0];
        assert order[0] !in order[1..];
        assert forall j :: 0 <= j < |rest| ==> rest[j] != order[0];
        assert BotKeys(players, order) == [order[0]] + rest;
      }
    }
  }

  /** The number of random draws taken for the first j bots the loop visits: a bot
      standing still takes two for its random direction, any other bot none. */
  function DrawsBefore(m: Math, start: map<string, Player>, keys: seq<string>, j: nat)
    : (r: nat)
    requires j <= |keys| && forall k :: 0 <= k < |keys| ==> keys[k] in start
    ensures r <= 2 * j && r % 2 == 0
  {
    if j == 0 then 0
    else DrawsBefore(m, start, keys, j - 1)
           + if Magnitude(m, start[keys[j - 1]].velocity) == 0.0 then 2 else 0
  }

  /** One more bot adds its draws to the count. */
  lemma DrawsStep(m: Math, start: map<string, Player>, keys: seq<string>, j: nat, bot: Player)
    requires j < |keys| && forall k :: 0 <= k < |keys| ==> keys[k] in start
    requires bot == start[keys[j]]
    ensures DrawsBefore(m, start, keys, j + 1)
      == DrawsBefore(m, start, keys, j) + if Magnitude(m, bot.velocity) == 0.0 then 2 else 0
  {
  }

  /** The acceleration the loop gives the bot it visits j-th: `Steering` from its record at
      the start, with the next two random draws as its random direction. */
  function BotAcceleration(m: Math, config: RoomConfig, start: map<string, Player>,
                           values: seq<Player>, target: Option<Player>, keys: seq<string>,
                           j: nat, random: Random)
    : Vec
    requires 0.0 < config.maxPlayerSpeed
    requires j < |keys| && forall k :: 0 <= k < |keys| ==> keys[k] in start
  {
    var bot := start[keys[j]];
    var d := DrawsBefore(m, start, keys, j);
    Steering(m, config, bot.position, bot.velocity, target, OtherBots(values, bot.id),
             (random(d), random(d + 1)))
  }

  /** The list holds, at each j below n, the acceleration of the bot the loop visits j-th. */
  predicate SteeredInOrder(m: Math, config: RoomConfig, start: map<string, Player>,
                           values: seq<Player>, target: Option<Player>, keys: seq<string>,
                           random: Random, accelerations: seq<Vec>, n: nat)
    requires 0.0 < config.maxPlayerSpeed
    requires n <= |keys| && n <= |accelerations|
    requires forall k :: 0 <= k < |keys| ==> keys[k] in start
  {
    forall j {:trigger BotAcceleration(m, config, start, values, target, keys, j, random)} ::
      0 <= j < n ==>
        accelerations[j] == BotAcceleration(m, config, start, values, target, keys, j, random)
  }

  /** A steered list grows by the acceleration of the next bot. */
  lemma SteeredInOrderAppend(m: Math, config: RoomConfig, start: map<string, Player>,
                             values: seq<Player>, target: Option<Player>, keys: seq<string>,
                             random: Random, accelerations: seq<Vec>, n: nat)
    requires 0.0 < config.maxPlayerSpeed
    requires n < |keys| && |accelerations| == n
    requires forall k :: 0 <= k < |keys| ==> keys[k] in start
    requires SteeredInOrder(m, config, start, values, target, keys, random, accelerations, n)
    ensures SteeredInOrder(m, config, start, values, target, keys, random, accelerations
      + [BotAcceleration(m, config, start, values, target, keys, n, random)], n + 1)
  {
    var a := BotAcceleration(m, config, start, values, target, keys, n, random);
    forall j | 0 <= j < n + 1
      ensures (accelerations + [a])[j]
        == BotAcceleration(m, config, start, values, target, keys, j, random)
    {
      if j < n {
        assert accelerations[j]
          == BotAcceleration(m, config, start, values, target, keys, j, random);
      }
    }
  }

  /** There is one steered list of each length: the steering is determined by the records,
      the target and the random draws. */
  lemma SteeredInOrderUnique(m: Math, config: RoomConfig, start: map<string, Player>,
                             values: seq<Player>, target: Option<Player>, keys: seq<string>,
                             random: Random, a: seq<Vec>, b: seq<Vec>, n: nat)
    requires 0.0 < config.maxPlayerSpeed
    requires n <= |keys| && |a| == n && |b| == n
    requires forall k :: 0 <= k < |keys| ==> keys[k] in start
    requires SteeredInOrder(m, config, start, values, target, keys, random, a, n)
    requires SteeredInOrder(m, config, start, values, target, keys, random, b, n)
    ensures a == b
  {
    forall j | 0 <= j < n
      ensures a[j] == b[j]
    {
      assert a[j] == BotAcceleration(m, config, start, values, target, keys, j, random);
    }
  }

  /** The bot under keys[j], read at the start and `draws` draws into the loop, is steered
      by `BotAcceleration`. */
  lemma SteeringOfBot(m: Math, config: RoomConfig, start: map<string, Player>,
                      values: seq<Player>, target: Option<Player>, keys: seq<string>, j: nat,
                      random: Random, bot: Player, draws: nat)
    requires 0.0 < config.maxPlayerSpeed
    requires j < |keys| && forall k :: 0 <= k < |keys| ==> keys[k] in start
    requires bot == start[keys[j]] && draws == DrawsBefore(m, start, keys, j)
    ensures Steering(m, config, bot.position, bot.velocity, target, OtherBots(values, bot.id),
                     (random(draws), random(draws + 1)))
      == BotAcceleration(m, config, start, values, target, keys, j, random)
  {
  }

  /** In a steered list every bot accelerates at exactly the room's maximum. */
  lemma SteeredMagnitude(m: Math, config: RoomConfig, start: map<string, Player>,
                         values: seq<Player>, target: Option<Player>, keys: seq<string>,
                         random: Random,
                         accelerations: seq<Vec>, n: nat)
    requires SqrtLaw(m) && 0.0 < config.maxPlayerSpeed && 0.0 <= config.maxPlayerAcceleration
    requires n <= |keys| && n <= |accelerations|
    requires forall k :: 0 <= k < |keys| ==> keys[k] in start
    requires SteeredInOrder(m, config, start, values, target, keys, random, accelerations, n)
    ensures forall j :: 0 <= j < n ==>
      Magnitude(m, accelerations[j]) == config.maxPlayerAcceleration
  {
    forall j | 0 <= j < n
      ensures Magnitude(m, accelerations[j]) == config.maxPlayerAcceleration
    {
      assert accelerations[j]
        == BotAcceleration(m, config, start, values, target, keys, j, random);
      var bot := start[keys[j]];
      var d := DrawsBefore(m, start, keys, j);
      SteeringMagnitude(m, config, bot.position, bot.velocity, target, OtherBots(values, bot.id),
                        (random(d), random(d + 1)));
    }
  }

  /** The records and the rename stamps after the loop has handled its first i bots. */
  datatype BotsState = BotsState(players: map<string, Player>, contexts: map<string, real>)

  /** The loop of `updateBots` after i bots: each bot, read from the start, is renamed,
      then stored with its new acceleration from the list. The room keeps its keys. */
  function BotsUpdated(start: map<string, Player>, target: Option<Player>, keys: seq<string>,
                       i: nat, contexts: map<string, real>, hash: HashCode, now: real,
                       accelerations: seq<Vec>)
    : (r: BotsState)
    requires i <= |keys| && i <= |accelerations|
    requires forall j :: 0 <= j < |keys| ==> keys[j] in start
    ensures r.players.Keys == start.Keys
  {
    if i == 0 then BotsState(start, contexts)
    else
      var s := BotsUpdated(start, target, keys, i - 1, contexts, hash, now, accelerations);
      var key := keys[i - 1];
      var named := NameStep(s.contexts, key, start[key], target, hash, now);
      BotsState(s.players[key := named.0.(acceleration := accelerations[i - 1])], named.1)
  }

  /** A key the loop has not reached yet keeps its record. */
  lemma {:induction false} BotsUpdatedUntouched(start: map<string, Player>,
                                                target: Option<Player>, keys: seq<string>,
                                                i: nat, contexts: map<string, real>,
                                                hash: HashCode, now: real,
                                                accelerations: seq<Vec>, k: string)
    requires i <= |keys| && i <= |accelerations|
    requires forall j :: 0 <= j < |keys| ==> keys[j] in start
    requires k in start && k !in keys[..i]
    ensures BotsUpdated(start, target, keys, i, contexts, hash, now, accelerations).players[k]
      == start[k]
  {
    if i > 0 {
      assert keys[..i] == keys[..i - 1] + [keys[i - 1]];
      BotsUpdatedUntouched(start, target, keys, i - 1, contexts, hash, now, accelerations, k);
    }
  }

  /** Every record differs from the start in its name and acceleration at most. */
  lemma {:induction false} BotsUpdatedShape(start: map<string, Player>, target: Option<Player>,
                                            keys: seq<string>, i: nat,
                                            contexts: map<string, real>, hash: HashCode,
                                            now: real, accelerations: seq<Vec>, k: string)
    requires i <= |keys| && i <= |accelerations|
    requires forall j :: 0 <= j < |keys| ==> keys[j] in start
    requires k in start
    ensures var p := BotsUpdated(start, target, keys, i, contexts, hash, now, accelerations)
                       .players[k];
      p == start[k].(username := p.username, acceleration := p.acceleration)
  {
    if i > 0 {
      BotsUpdatedShape(start, target, keys, i - 1, contexts, hash, now, accelerations, k);
    }
  }

  /** Every bot the loop has handled holds one of the accelerations of the list, so it
      has their length when they all have the same. */
  lemma {:induction false} BotsUpdatedMagnitude(m: Math, start: map<string, Player>,
                                                target: Option<Player>, keys: seq<string>,
                                                i: nat, contexts: map<string, real>,
                                                hash: HashCode, now: real,
                                                accelerations: seq<Vec>, k: string,
                                                length: real)
    requires i <= |keys| && i <= |accelerations|
    requires forall j :: 0 <= j < |keys| ==> keys[j] in start
    requires forall j :: 0 <= j < i ==> Magnitude(m, accelerations[j]) == length
    requires k in keys[..i]
    ensures Magnitude(m, BotsUpdated(start, target, keys, i, contexts, hash, now,
                                     accelerations).players[k].acceleration) == length
  {
    assert keys[..i] == keys[..i - 1] + [keys[i - 1]];
    if k != keys[i - 1] {
      BotsUpdatedMagnitude(m, start, target, keys, i - 1, contexts, hash, now, accelerations, k,
                           length);
    }
  }

  /** The loop reads only the first i accelerations of the list. */
  lemma {:induction false} BotsUpdatedPrefix(start: map<string, Player>, target: Option<Player>,
                                             keys: seq<string>, i: nat,
                                             contexts: map<string, real>, hash: HashCode,
                                             now: real, a: seq<Vec>, b: seq<Vec>)
    requires i <= |keys| && i <= |a| && i <= |b| && a[..i] == b[..i]
    requires forall j :: 0 <= j < |keys| ==> keys[j] in start
    ensures BotsUpdated(start, target, keys, i, contexts, hash, now, a)
      == BotsUpdated(start, target, keys, i, contexts, hash, now, b)
  {
    if i > 0 {
      assert a[..i - 1] == a[..i][..i - 1];
      assert b[..i - 1] == b[..i][..i - 1];
      assert a[i - 1] == a[..i][i - 1];
      assert b[i - 1] == b[..i][i - 1];
      BotsUpdatedPrefix(start, target, keys, i - 1, contexts, hash, now, a, b);
    }
  }

  /** One more turn of the loop: from the state after i bots, the next bot renamed and
      given the next acceleration of the list is the state after i + 1 bots. */
  lemma BotsStep(start: map<string, Player>, target: Option<Player>, keys: seq<string>, i: nat,
                 contexts: map<string, real>, hash: HashCode, now: real,
                 accelerations: seq<Vec>, players: map<string, Player>,
                 stamps: map<string, real>, players': map<string, Player>,
                 stamps': map<string, real>)
    requires i < |keys| && i < |accelerations|
    requires forall j :: 0 <= j < |keys| ==> keys[j] in start
    requires BotsUpdated(start, target, keys, i, contexts, hash, now, accelerations)
      == BotsState(players, stamps)
    requires keys[i] in players && players[keys[i]] == start[keys[i]]
    requires players' == players[keys[i] := NameStep(stamps, keys[i], players[keys[i]], target,
                                                     hash, now).0.(acceleration :=
                                                                     accelerations[i])]
    requires stamps' == NameStep(stamps, keys[i], players[keys[i]], target, hash, now).1
    ensures BotsUpdated(start, target, keys, i + 1, contexts, hash, now, accelerations)
      == BotsState(players', stamps')
  {
  }

  /** `updateBots(room)` on the records and the stamps: with the accelerations of the bots
      in the order the loop visits them, result is the state after the last bot. */
  predicate UpdatedBots(m: Math, config: RoomConfig, start: map<string, Player>,
                        order: seq<string>, values: seq<Player>, contexts: map<string, real>,
                        random: Random, hash: HashCode, now: real, accelerations: seq<Vec>,
                        result: BotsState)
    requires 0.0 < config.maxPlayerSpeed && forall i :: 0 <= i < |order| ==> order[i] in start
  {
    var keys := BotKeys(start, order);
    var target := Target(values);
    && |accelerations| == |keys|
    && SteeredInOrder(m, config, start, values, target, keys, random, accelerations, |keys|)
    && BotsUpdated(start, target, keys, |keys|, contexts, hash, now, accelerations) == result
  }

  /** `updateBots(room)` has one outcome for each room, set of stamps, draws and clock. */
  lemma UpdatedBotsUnique(m: Math, config: RoomConfig, start: map<string, Player>,
                          order: seq<string>, values: seq<Player>, contexts: map<string, real>,
                          random: Random, hash: HashCode, now: real, a: seq<Vec>,
                          r: BotsState, b: seq<Vec>, q: BotsState)
    requires 0.0 < config.maxPlayerSpeed && forall i :: 0 <= i < |order| ==> order[i] in start
    requires UpdatedBots(m, config, start, order, values, contexts, random, hash, now, a, r)
    requires UpdatedBots(m, config, start, order, values, contexts, random, hash, now, b, q)
    ensures r == q
  {
    var keys := BotKeys(start, order);
    SteeredInOrderUnique(m, config, start, values, Target(values), keys, random, a, b, |keys|);
  }

  /** `updateBots(room)` changes only bots: every human keeps its record, every bot keeps
      all but its name and acceleration, and every bot accelerates at exactly the room's
      maximum. */
  lemma UpdateBotsChangesOnlyBots(m: Math, config: RoomConfig, start: map<string, Player>,
                                  order: seq<string>, values: seq<Player>,
                                  contexts: map<string, real>, random: Random, hash: HashCode,
                                  now: real, accelerations: seq<Vec>, result: BotsState,
                                  k: string)
    requires 0.0 < config.maxPlayerSpeed && WellOrdered(start, order) && k in start
    requires UpdatedBots(m, config, start, order, values, contexts, random, hash, now,
                         accelerations, result)
    ensures var p := result.players[k];
      && (!start[k].isBot ==> p == start[k])
      && p == start[k].(username := p.username, acceleration := p.acceleration)
      && (SqrtLaw(m) && 0.0 <= config.maxPlayerAcceleration && start[k].isBot ==>
            Magnitude(m, p.acceleration) == config.maxPlayerAcceleration)
  {
    var keys := BotKeys(start, order);
    var target := Target(values);
    assert keys[..|keys|] == keys;
    if !start[k].isBot {
      BotsUpdatedUntouched(start, target, keys, |keys|, contexts, hash, now, accelerations, k);
    }
    BotsUpdatedShape(start, target, keys, |keys|, contexts, hash, now, accelerations, k);
    if SqrtLaw(m) && 0.0 <= config.maxPlayerAcceleration && start[k].isBot {
      SteeredMagnitude(m, config, start, values, target, keys, random, accelerations, |keys|);
      BotsUpdatedMagnitude(m, start, target, keys, |keys|, contexts, hash, now, accelerations, k,
                           config.maxPlayerAcceleration);
    }
  }

  /** The state of the loop of `updateBots` after i bots: the accelerations of those bots,
      the draws they took, and the records and stamps the loop has written. */
  ghost predicate TurnsDone(m: Math, config: RoomConfig, start: map<string, Player>,
                            values: seq<Player>, target: Option<Player>, keys: seq<string>,
                            random: Random, contexts: map<string, real>, hash: HashCode,
                            now: real, i: nat, accelerations: seq<Vec>, draws: nat,
                            state: BotsState)
  {
    && 0.0 < config.maxPlayerSpeed
    && i <= |keys| && Distinct(keys) && (forall j :: 0 <= j < |keys| ==> keys[j] in start)
    && |accelerations| == i
    && SteeredInOrder(m, config, start, values, target, keys, random, accelerations, i)
    && draws == DrawsBefore(m, start, keys, i)
    && BotsUpdated(start, target, keys, i, contexts, hash, now, accelerations) == state
  }

  /** The loop starts from the records and stamps as they are, with no draws taken. */
  lemma TurnsDoneStart(m: Math, config: RoomConfig, start: map<string, Player>,
                       values: seq<Player>, target: Option<Player>, keys: seq<string>,
                       random: Random, contexts: map<string, real>, hash: HashCode, now: real)
    requires 0.0 < config.maxPlayerSpeed
    requires Distinct(keys) && forall j :: 0 <= j < |keys| ==> keys[j] in start
    ensures TurnsDone(m, config, start, values, target, keys, random, contexts, hash, now, 0, [],
                      0, BotsState(start, contexts))
  {
  }

  /** After the last bot the loop has handled them all. */
  lemma TurnsDoneEnd(m: Math, config: RoomConfig, start: map<string, Player>,
                     values: seq<Player>, target: Option<Player>, keys: seq<string>,
                     random: Random, contexts: map<string, real>, hash: HashCode, now: real,
                     accelerations: seq<Vec>, draws: nat, state: BotsState)
    requires TurnsDone(m, config, start, values, target, keys, random, contexts, hash, now,
                       |keys|, accelerations, draws, state)
    ensures 0.0 < config.maxPlayerSpeed && (forall j :: 0 <= j < |keys| ==> keys[j] in start)
    ensures |accelerations| == |keys|
    ensures SteeredInOrder(m, config, start, values, target, keys, random, accelerations, |keys|)
    ensures BotsUpdated(start, target, keys, |keys|, contexts, hash, now, accelerations) == state
  {
  }

  /** One turn of the loop: the bot visited i-th, renamed and steered from its record as the
      loop found it, gives the state after i + 1 bots. */
  lemma TurnStep(m: Math, config: RoomConfig, start: map<string, Player>, values: seq<Player>,
                 target: Option<Player>, keys: seq<string>, random: Random,
                 contexts: map<string, real>, hash: HashCode, now: real, i: nat,
                 accelerations: seq<Vec>, draws: nat, players: map<string, Player>,
                 stamps: map<string, real>, players': map<string, Player>,
                 stamps': map<string, real>, used: nat)
    requires i < |keys|
    requires TurnsDone(m, config, start, values, target, keys, random, contexts, hash, now, i,
                       accelerations, draws, BotsState(players, stamps))
    requires keys[i] in players
    requires var bot := players[keys[i]];
      var named := NameStep(stamps, keys[i], bot, target, hash, now);
      && players' == players[keys[i] := named.0.(acceleration :=
           Steering(m, config, bot.position, bot.velocity, target, OtherBots(values, bot.id),
                    (random(draws), random(draws + 1))))]
      && stamps' == named.1
      && used == if Magnitude(m, bot.velocity) == 0.0 then 2 else 0
    ensures TurnsDone(m, config, start, values, target, keys, random, contexts, hash, now, i + 1,
                      accelerations + [BotAcceleration(m, config, start, values, target, keys, i,
                                                       random)],
                      draws + used, BotsState(players', stamps'))
  {
    var key := keys[i];
    assert forall j :: 0 <= j < i ==> keys[..i][j] == keys[j] != key;
    BotsUpdatedUntouched(start, target, keys, i, contexts, hash, now, accelerations, key);
    var a := BotAcceleration(m, config, start, values, target, keys, i, random);
    var accelerations' := accelerations + [a];
    assert accelerations'[..i] == accelerations;
    SteeredInOrderAppend(m, config, start, values, target, keys, random, accelerations, i);
    BotsUpdatedPrefix(start, target, keys, i, contexts, hash, now, accelerations, accelerations');
    SteeringOfBot(m, config, start, values, target, keys, i, random, players[key], draws);
    BotsStep(start, target, keys, i, contexts, hash, now, accelerations', players, stamps,
             players', stamps');
    DrawsStep(m, start, keys, i, players[key]);
  }
}
