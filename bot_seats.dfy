/** The bots of the bot rooms and of the load-test room: bot n is stored under
    `_BOT_<n>`, named `BOT <n>`, and placed on the room's horizontal mid-line at the n-th of
    botCount + 1 equal steps across the room, with a flail at its own position. */
module BotSeats {
  import opened Types
  import opened Numerics
  import opened Vector
  import opened Digits

  /** `makeBot(id, roomId, username, position, weapon)` of common/types/player.ts, which is
      not part of this model: any function of those arguments. */
  type BotMaker = (string, int, string, Vec, Weapon) -> Player

  /** `LoadTestRoom.BOT_ID_PREFIX`; the bots room writes the same prefix inline. */
  const BOT_ID_PREFIX: string := "_BOT_"

  function BotId(n: nat): string {
    BOT_ID_PREFIX + Decimal(n)
  }

  function BotName(n: nat): string {
    "BOT " + Decimal(n)
  }

  /** `{ x: (size.x / (botCount + 1)) * n, y: size.y / 2 }`. */
  function BotPosition(size: Vec, botCount: nat, n: nat): Vec {
    Xy(size.x / (botCount + 1) as real * n as real, size.y / 2.0)
  }

  /** The record of bot n. */
  function Bot(config: RoomConfig, makeBot: BotMaker, botCount: nat, n: nat): Player {
    var position := BotPosition(config.size, botCount, n);
    makeBot(BotId(n), config.id, BotName(n), position, MakeFlailWeapon(position))
  }

  /** `Number(id.slice(BOT_ID_PREFIX.length))`: the number after the first five characters
      (an id of five characters or fewer leaves the empty string, which is 0). */
  function BotNumber(id: string): Option<nat> {
    NumberOf(if |id| >= |BOT_ID_PREFIX| then id[|BOT_ID_PREFIX|..] else "")
  }

  /** The tail after the first five characters holds a character that no number contains
      (a letter past `f` other than those of `Infinity`, `x` and `o`, say), so `Number`
      reads it as NaN. */
  predicate NaNTail(id: string) {
    NotANumber(if |id| >= |BOT_ID_PREFIX| then id[|BOT_ID_PREFIX|..] else "")
  }

  /** `${NaN}` in the id and name `addBot` builds for the number NaN. */
  const NAN_BOT_ID: string := BOT_ID_PREFIX + "NaN"
  const NAN_BOT_NAME: string := "BOT NaN"

  /** The record `addBot` builds for the number NaN. Its x coordinate is NaN, which a real
      cannot be: `nanX` stands for it, any value. */
  function NaNBot(config: RoomConfig, makeBot: BotMaker, nanX: real): Player {
    var position := Xy(nanX, config.size.y / 2.0);
    makeBot(NAN_BOT_ID, config.id, NAN_BOT_NAME, position, MakeFlailWeapon(position))
  }

  /** A bot and the key it is written under. */
  datatype Seat = Seat(key: string, bot: Player)

  /** `addBot(Number(id.slice(5)), botCount, room)` of the load-test room: bot n for a tail
      that reads as n, the bot `_BOT_NaN` for a tail that reads as NaN, and nothing for a
      tail `Number` reads in some other way. */
  function SeatFor(config: RoomConfig, makeBot: BotMaker, botCount: nat, nanX: real,
                   id: string): Option<Seat>
  {
    match BotNumber(id)
    case Some(n) => Some(Seat(BotId(n), Bot(config, makeBot, botCount, n)))
    case None => if NaNTail(id) then Some(Seat(NAN_BOT_ID, NaNBot(config, makeBot, nanX))) else None
  }

  /** An id whose tail is NaN is not read as a bot number. */
  lemma NaNTailNoNumber(id: string)
    requires NaNTail(id)
    ensures BotNumber(id) == None
  {
    NotANumberNotDigits(if |id| >= |BOT_ID_PREFIX| then id[|BOT_ID_PREFIX|..] else "");
  }

  /** The NaN bot's own id reads back as NaN again, and is the id of no numbered bot. */
  lemma NaNBotIdIsNaN(n: nat)
    ensures NaNTail(NAN_BOT_ID) && NAN_BOT_ID != BotId(n)
  {
    assert NAN_BOT_ID[|BOT_ID_PREFIX|..] == "NaN";
    assert !MayBeInNumber(NAN_BOT_ID[|BOT_ID_PREFIX|..][0]);
    NaNTailNoNumber(NAN_BOT_ID);
    BotIdRoundTrip(n);
  }

  /** The load-test room reads back the number of every id it builds. */
  lemma BotIdRoundTrip(n: nat)
    ensures BotNumber(BotId(n)) == Some(n)
  {
    assert BotId(n)[|BOT_ID_PREFIX|..] == Decimal(n);
    DecimalRoundTrip(n);
  }

  /** Bot ids are pairwise distinct. */
  lemma BotIdInjective(a: nat, b: nat)
    requires BotId(a) == BotId(b)
    ensures a == b
  {
    BotIdRoundTrip(a);
    BotIdRoundTrip(b);
  }

  /** Bots 1 to i in order of insertion. */
  function BotOrder(i: nat): (r: seq<string>)
    ensures |r| == i
  {
    if i == 0 then [] else BotOrder(i - 1) + [BotId(i)]
  }

  /** The room's players once bots 1 to i have been written. */
  function BotSeatsUpTo(config: RoomConfig, makeBot: BotMaker, botCount: nat, i: nat)
    : map<string, Player>
  {
    if i == 0 then map[]
    else BotSeatsUpTo(config, makeBot, botCount, i - 1)[BotId(i) := Bot(config, makeBot, botCount, i)]
  }

  /** The insertion order lists bot ids 1 to i, in that order. */
  lemma {:induction false} BotOrderAt(i: nat)
    ensures forall j :: 0 <= j < i ==> BotOrder(i)[j] == BotId(j + 1)
  {
    if i > 0 {
      BotOrderAt(i - 1);
      assert forall j :: 0 <= j < i - 1 ==> BotOrder(i)[j] == BotOrder(i - 1)[j];
    }
  }

  /** Bot ids 1 to i are pairwise distinct. */
  lemma BotOrderDistinct(i: nat)
    ensures Distinct(BotOrder(i))
  {
    BotOrderAt(i);
    forall a, b | 0 <= a < b < i
      ensures BotOrder(i)[a] != BotOrder(i)[b]
    {
      if BotOrder(i)[a] == BotOrder(i)[b] {
        BotIdInjective(a + 1, b + 1);
      }
    }
  }

  /** The players written so far are exactly the ids of the insertion order. */
  lemma {:induction false} BotSeatsKeys(config: RoomConfig, makeBot: BotMaker, botCount: nat,
                                        i: nat)
    ensures forall k :: k in BotSeatsUpTo(config, makeBot, botCount, i) <==> k in BotOrder(i)
  {
    if i > 0 {
      BotSeatsKeys(config, makeBot, botCount, i - 1);
    }
  }

  /** The id of the next bot is not yet taken. */
  lemma BotSeatsFresh(config: RoomConfig, makeBot: BotMaker, botCount: nat, i: nat)
    ensures BotId(i + 1) !in BotSeatsUpTo(config, makeBot, botCount, i)
  {
    BotSeatsKeys(config, makeBot, botCount, i);
    BotOrderAt(i);
    if BotId(i + 1) in BotOrder(i) {
      var j :| 0 <= j < i && BotOrder(i)[j] == BotId(i + 1);
      BotIdInjective(j + 1, i + 1);
    }
  }

  /** Writing bots 1 to i gives a room of i players. */
  lemma {:induction false} BotSeatsCount(config: RoomConfig, makeBot: BotMaker, botCount: nat,
                                         i: nat)
    ensures |BotSeatsUpTo(config, makeBot, botCount, i)| == i
  {
    if i > 0 {
      BotSeatsCount(config, makeBot, botCount, i - 1);
      BotSeatsFresh(config, makeBot, botCount, i - 1);
    }
  }

  /** Bot j, for j from 1 to i, sits under `_BOT_<j>` with its own record. */
  lemma {:induction false} BotSeatsAt(config: RoomConfig, makeBot: BotMaker, botCount: nat,
                                      i: nat, j: nat)
    requires 1 <= j <= i
    ensures var seats := BotSeatsUpTo(config, makeBot, botCount, i);
      BotId(j) in seats && seats[BotId(j)] == Bot(config, makeBot, botCount, j)
  {
    if j < i {
      BotSeatsAt(config, makeBot, botCount, i - 1, j);
      if BotId(j) == BotId(i) {
        BotIdInjective(j, i);
      }
    }
  }

  /** After bots 1 to i are written, the room's records and key order agree. */
  lemma BotSeatsOrdered(config: RoomConfig, makeBot: BotMaker, botCount: nat, i: nat)
    ensures WellOrdered(BotSeatsUpTo(config, makeBot, botCount, i), BotOrder(i))
  {
    BotOrderDistinct(i);
    BotSeatsKeys(config, makeBot, botCount, i);
  }

  /** Bot n of botCount sits strictly inside the room's width, on its mid-line. */
  lemma BotPositionInside(size: Vec, botCount: nat, n: nat)
    requires 0.0 < size.x && 1 <= n <= botCount
    ensures var p := BotPosition(size, botCount, n);
      0.0 < p.x < size.x && p.y == size.y / 2.0
  {
    var c := (botCount + 1) as real;
    var q := size.x / c;
    PositiveQuotient(size.x, c);
    assert q * c == size.x;
    assert q * (n as real) < q * c;
  }

  /** `addBot(botNumber, botCount, room)`: bot n is written into the room. */
  method AddBot(room: Room, makeBot: BotMaker, botNumber: nat, botCount: nat)
    requires room.Valid()
    modifies room
    ensures room.Valid()
    ensures room.players
      == old(room.players)[BotId(botNumber) := Bot(room.config, makeBot, botCount, botNumber)]
    ensures room.order == if BotId(botNumber) in old(room.players) then old(room.order)
                          else old(room.order) + [BotId(botNumber)]
  {
    var botId := BOT_ID_PREFIX + Decimal(botNumber);
    var botName := "BOT " + Decimal(botNumber);
    var position := Xy(room.config.size.x / (botCount + 1) as real * botNumber as real,
                       room.config.size.y / 2.0);
    var bot := makeBot(botId, room.config.id, botName, position, MakeFlailWeapon(position));
    assert botId == BotId(botNumber);
    assert position == BotPosition(room.config.size, botCount, botNumber);
    assert bot == Bot(room.config, makeBot, botCount, botNumber);
    room.Put(botId, bot);
  }

  /** `addBot(NaN, botCount, room)`: the bot `_BOT_NaN` is written into the room. */
  method AddNaNBot(room: Room, makeBot: BotMaker, nanX: real)
    requires room.Valid()
    modifies room
    ensures room.Valid()
    ensures room.players == old(room.players)[NAN_BOT_ID := NaNBot(room.config, makeBot, nanX)]
    ensures room.order == if NAN_BOT_ID in old(room.players) then old(room.order)
                          else old(room.order) + [NAN_BOT_ID]
  {
    var position := Xy(nanX, room.config.size.y / 2.0);
    var bot := makeBot(NAN_BOT_ID, room.config.id, NAN_BOT_NAME, position,
                       MakeFlailWeapon(position));
    room.Put(NAN_BOT_ID, bot);
  }
}
