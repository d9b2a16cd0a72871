/** The game's records: weapons, players, damage events and the room settings. They are
    values; an in-place field update in the source is a record update here whose result is
    written back where the record lives. */
module Types {
  import opened Numerics
  import opened Vector

  datatype Option<T> = None | Some(value: T)

  /** The three weapon variants, tagged by their `type` field. */
  datatype Weapon =
    | Flail(weight: real, radius: real, chainLength: real, position: Vec, velocity: Vec,
            maxSpeed: real)
    | Aura(playerCollisionWeightMultiplier: real, radiusFromPlayer: real, damageMultiplier: real)
    | Sword(weight: real, width: real, length: real, position: Vec, tipPosition: Option<Vec>,
            rotation: real, angularSpeed: real, maxSpeed: real, damageMultiplier: real)

  /** The `type` tag of a weapon. */
  function WeaponType(w: Weapon): string {
    match w
    case Flail(_, _, _, _, _, _) => "flail"
    case Aura(_, _, _) => "aura"
    case Sword(_, _, _, _, _, _, _, _, _) => "sword"
  }

  const WEAPON_TYPES: seq<string> := ["flail", "aura", "sword"]

  /** WEAPON_TYPES lists the tags of the weapon variants, each once, and nothing else. */
  lemma WeaponTypesExact()
    ensures |WEAPON_TYPES| == 3
    ensures forall w: Weapon :: WeaponType(w) in WEAPON_TYPES
    ensures forall t :: t in WEAPON_TYPES ==> exists w: Weapon :: WeaponType(w) == t
    ensures forall i, j :: 0 <= i < j < |WEAPON_TYPES| ==> WEAPON_TYPES[i] != WEAPON_TYPES[j]
  {
    var origin := Zero;
    assert WeaponType(MakeFlailWeapon(origin)) == "flail";
    assert WeaponType(MakeAuraWeapon()) == "aura";
    assert WeaponType(Sword(0.0, 0.0, 0.0, origin, None, 0.0, 0.0, 0.0, 0.0)) == "sword";
  }

  function MakeFlailWeapon(position: Vec): (w: Weapon)
    ensures w.Flail? && WeaponType(w) == "flail"
    ensures w.weight == 100.0 && w.radius == 10.0 && w.chainLength == 80.0
    ensures w.maxSpeed == 1000.0 && w.velocity == Zero && w.position == position
  {
    Flail(100.0, 10.0, 80.0, position, Xy(0.0, 0.0), 1000.0)
  }

  function MakeAuraWeapon(): (w: Weapon)
    ensures w.Aura? && WeaponType(w) == "aura"
    ensures w.playerCollisionWeightMultiplier == 2.0 && w.radiusFromPlayer == 5.0
    ensures w.damageMultiplier == 1.5
  {
    Aura(2.0, 5.0, 1.5)
  }

  /** The sword tip at a given rotation: length along (cos, sin) from the base. */
  function TipAt(m: Math, base: Vec, rotation: real, length: real): Vec {
    Xy(base.x + m.cos(rotation) * length, base.y + m.sin(rotation) * length)
  }

  /** `makeSwordWeapon`; the tip is computed with the literal 60, the same number as the
      sword's length. */
  function MakeSwordWeapon(m: Math, position: Vec): (w: Weapon)
    ensures w.Sword? && WeaponType(w) == "sword"
    ensures w.weight == 150.0 && w.width == 8.0 && w.length == 60.0 && w.position == position
    ensures w.rotation == m.pi / 2.0 && w.angularSpeed == 0.0
    ensures w.maxSpeed == 1000.0 && w.damageMultiplier == 1.5
    ensures w.tipPosition == Some(TipAt(m, position, w.rotation, w.length))
  {
    var rotation := m.pi / 2.0;
    Sword(150.0, 8.0, 60.0, position,
          Some(Xy(position.x + m.cos(rotation) * 60.0, position.y + m.sin(rotation) * 60.0)),
          rotation, 0.0, 1000.0, 1.5)
  }

  /** A player of a room. `isBot` is absent (so false) on human players. */
  datatype Player = Player(
    id: string,
    roomId: int,
    joinTimestamp: real,
    username: string,
    maxHealth: real,
    health: real,
    radius: real,
    weight: real,
    position: Vec,
    velocity: Vec,
    acceleration: Vec,
    weapon: Weapon,
    isBot: bool)

  /** `makePlayer`; `now` is the value of Date.now(). */
  function MakePlayer(playerId: string, roomId: int, username: string, position: Vec,
                      weapon: Weapon, now: real): (p: Player)
    ensures p.id == playerId && p.roomId == roomId && p.username == username
    ensures p.position == position && p.weapon == weapon && p.joinTimestamp == now
    ensures p.health == p.maxHealth == 1000.0
    ensures p.radius == 20.0 && p.weight == 50.0
    ensures p.velocity == Zero && p.acceleration == Zero
    ensures !p.isBot
  {
    Player(playerId, roomId, now, username, 1000.0, 1000.0, 20.0, 50.0, position,
           Xy(0.0, 0.0), Xy(0.0, 0.0), weapon, false)
  }

  datatype DamageKind = PlayerCollision | WeaponCollision

  /** A damage event: `amount` is taken from `damagedPlayerId`, caused by `playerId`. */
  datatype Damage = Damage(kind: DamageKind, damagedPlayerId: string, playerId: string,
                           amount: real)

  /** The fixed settings of a room; its players are kept beside it. */
  datatype RoomConfig = RoomConfig(
    id: int,
    maxPlayers: int,
    size: Vec,
    gravity: Vec,
    maxPlayerSpeed: real,
    maxPlayerAcceleration: real)

  /** The players of a room: the record map keyed by socket id and the keys in insertion
      order, which is the order `Object.values` visits them. */
  ghost predicate WellOrdered(players: map<string, Player>, order: seq<string>) {
    && Distinct(order)
    && (forall k :: k in players <==> k in order)
  }

  /** Every record is stored under its own id. */
  ghost predicate KeyIsId(players: map<string, Player>) {
    forall k :: k in players ==> players[k].id == k
  }

  predicate Distinct(s: seq<string>) {
    forall i, j :: 0 <= i < j < |s| ==> s[i] != s[j]
  }

  /** The key order after `delete`: the key is dropped and the others keep their order. */
  function Without(order: seq<string>, key: string): (r: seq<string>)
    ensures forall k :: k in r <==> k in order && k != key
    ensures |r| <= |order|
  {
    if |order| == 0 then []
    else if order[0] == key then Without(order[1..], key)
    else [order[0]] + Without(order[1..], key)
  }

  /** Deleting a key keeps the keys distinct. */
  lemma {:induction false} WithoutDistinct(order: seq<string>, key: string)
    requires Distinct(order)
    ensures Distinct(Without(order, key))
  {
    if |order| > 0 {
      WithoutDistinct(order[1..], key);
      if order[0] != key {
        var rest := Without(order[1..], key);
        assert forall j :: 0 <= j < |order| - 1 ==> order[1..][j] != order[0];
        assert order[0] !in order[1..];
        assert forall j :: 0 <= j < |rest| ==> rest[j] != order[0];
        assert Without(order, key) == [order[0]] + rest;
      }
    }
  }

  /** `s.split(sep)[0]`: everything before the first separator, or all of s. */
  function FirstField(s: string, sep: char): (r: string)
    ensures r <= s && sep !in r
    ensures |r| < |s| ==> s[|r|] == sep
  {
    if |s| == 0 || s[0] == sep then "" else [s[0]] + FirstField(s[1..], sep)
  }

  /** The first field of a separator-free text followed by a separator, or by nothing, is
      that text. */
  lemma {:induction false} FirstFieldOfSepFree(a: string, b: string, sep: char)
    requires sep !in a && (b == [] || b[0] == sep)
    ensures FirstField(a + b, sep) == a
  {
    if |a| > 0 {
      assert (a + b)[1..] == a[1..] + b;
      assert forall c :: c in a[1..] ==> c in a;
      FirstFieldOfSepFree(a[1..], b, sep);
      assert [a[0]] + a[1..] == a;
    } else {
      assert a + b == b;
    }
  }

  /** A room: its settings, which never change after creation, and its players. */
  class Room {
    const config: RoomConfig
    var players: map<string, Player>
    var order: seq<string>

    ghost predicate Valid()
      reads this
    {
      WellOrdered(players, order)
    }

    constructor (config: RoomConfig)
      ensures Valid() && this.config == config
      ensures players == map[] && order == []
    {
      this.config := config;
      players := map[];
      order := [];
    }

    /** `room.players[key] = p`: a new key goes last in iteration order, an existing key
        keeps its place. */
    method Put(key: string, p: Player)
      requires Valid()
      modifies this
      ensures Valid()
      ensures players == old(players)[key := p]
      ensures order == if key in old(players) then old(order) else old(order) + [key]
    {
      if key !in players {
        order := order + [key];
      }
      players := players[key := p];
    }

    /** `delete room.players[key]`; deleting a missing key changes nothing. */
    method Delete(key: string)
      requires Valid()
      modifies this
      ensures Valid()
      ensures players == old(players) - {key}
      ensures order == Without(old(order), key)
    {
      WithoutDistinct(order, key);
      players := players - {key};
      order := Without(order, key);
    }

    /** `Object.values(room.players)`. */
    function Values(): (vs: seq<Player>)
      reads this
      requires Valid()
      ensures |vs| == |order|
      ensures forall i :: 0 <= i < |order| ==> vs[i] == players[order[i]]
    {
      seq(|order|, i reads this requires Valid() && 0 <= i < |order| => players[order[i]])
    }
  }
}
