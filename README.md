# hammerfight-io: a verified model of the arena's physics and room logic

This project is a Dafny model of the server side of hammerfight-io. Players in an arena
swing a weapon: a flail on a chain, an aura around their body, or a sword pivoting on
them. The model covers:

- **One physics tick of a room** (`Physics`). Every player moves, and so does its
  weapon when it is a flail: common/physics.weapon.ts dispatches only the flail, so the
  aura and sword routines are modelled but not reached from the tick. Every player then
  collides with the others, sharing one set of handled pairs so that each pair collides
  once. After that come the walls, then friction. The routines per weapon
  (`PhysicsPlayer`, `PhysicsFlail`, `PhysicsAura`, `PhysicsSword`, `PhysicsWeapon`) emit
  damage events only for positive collision results. They sit on the shared two-circle
  collision (`PhysicsCommon`), the angular helpers (`PhysicsExtensions`) and the vector
  algebra (`Vector`).
- **The room tick of the room controllers** (`RoomTick`, `RoomControllers`). Damage is
  applied in list order. The dead are collected once each and disconnected once each.
  The room is deleted once no human is left. `RoomControllers.RoomController` models
  both the class `BaseRoomController` (server/logic/room-controller.base.ts) and its
  closure form `makeBaseRoomController` (server/logic/roomController.base.ts). The two
  have the same join, disconnect and update behaviour.
- **The kinds of room.** These are the bots room, the load-test room (which seats bot n again when
  an id read as n leaves, and the bot `_BOT_NaN` when the number read
  from the leaving id is NaN, as a human's usually is) and the normal room (`RoomKinds`,
  `BotSeats`, `Digits`).
- **Matchmaking.** There are two versions: the controller-based one (`Matchmaking`) and
  the first server's one (`LegacyWorld`, `LegacyLogic`). Both share the world state in
  `ServerWorld`.
- **The bots' steering and taunts** (`BotAi` with its pure functions, and the
  room-writing methods in `BotAiContexts`).
- **The ElasticSearch logger's buffering** (`EsLogger`): two bounded buffers, per-key
  sample lists, and min/avg/max aggregates.
- **The choice of a client's IP address** from the proxy headers (`SocketUtils`).

Numbers are reals. JavaScript's transcendental functions (`Math.sqrt`, `sin`, `cos`,
`atan2`, `pow`, `log2`, `PI`) are the fields of a `Numerics.Math` value passed to the
members that need them. Their laws (the square-root law, sin² + cos² = 1, `pow` of a
factor in (0, 1], `log2` monotone with `log2(2) = 1`) are predicates that the lemmas
relying on them take as preconditions.

Some helpers are called by the physics but their code is not part of this model. These
are `moveWithAcceleration`, `applyFriction`, `handleCircleCollisionWithLimits`,
`handleRawCirclesCollision` and `handleCircleRectangleCollision`. They are the fields of
a `PhysicsCommon.Callees` value, with no contracts of their own. Records that the source
updates in place are datatype values written back where they live. A room is a class
holding its players as a map plus the insertion order of their keys, which is the order
JavaScript visits them in.

## Model

| member | source | states |
|---|---|---|
| Types.WeaponTypesExact | common/types/weapon.ts:3-11 | `WEAPON_TYPES` has three entries, pairwise distinct; every weapon's tag is one of them and every entry is the tag of some weapon |
| Types.MakeFlailWeapon | common/types/weapon.ts:26-36 | a flail tagged "flail" at the given position, at rest, with weight 100, radius 10, chain 80 and top speed 1000 |
| Types.MakeAuraWeapon | common/types/weapon.ts:57-64 | an aura tagged "aura" with weight multiplier 2, reach 5 and damage multiplier 1.5 |
| Types.MakeSwordWeapon | common/types/weapon.ts:82-99 | a sword tagged "sword" pointing at π/2 with no spin; because the literal 60 equals its length, its tip is exactly `length` along the rotation from its base |
| Types.MakePlayer | common/types/player.ts:65-86 | identity, room, name, position and weapon from the arguments; health equal to its maximum 1000; radius 20, weight 50; at rest, not a bot; joined at the clock reading |
| Types.Without | common/types/room.ts:23 | deleting a key from the insertion order keeps exactly the other keys, and never lengthens the order |
| Types.WithoutDistinct | common/types/room.ts:23 | deleting a key keeps the key order free of repeats |
| Types.FirstField | server/logic.ai.ts:107 | the first field is a prefix of the text without the separator, followed by the separator unless it is the whole text |
| Types.FirstFieldOfSepFree | server/logic.ai.ts:107-117 | a separator-free text followed by a separator, or by nothing, is its own first field |
| Types.Room.constructor | common/types/room.ts:7-59 | a room with the given settings and no players |
| Types.Room.Put | common/types/room.ts:23 | writing a player under a key: the map gains or overwrites that entry; a new key goes last in iteration order, a known one keeps its place |
| Types.Room.Delete | common/types/room.ts:23 | deleting a key removes exactly that entry and that key from the iteration order |
| Types.Room.Values | common/types/room.ts:23 | `Object.values(room.players)`: the records in key order, one per key |
| Vector.AddNoneOrOne | common/vector.ts:7-13 | `add(v)` with no further vectors is v (the empty reduction is 0); with one it adds componentwise |
| Vector.SumAppend | common/vector.ts:7-13 | the sum of the extra vectors splits over a concatenation, so the folding order is immaterial |
| Vector.AddThree | common/vector.ts:7-13 | `add(v, a, b)` is `add(add(v, a), b)` |
| Vector.SubtractInverse | common/vector.ts:15-45 | adding back what was subtracted gives the original and the other way round; inverting twice is the identity; subtracting is adding the inverse |
| Vector.DivideInverse | common/vector.ts:23-37 | for a non-zero scalar, dividing undoes multiplying and multiplying undoes dividing |
| Vector.MagnitudeLaw | common/vector.ts:47-49 | the magnitude is non-negative, its square is x²+y²+z², and it is zero exactly for the zero vector |
| Vector.MagnitudeScale | common/vector.ts:23-49 | scaling by s multiplies the magnitude by abs(s) |
| Vector.WithMagnitudeLaw | common/vector.ts:51-63 | the zero vector gives (n, 0, 0); any other vector keeps its direction, scaled by n divided by its magnitude; either way the result's magnitude is abs(n) |
| Vector.InterpolateMagnitudeLaw | common/vector.ts:65-86 | the result has magnitude abs(target); at or above the top of the source range the target is maxTarget, at or below the bottom it is minTarget, and for ordered non-negative targets the magnitude stays within them |
| Vector.InterpolatedLengthBounds | common/vector.ts:81-85 | for ordered target bounds, the remapped length lies between them |
| Vector.InterpolatedLengthMonotone | common/vector.ts:72-85 | for ordered target bounds, a longer input never maps to a shorter target |
| Vector.ClampMagnitudeLaw | common/vector.ts:88-100 | a vector no longer than the bound is returned unchanged; a longer one gets magnitude exactly abs(bound) along its own direction; for a non-negative bound the result's magnitude is the smaller of the two |
| Vector.ClampLaw | common/vector.ts:102-116 | for ordered bounds every component lands inside its bounds, and a vector already inside is unchanged |
| Vector.RotatePreservesMagnitude | common/vector.ts:125-131 | given sin²+cos²=1, rotating keeps z, the squared norm and the magnitude |
| Numerics.JsRemainder | common/physics.weapon.sword.ts:65 | `%` on numbers: smaller than the divisor in size, with the sign of the dividend |
| Numerics.SqrtUnique | common/vector.ts:47-49 | under the square-root law, the non-negative root of x is the only non-negative r with r·r = x |
| Digits.Decimal | server/logic/room-controller.load-test.ts:33 | `${n}` prints at least one character, all of them decimal digits |
| Digits.NumberOf | server/logic/room-controller.load-test.ts:27 | a digit string, or the empty string, reads as its value; every other string is not modelled and gives None |
| Digits.NotANumberNotDigits | server/logic/room-controller.load-test.ts:27 | a string holding a character no number literal contains, which `Number` reads as NaN, is not a digit string |
| Digits.DecimalRoundTrip | server/logic/room-controller.load-test.ts:27-33 | reading back a printed whole number gives that number |
| Digits.DecimalInjective | server/logic/room-controller.load-test.ts:33 | different numbers print differently |
| PairOrder.Row | common/physics.player.ts:35-43 | the row of player i up to j has one entry per later player before j |
| PairOrder.RowSound | common/physics.player.ts:35-43 | every pair in player i's row is (order[i], order[c]) for a later c before j |
| PairOrder.RowNoRepeats | common/physics.player.ts:35-43 | over an order without repeats, no pair occurs twice in a row |
| PairOrder.AllPairsComplete | common/physics.ts:28-39 | every pair of positions a < b with a among the first i players is listed |
| PairOrder.AllPairsSound | common/physics.ts:28-39 | every listed pair is (order[a], order[b]) for positions a < b with a among the first i players |
| PairOrder.AllPairsNoRepeats | common/physics.ts:28-39 | over an order without repeats, no pair is listed twice |
| PairOrder.AllPairsLength | common/physics.ts:28-39 | the first i rows hold i(2n − i − 1)/2 pairs, n(n − 1)/2 once every player has had its turn |
| PairOrder.SameKey | common/physics.player.ts:39-43 | for distinct ids and a key function that tells pairs apart, two pairs of positions share a key exactly when they are the same pair |
| PairOrder.MetAdd | common/physics.player.ts:39-43 | a pair (i, j) with i < j has not been handled when the loop first meets it, and adding both orders of its key moves the handled set on by one |
| PairOrder.BooksStepOnce | common/physics.player.ts:36-43 | one inner step against player j: the collision runs exactly when i < j (the same player is skipped, an earlier pair is found handled) |
| PairOrder.BooksPassOnce | common/physics.player.ts:35-43 | player i's pass over the first j keys runs exactly its row of later players, in key order |
| PairOrder.BooksRow | common/physics.player.ts:35-69 | a whole pass of player i runs its row and leaves every pair with i handled |
| PairOrder.BooksPhaseOnce | common/physics.ts:28-39 | the collision loop over the first i players, from one fresh handled set, runs exactly the pairs a < b with a among them, row after row, each once |
| PhysicsCommon.PlayerWithBody | common/physics.common.ts:33-48 | a delegation: a collision routine writes back only the player's position and velocity |
| PhysicsCommon.FlailWithBody | common/physics.weapon.flail.ts:54-73 | a delegation: a collision routine writes back only the flail head's position and velocity |
| PhysicsCommon.CirclesCollision | common/physics.common.ts:11-49 | both colliders keep their radius and weight |
| PhysicsCommon.CirclesCollisionSeparated | common/physics.common.ts:20-25 | circles further apart than the sum of their radii are left as they are |
| PhysicsCommon.CirclesCollisionTouching | common/physics.common.ts:23-48 | touching circles (distance exactly r1 + r2, since the test is strict) and overlapping ones are corrected by the push |
| PhysicsCommon.CorrectByPush | common/physics.common.ts:27-48 | the first circle moves by −push and the second by +push; each velocity changes by its push times ELASTICITY (2) times the other circle's share of the total weight |
| PhysicsCommon.CorrectByZero | common/physics.common.ts:27-48 | a zero push changes neither circle |
| PhysicsCommon.CirclesCollisionPositionSum | common/physics.common.ts:27-34 | the two position corrections cancel, so the sum of the centres is unchanged |
| PhysicsCommon.PushLength | common/physics.common.ts:27-30 | the second circle's push has length 2·min(distance, r1 + r2 − distance), because clampMagnitude never lengthens |
| PhysicsCommon.PushAlongSeparation | common/physics.common.ts:15-30 | the push is the separation scaled by a non-negative factor |
| PhysicsCommon.CirclesCollisionMomentum | common/physics.common.ts:36-48 | weighted momentum is conserved: w1·Δv1 + w2·Δv2 = 0 for any total weight other than 0 |
| PhysicsCommon.CirclesCollisionCoincident | common/physics.common.ts:27-48 | coincident centres give a zero push, so neither circle changes |
| PhysicsCommon.CirclesCollisionSeparationGrows | common/physics.common.ts:15-34 | the distance between the centres never decreases |
| PhysicsExtensions.AngularFriction | common/physics.common.extensions.ts:30-36 | with a friction factor in (0, 1] and a non-negative step, the angular speed never grows in size and never changes sign |
| PhysicsExtensions.Adapt | common/physics.common.extensions.ts:41-63 | the adapted copy keeps angular speed, width, length, rotation, weight and tag of the collider |
| PhysicsExtensions.AdaptPosition | common/physics.common.extensions.ts:47-55 | a sword's adapted position is half its length along the rotation from the base; any other collider keeps its position |
| PhysicsExtensions.AdaptSpeed | common/physics.common.extensions.ts:57-63 | the synthetic velocity has magnitude 10·abs(angularSpeed) |
| PhysicsFlail.Integrated | common/physics.weapon.flail.ts:20 | a delegation: the integrator changes only the head's position and velocity |
| PhysicsFlail.MoveFlail | common/physics.weapon.flail.ts:14-40 | moving a flail changes only its head's position and velocity |
| PhysicsFlail.MoveFlailLaw | common/physics.weapon.flail.ts:20-39 | a chain no longer than its length leaves the integrated head alone; a longer one puts the head exactly the chain's length from the owner, and the velocity gains the displacement times ELASTICITY / elapsedTime |
| PhysicsFlail.ChainCorrected | common/physics.weapon.flail.ts:23-32 | moving a head beyond the chain by the chain vector clamped to the excess leaves it exactly the chain's length away |
| PhysicsFlail.FlailStep | common/physics.weapon.flail.ts:49-74 | one loop iteration keeps every record under its id and the owner's flail a flail |
| PhysicsFlail.FlailPass | common/physics.weapon.flail.ts:49-74 | the whole loop keeps every record under its id and the owner's flail a flail |
| PhysicsFlail.FlailCollisions | common/physics.weapon.flail.ts:42-75 | the loop over the room's records in key order gives the records and the events of the pass over the old records |
| PhysicsFlail.CollideFlail | common/physics.weapon.flail.ts:50-73 | the loop body writes the records and events of one pass step |
| PhysicsFlail.FlailPassEvents | common/physics.weapon.flail.ts:54-67 | every event of the pass is a strictly positive weaponCollision from the owner to another player, and earlier events are kept |
| PhysicsFlail.FlailStepFacts | common/physics.weapon.flail.ts:50-73 | the owner is skipped; otherwise at most one event, emitted exactly when the other player's damage is positive, with amount damage / elapsedTime; the other player's body takes the routine's result and its weapon changes only when it is a flail |
| PhysicsFlail.FlailLimits | common/physics.weapon.flail.ts:77-89 | a delegation: the wall routine gets the room's width and height, and only the head's position and velocity change |
| PhysicsFlail.FlailFriction | common/physics.weapon.flail.ts:91-98 | a delegation: the friction routine gets the head and the step, and only the head's position and velocity change |
| PhysicsAura.BodyContact | common/physics.weapon.aura.ts:19-37 | the aura-versus-body contact changes only the position and velocity of the two players |
| PhysicsAura.AuraContact | common/physics.weapon.aura.ts:41-66 | the aura-versus-aura contact changes only the position and velocity of the two players |
| PhysicsAura.AuraStep | common/physics.weapon.aura.ts:15-66 | one loop iteration keeps every key of the room, the owner's weapon, the handled set and the collision list |
| PhysicsAura.AuraPass | common/physics.weapon.aura.ts:14-68 | the whole loop keeps every key of the room, the owner's weapon, the handled set and the collision list |
| PhysicsAura.AuraCollisions | common/physics.weapon.aura.ts:7-69 | the loop over the room's keys in insertion order leaves the records and returns the events that the pass function gives |
| PhysicsAura.CollideAura | common/physics.weapon.aura.ts:15-66 | the loop body for one other record agrees with the step function: body contact first, then aura contact only when the other player has an aura |
| PhysicsAura.BodyContactEvents | common/physics.weapon.aura.ts:29-37 | the body contact emits at most one event; it damages the other player, names the owner as cause and is positive when the damage multiplier is |
| PhysicsAura.AuraContactEvents | common/physics.weapon.aura.ts:51-66 | the aura contact emits at most two positive events between owner and other; with two, the one damaging the owner comes first |
| PhysicsAura.AuraStepFacts | common/physics.weapon.aura.ts:15-66 | the owner is skipped; a step adds at most three events, the body-contact event before the aura events, and only the body event when the other has no aura |
| PhysicsAura.AuraPassEvents | common/physics.weapon.aura.ts:14-68 | earlier events are kept, at most three are added per other record, and each is a weaponCollision between the owner and a different player |
| PhysicsPlayer.GainLaw | common/physics.player.ts:13-23 | the log2 gain factor is at least 1, so each effective component keeps the requested sign, is at least as large, and stays zero for a zero request |
| PhysicsPlayer.MovePlayerLaw | common/physics.player.ts:11-26 | movePlayer changes only position and velocity, as the integrator gives them under the room's speed cap; the acceleration passed agrees in sign with the request and is at least as large on every axis |
| PhysicsPlayer.PlayerStep | common/physics.player.ts:35-67 | one loop iteration keeps every key of the room |
| PhysicsPlayer.PlayerPass | common/physics.player.ts:35-68 | the whole loop keeps every key of the room |
| PhysicsPlayer.PlayerCollisions | common/physics.player.ts:28-69 | the loop over the room's keys in insertion order leaves the records, the handled set, the events and the collision list that the pass function gives |
| PhysicsPlayer.CollidePlayers | common/physics.player.ts:36-67 | the loop body for one other record agrees with the step function |
| PhysicsPlayer.GrowsTransitive | common/physics.player.ts:35-68 | the pass invariant composes across iterations |
| PhysicsPlayer.PlayerPassFacts | common/physics.player.ts:35-68 | each collision pairs the player with a different one and puts both orders of the pair in the handled set; each event is a positive playerCollision between the two players of one of those collisions; earlier entries are kept |
| PhysicsPlayer.PlayerStepFacts | common/physics.player.ts:36-67 | a step runs at most one collision, between the two records given, and emits no event and adds no handled key without it |
| PhysicsPlayer.PlayerStepBooks | common/physics.player.ts:36-43 | the same player or a pair already handled leaves the handled set and the collision list alone; otherwise both orders of the pair are added |
| PhysicsPlayer.PlayerLimits | common/physics.player.ts:71-73 | a delegation: only position and velocity change, to the wall routine's result for the room's width and height |
| PhysicsPlayer.PlayerFriction | common/physics.player.ts:75-77 | a delegation: only position and velocity change, to the friction routine's result; the room is not used |
| PhysicsWeapon.MoveWeapon | common/physics.weapon.ts:8-14 | only the weapon changes and it keeps its type; a flail moves with its owner's position and the room's gravity, and any other weapon is unchanged |
| PhysicsWeapon.WeaponPass | common/physics.weapon.ts:16-22 | every key is kept, no handled key or collision is recorded, and a player without a flail changes nothing |
| PhysicsWeapon.WeaponPassEvents | common/physics.weapon.ts:16-22 | every event is a positive weaponCollision the player caused to someone else; a player without a flail causes none |
| PhysicsWeapon.WeaponCollisions | common/physics.weapon.ts:16-22 | the dispatch leaves the records and returns the events the pass function gives |
| PhysicsSword.MoveSword | common/physics.weapon.sword.ts:10-75 | only the sword changes: pinned to the player, turned by angular speed times elapsedTime, tip at its length along the new rotation; the new angular speed is the old one plus the torque over min(elapsedTime, 0.025), minus the drag over min(50·elapsedTime, 1.5) only when the player's speed exceeds 1 |
| PhysicsSword.MoveSwordBounds | common/physics.weapon.sword.ts:32-73 | the gravity torque is at most 3 in size, the drag at most 0.04 times the player's speed, and the two time steps lie in [0, 0.025] and [0, 1.5] |
| PhysicsSword.DragBound | common/physics.weapon.sword.ts:69-70 | the drag is at most 0.04 times the player's speed in size |
| PhysicsSword.UnitSine | common/physics.weapon.sword.ts:50 | under sin² + cos² = 1 a sine is at most 1 in size |
| PhysicsSword.SwordStep | common/physics.weapon.sword.ts:88-120 | one loop iteration keeps every key, the owner's record, the handled set and the collision list |
| PhysicsSword.BladeContact | common/physics.weapon.sword.ts:93-106 | the body-versus-blade contact keeps the other player's id and emits at most one event |
| PhysicsSword.HeadContact | common/physics.weapon.sword.ts:108-119 | only a flail head meets the blade; an aura or a sword leaves the player and the blade as they were |
| PhysicsSword.SwordPass | common/physics.weapon.sword.ts:87-121 | the whole loop keeps every key, the owner's record, the handled set and the collision list |
| PhysicsSword.SwordCollisions | common/physics.weapon.sword.ts:77-121 | one adapted copy of the sword is made before the loop; the loop over the keys in insertion order leaves the records and returns the events that the pass function gives |
| PhysicsSword.StrikeWithSword | common/physics.weapon.sword.ts:88-120 | the loop body for one other record agrees with the step function, including the moved adapted blade |
| PhysicsSword.SwordStepFacts | common/physics.weapon.sword.ts:88-120 | the owner is skipped; a step adds at most one event, which the owner causes to the other record's player; an aura or sword weapon of the other player is left alone |
| PhysicsSword.SwordPassEvents | common/physics.weapon.sword.ts:87-121 | earlier events are kept, at most one is added per record visited, and each is a weaponCollision from the owner to another player, positive when the damage multiplier is |
| PhysicsSword.Penetration | common/physics.weapon.sword.ts:146-173 | positive past the low wall, negative past the high wall (looked at only when the low one is not crossed), and zero exactly when the blade is inside |
| PhysicsSword.Limited | common/physics.weapon.sword.ts:139-191 | only the player's velocity and weapon change, and the weapon stays a sword |
| PhysicsSword.SwordLimits | common/physics.weapon.sword.ts:123-192 | the method computes the axis-by-axis specification of the limits pass |
| PhysicsSword.WallContact | common/physics.weapon.sword.ts:146-173 | one axis adds its penetration to the pushback, sets the collision flag exactly when the wall is crossed, and bounces the angular speed by −0.6 then |
| PhysicsSword.SwordLimitsLaw | common/physics.weapon.sword.ts:123-192 | a tip inside the room changes nothing but the stored tip; one crossed axis scales the angular speed by −0.51, two by 0.306; a crossed low wall never lowers that velocity component; z is unchanged |
| PhysicsSword.SwordPushbackUnbounded | common/physics.weapon.sword.ts:180-187 | as written, a blade 8 wide whose tip is at x = 2000 in a room 1000 wide changes the x velocity by −6526·elapsedTime, beyond the 200 cap |
| PhysicsSword.CappedPushback | common/physics.weapon.sword.ts:181-184 | the corrected pushback lies in [−200, 200], keeps the penetration's sign, and equals the one as written whenever that is at least −200 |
| PhysicsSword.SwordLimitsCappedLaw | common/physics.weapon.sword.ts:175-191 | with the two-sided cap, no velocity component changes by more than 200·elapsedTime, each crossed wall pushes the player back inside, and the sword ends as in the pass as written |
| PhysicsSword.SwordFrictionFactor | common/physics.weapon.sword.ts:204-219 | the factor is 0.85 exactly when player speed is under 3 and blade speed under 0.3, 0.97 exactly when only the player is slow, 0.99 exactly when the player speed is at least 3 |
| PhysicsSword.SwordFriction | common/physics.weapon.sword.ts:194-220 | only the angular speed changes, by the angular friction of the regime's factor; for a non-negative elapsedTime it never grows in size and keeps its sign |
| Physics.Moved | common/physics.ts:22-25 | the move phase on one player keeps its id and its weapon type |
| Physics.EachPlayer | common/physics.ts:22-25 | a loop over the room's keys in insertion order applies the per-player step to every record, and to nothing else |
| Physics.CollisionStep | common/physics.ts:30-39 | one iteration of the collision loop keeps every key |
| Physics.CollisionPhase | common/physics.ts:28-39 | the whole collision loop keeps every key |
| Physics.Collisions | common/physics.ts:28-39 | one handled set for the whole loop; the loop leaves the records and returns the events and collision pairs that the phase function gives |
| Physics.CollisionRound | common/physics.ts:31-38 | the loop body for the player at one position agrees with one more step of the phase function |
| Physics.MovedAll | common/physics.ts:22-25 | the move phase keeps the room's keys |
| Physics.BoundedAll | common/physics.ts:42-45 | the limits phase keeps the room's keys |
| Physics.SlowedAll | common/physics.ts:48-51 | the friction phase keeps the room's keys |
| Physics.TickOf | common/physics.ts:16-52 | every phase of a tick keeps the room's keys |
| Physics.ApplyPhysics | common/physics.ts:16-52 | the four loops run in order; the records end as the tick's friction phase gives them, and the events passed to the callback are the collision phase's |
| Physics.MovePhase | common/physics.ts:22-25 | the move loop leaves every record moved |
| Physics.LimitsPhase | common/physics.ts:42-45 | the limits loop leaves every record bounded by the walls |
| Physics.FrictionPhase | common/physics.ts:48-51 | the friction loop leaves every record slowed |
| Physics.CollisionPhaseBooks | common/physics.ts:28-39 | for records stored under their own ids, the handled set and the collision list of the phase are the pure bookkeeping fold over the key order |
| Physics.TickCollidesEachPairOnce | common/physics.ts:28-39 | with records stored under their own ids and unambiguous pair keys, the player-player collision runs exactly once per unordered pair, the earlier key first, and for no other pair |
| PhysicsPairs.PlayerPassBooks | common/physics.player.ts:35-68 | for records stored under their own ids, the handled set and collision list of a player pass are the bookkeeping fold, and the ids stay the keys |
| RoomTick.DamageStep | server/logic/room-controller.base.ts:96-107 | one event neither adds nor removes a key of the room |
| RoomTick.Hurt | server/logic/room-controller.base.ts:102 | only the health changes, by minus the amount |
| RoomTick.Mourn | server/logic/room-controller.base.ts:104-106 | the id is added at the end exactly when the health is at most zero and the id is not yet in the set; otherwise the set is unchanged |
| RoomTick.DamageFold | server/logic/room-controller.base.ts:93-107 | the damage loop neither adds nor removes a key of the room |
| RoomTick.FoldStops | server/logic/room-controller.base.ts:97-98 | once the loop has stopped at a missing target, later events change nothing |
| RoomTick.MissingTarget | server/logic/room-controller.base.ts:97-98 | the loop gets past the first i events exactly when each of them names a key of the room |
| RoomTick.DamageHealth | server/logic/room-controller.base.ts:96-107 | without a missing target, every player ends with its health minus the total aimed at it, and nothing else in the record changes |
| RoomTick.DamageUntouched | server/logic/room-controller.base.ts:96-107 | a player that no event names keeps its record, whether or not the loop stops |
| RoomTick.DeadExactly | server/logic/room-controller.base.ts:93-107 | an id is in the dead set exactly when some event left the record it hit, of that id, with health at most zero |
| RoomTick.DeadDistinct | server/logic/room-controller.base.ts:93 | each dead id is collected once |
| RoomTick.DamageKeepsIds | server/logic/room-controller.base.ts:96-107 | the records keep their ids |
| RoomTick.DeadAreKeys | server/logic/room-controller.base.ts:93-107 | with records stored under their own ids, that stays so and every dead id is a key of the room |
| RoomTick.ApplyDamages | server/logic/room-controller.base.ts:93-107 | the loop over the events leaves the records and the dead set that the fold gives, and reports whether it got past every event |
| LegacyLogic.Deaths | server/logic.ts:29-33 | one playerDied notice per dead id |
| LegacyLogic.LegacyEvictionsComplete | server/logic.ts:29-36 | with distinct dead ids that are all keys, the loop never stops early: each dead player is announced once, in set order, and removed, and the others keep their records |
| LegacyLogic.LegacyRemovesTheDead | server/logic.ts:12-36 | after a damage loop that found every target, exactly the players left with no health are announced, once each, and deleted, and the rest keep their records |
| LegacyLogic.LegacyEvictionsOrdered | server/logic.ts:29-36 | the removal loop keeps the key order in step with the records |
| LegacyLogic.LegacyEvict | server/logic.ts:29-36 | the loop announces and deletes as the removal fold gives, and reports whether every dead id was found |
| LegacyLogic.LegacyEvictionsStop | server/logic.ts:30-31 | once the removal loop has stopped, later ids change nothing |
| LegacyLogic.LegacyUpdateRoom | server/logic.ts:7-39 | physics, then the damage loop, then the removal loop; it fails where an assertion fails, with the room as the loops left it, and otherwise ends its notices with roomUpdated; the room is never deleted |
| LegacyWorld.LegacyRoom.constructor | server/world.ts:57-60 | a new room has the given id and no players |
| LegacyWorld.LegacyServer.constructor | server/world.ts:15-24 | no rooms, no sockets, and the counter at 1 |
| LegacyWorld.LegacyServer.FindOrCreateRoomWithSpace | server/world.ts:50-65 | the first room in key order with fewer than three players is returned, nothing changing; with none, a new empty room under the counter, which moves on, is stored and returned |
| LegacyWorld.LegacyServer.JoinPlayer | server/world.ts:26-44 | a player under the socket's id, with full health at rest at the origin, joins the room found or created, and its socket is kept under the same id |
| ServerWorld.InsertId | server/logic/logic.ts:60 | writing a room id keeps the ids ascending and adds just that id |
| ServerWorld.RemoveId | server/logic/room-controller.base.ts:122 | deleting a room id keeps the ids ascending and removes just that id |
| ServerWorld.FirstIn | server/logic/logic.ts:45-56 | a scan in key order returns the first room that passes the test, or none when no room does |
| ServerWorld.InsertIdPresent | server/logic/logic.ts:77 | writing under an id already held leaves the key order as it is |
| ServerWorld.InsertIdAbove | server/world.ts:58-62 | a new id above every held id goes last |
| ServerWorld.World.constructor | server/world.ts:15-24 | the world starts with no rooms, players, sockets or notices |
| ServerWorld.World.TakeRoomId | server/logic/room-controller.bots.ts:8 | the current counter is used and the counter moves on by one |
| ServerWorld.World.PutRoom | server/logic/logic.ts:60 | the room is stored under its own id and the index stays valid |
| ServerWorld.World.DeleteRoom | server/logic/room-controller.base.ts:122 | the room id is removed from the map and the ordered index |
| BotSeats.NaNTailNoNumber | server/logic/room-controller.load-test.ts:27 | an id whose tail `Number` reads as NaN gives no bot number |
| BotSeats.NaNBotIdIsNaN | server/logic/room-controller.load-test.ts:27-33 | the id `_BOT_NaN` reads back as NaN again, and differs from every numbered bot's id |
| BotSeats.AddNaNBot | server/logic/room-controller.load-test.ts:32-41 | `addBot(NaN, …)` writes the bot `_BOT_NaN`, named `BOT NaN`, at the NaN x stand-in and half the room's height, with a flail there; the key order grows only when the id is new |
| BotSeats.BotIdRoundTrip | server/logic/room-controller.load-test.ts:27-29 | reading the number back from a bot id gives the number it was built from |
| BotSeats.BotIdInjective | server/logic/room-controller.load-test.ts:33 | different bot numbers give different ids |
| BotSeats.BotOrder | server/logic/room-controller.bots.ts:10-19 | bots 1 to i give i insertion-order entries |
| BotSeats.BotOrderAt | server/logic/room-controller.bots.ts:10-19 | the insertion order lists the ids of bots 1 to i, in that order |
| BotSeats.BotOrderDistinct | server/logic/room-controller.bots.ts:10-19 | the ids of bots 1 to i are pairwise distinct |
| BotSeats.BotSeatsKeys | server/logic/room-controller.bots.ts:10-19 | the players written are exactly the ids in the insertion order |
| BotSeats.BotSeatsFresh | server/logic/room-controller.bots.ts:11 | the next bot's id is not yet taken |
| BotSeats.BotSeatsCount | server/logic/room-controller.bots.ts:10-19 | writing bots 1 to i gives a room of exactly i players |
| BotSeats.BotSeatsAt | server/logic/room-controller.bots.ts:11-18 | bot j sits under `_BOT_<j>`, named `BOT <j>`, with its own position and a flail there |
| BotSeats.BotSeatsOrdered | server/logic/room-controller.bots.ts:10-19 | the records and the key order agree after the bots are written |
| BotSeats.BotPositionInside | server/logic/room-controller.bots.ts:13-16 | every bot sits strictly inside the room's width, on its horizontal mid-line |
| BotSeats.AddBot | server/logic/room-controller.load-test.ts:32-41 | bot n is written under its id, with its name, position and flail, and the key order grows only when the id is new |
| RoomKinds.LoadTestConfig | server/logic/room-controller.load-test.ts:11-15 | a base room with one seat more than the bots, 1000 of width per bot and a height of 1000; the other settings are the base room's |
| RoomKinds.NewBotsRoom | server/logic/room-controller.bots.ts:7-22 | a base room under the next room id, which moves on, with bots 1 to botCount written in order, and a base controller over it |
| RoomKinds.NewLoadTestRoom | server/logic/room-controller.load-test.ts:10-22 | the load-test settings under the next room id, which moves on, with bots 1 to botCount added in order, and a load-test controller over it |
| RoomKinds.NewNormalRoom | server/logic/room-controller.normal.ts:5-8 | the room the room maker gives for the next room id, which moves on, empty, with a base controller |
| RoomKinds.SeatedRoomHasSpace | server/logic/logic.ts:62-65 | a room seated with fewer bots than seats has a free seat, so the default bots room and every load-test room are never created full |
| Matchmaking.BotsRoomHasSpace | server/logic/logic.ts:62-65 | the default bots room passes the "Room was created full" assertion |
| Matchmaking.Matchmaker.constructor | server/logic/logic.ts:12 | no controllers at start |
| Matchmaking.Matchmaker.CreateRoom | server/logic/logic.ts:73-79 | a bots room or a normal room from the next room id, stored in the world and given its controller under its own id |
| Matchmaking.Matchmaker.FirstRoomWithSpace | server/logic/logic.ts:45-56 | the scan returns the first room in key order whose bot flag matches the request and that has a free seat, or none when no room does |
| Matchmaking.Matchmaker.CreateRoomWithSpace | server/logic/logic.ts:58-67 | the new room is stored once more and returned when it has a free seat; the assertion fails exactly when it is full, which the bots room never is |
| Matchmaking.Matchmaker.FindOrCreateRoomWithSpace | server/logic/logic.ts:44-68 | a found room has a free seat and is stored under its id; the first fitting room is returned with nothing changed, and only when none fits is a room created |
| Matchmaking.Matchmaker.SeatPlayer | server/logic/logic.ts:22-25 | the room's controller seats the player at the room's centre with a flail, under the socket's id in the room, playersById and the sockets |
| Matchmaking.Matchmaker.JoinPlayer | server/logic/logic.ts:14-31 | the player joins the first fitting room, or a fresh one, and is registered under the socket's id; a failed join registers nothing |
| Matchmaking.Matchmaker.DisconnectPlayer | server/logic/logic.ts:33-39 | the controller of the player's room disconnects the player; a missing controller fails and changes nothing |
| Matchmaking.Matchmaker.RunInterval | server/logic/logic.ts:81-97 | a firing stops once the room has left the world, changing nothing; otherwise it runs the room's update over the elapsed time in seconds, and never adds a room |
| RoomControllers.BaseRoomConfig | server/logic/room-controller.base.ts:23-33 | a base room has five seats, a 2000 by 2000 size, gravity (0, 200), speed cap 500 and acceleration cap 400 |
| RoomControllers.Pass | server/logic/room-controller.base.ts:110-118 | the removal loop goes on exactly when it had not stopped and the dead id is in the room |
| RoomControllers.Farewells | server/logic/room-controller.base.ts:110-118 | two notices per dead player, playerDied then playerLeft |
| RoomControllers.Steered | server/logic/room-controller.base.ts:71-80 | the bots step keeps the room's keys |
| RoomControllers.WithoutAppended | server/logic/room-controller.base.ts:51-61 | deleting a key that was just appended gives the key order back |
| RoomControllers.JoinThenLeave | server/logic/room-controller.base.ts:37-66 | a player who joins under a fresh id and then leaves leaves the room and both server-wide maps as they were; only the playerLeft notice remains |
| RoomControllers.BotRespawned | server/logic/room-controller.load-test.ts:24-30 | the load-test room seats a leaving bot again under the same id, now last in key order and with a fresh record, and still takes it out of both maps |
| RoomControllers.Disconnected | server/logic/room-controller.base.ts:56-66 | after either controller's disconnect the leaving id is in neither server-wide map, and playerLeft is the one notice appended |
| RoomControllers.DisconnectedStays | server/logic/room-controller.load-test.ts:24-30 | the leaving id stays in the room only when the load-test room seats a bot under it: a bot id, or `_BOT_NaN` |
| RoomControllers.SeatedOrdered | server/logic/room-controller.load-test.ts:40 | writing a record under a key keeps the key order in step with the records |
| RoomControllers.NaNBotSeated | server/logic/room-controller.load-test.ts:24-41 | a player whose id's number is NaN, as a human's usually is, leaves the load-test room and `_BOT_NaN` is written into it, last in key order when new |
| RoomControllers.DisconnectedBooks | server/logic/room-controller.base.ts:56-66 | both controllers take the id out of both server-wide maps and announce playerLeft |
| RoomControllers.DisconnectedOrdered | server/logic/room-controller.base.ts:61 | a disconnect keeps the key order in step with the records |
| RoomControllers.PassOrdered | server/logic/room-controller.base.ts:110-118 | a removal pass keeps the key order in step with the records |
| RoomControllers.EvictionsOrdered | server/logic/room-controller.base.ts:110-118 | the removal loop keeps the key order in step with the records |
| RoomControllers.EvictionsStop | server/logic/room-controller.base.ts:111-112 | once the removal loop has stopped at a missing id, later ids change nothing |
| RoomControllers.GoneIsPrefix | server/logic/room-controller.base.ts:110 | the ids removed so far are exactly the visited prefix of the dead set |
| RoomControllers.DistinctNoRepeats | server/logic/room-controller.base.ts:93 | a dead set without duplicates visits no id twice |
| RoomControllers.PassBooks | server/logic/room-controller.base.ts:110-118 | a pass that finds its id takes it out of both maps and announces playerDied and playerLeft with the record found, in both kinds of room |
| RoomControllers.BooksStep | server/logic/room-controller.base.ts:110-118 | one more pass that finds its dead player with the original record takes it out of both maps and appends playerDied then playerLeft |
| RoomControllers.EvictionsBooks | server/logic/room-controller.base.ts:110-118 | when each pass finds its dead player with the original record, the loop takes every dead id out of both maps and announces each, playerDied then playerLeft, in set order |
| RoomControllers.BaseEvictionsFound | server/logic/room-controller.base.ts:110-118 | in a base room, distinct dead ids that are keys are each found and leave the room; every other player keeps its record |
| RoomControllers.BaseEvictionsComplete | server/logic/room-controller.base.ts:110-118 | in a base room each dead player is announced once and leaves both server-wide maps |
| RoomControllers.BaseRemovesTheDead | server/logic/room-controller.base.ts:93-118 | after a damage loop that found every target, exactly the players left with no health are announced once each and leave the room and both maps; the others keep their damaged records |
| RoomControllers.LoadTestReseats | server/logic/room-controller.load-test.ts:24-30 | a disconnect in the load-test room seats the bot numbered by a bot id again under that same id |
| RoomControllers.ReseatOne | server/logic/room-controller.load-test.ts:29 | seating one more dead bot extends the reseated set by that id |
| RoomControllers.LoadTestPass | server/logic/room-controller.load-test.ts:24-30 | a load-test pass on a bot id not yet removed finds it and seats its bot again |
| RoomControllers.LoadTestEvictionsFound | server/logic/room-controller.load-test.ts:24-30 | when every dead id is a bot id, the load-test room keeps all its keys and every dead bot gets the fresh record of its number; the others keep theirs |
| RoomControllers.LoadTestFoundAt | server/logic/room-controller.load-test.ts:24-30 | each load-test pass finds its dead bot with the record it had at the start |
| RoomControllers.LoadTestEvictionsComplete | server/logic/room-controller.load-test.ts:24-30 | in the load-test room each dead bot is announced once and leaves both server-wide maps |
| RoomControllers.RoomController.constructor | server/logic/room-controller.base.ts:35 | the controller holds the given room |
| RoomControllers.RoomController.JoinPlayer | server/logic/room-controller.base.ts:37-54 | a new player under the socket's id at the centre of the room with a flail there, registered in the room, playersById and the sockets |
| RoomControllers.RoomController.DisconnectPlayer | server/logic/room-controller.base.ts:56-66 | the id leaves the room and both maps and playerLeft is broadcast; the load-test room then seats bot n for an id read as n, and `_BOT_NaN` for an id read as NaN |
| RoomControllers.RoomController.EvictOne | server/logic/room-controller.base.ts:110-118 | one removal pass agrees with the pass function, and reports whether the id was in the room; in the load-test room a dead human brings in `_BOT_NaN`, a dead bot its own number |
| RoomControllers.RoomController.EvictDead | server/logic/room-controller.base.ts:110-118 | the removal loop leaves the state the fold of load-test-aware disconnects gives, and reports whether every dead id was found |
| RoomControllers.RoomController.UpdateRoom | server/logic/room-controller.base.ts:68-127 | bots, physics, damage and removal in order; it fails where an assertion fails without touching the world's rooms; otherwise the room is deleted exactly when no human is left, and roomUpdated is broadcast last either way |
| BotAi.FirstHuman | server/logic.ai.ts:24 | the place found holds a human and every player before it is a bot; none exactly when every player is a bot |
| BotAi.SpeedShare | server/logic.ai.ts:31-33 | the speed share lies in [0, 1], is the speed over the cap inside the range and 1 at or beyond the cap |
| BotAi.TurnAngle | server/logic.ai.ts:34 | the turn angle lies between 0 and pi / 1.5 |
| BotAi.OtherBots | server/logic.ai.ts:44-46 | a player is among the other bots exactly when it is a bot of the room with another id |
| BotAi.Near | server/logic.ai.ts:52-54 | the bots kept are bots of the list within 300 of the bot |
| BotAi.RepulsionOnlyNear | server/logic.ai.ts:48-62 | the push summed over all other bots equals the push summed over those within 300 only |
| BotAi.AgainstBotsLength | server/logic.ai.ts:64-69 | a zero push stays zero; any other push gets length two thirds of the maximum acceleration |
| BotAi.SteeringMagnitude | server/logic.ai.ts:29-82 | with or without a human to chase, the new acceleration has exactly the room's maximum acceleration as its length |
| BotAi.ReplaceAllAbsent | server/logic.ai.ts:109-112 | a text in which the placeholder never occurs is left unchanged by the global replace |
| BotAi.JsIntRemainder | server/logic.ai.ts:109 | the JavaScript remainder lies strictly between -b and b, is the Euclidean one for non-negative operands and the negated one of the negation for non-positive ones |
| BotAi.MessageIndexChoice | server/logic.ai.ts:103-109 | a non-negative offset picks the taunt at offset mod 8, a negative multiple of 8 picks taunt 0, any other negative offset picks none |
| BotAi.RenamedKeepsName | server/logic.ai.ts:107-117 | the part of a bot's name before the first colon is the same after the rename, with or without a target |
| BotAi.NameStep | server/logic.ai.ts:86-101 | after the step the bot's stamp is within 5000 ms of now; the stamps are unchanged or stamped with now; only the username of the bot can change |
| BotAi.RenamedAtMostEveryFiveSeconds | server/logic.ai.ts:89-94 | once a bot has been renamed, a call up to 5000 ms later changes neither the bot nor the stamps |
| BotAi.BotKeys | server/logic.ai.ts:26 | the keys visited are exactly the keys of the room that hold bots |
| BotAi.BotKeysDistinct | server/logic.ai.ts:26 | the loop visits each bot once: distinct room keys give distinct bot keys |
| BotAi.DrawsBefore | server/logic.ai.ts:37-38 | the first j bots take an even number of random draws, at most two each |
| BotAi.SteeredInOrderAppend | server/logic.ai.ts:26-82 | a list of accelerations for the first n bots, extended by the next bot's acceleration, is the list for n + 1 bots |
| BotAi.SteeredInOrderUnique | server/logic.ai.ts:26-82 | the accelerations are determined by the records, the target and the random numbers |
| BotAi.SteeredMagnitude | server/logic.ai.ts:26-82 | every acceleration the loop hands out has the maximum acceleration as its length |
| BotAi.BotsUpdated | server/logic.ai.ts:26-83 | the loop keeps the room's keys |
| BotAi.BotsUpdatedUntouched | server/logic.ai.ts:26-83 | a player the loop has not reached keeps its record |
| BotAi.BotsUpdatedShape | server/logic.ai.ts:26-83 | the loop changes at most the username and the acceleration of a player |
| BotAi.BotsUpdatedMagnitude | server/logic.ai.ts:82 | a bot the loop has handled holds one of the accelerations handed out, so it has their common length |
| BotAi.BotsUpdatedPrefix | server/logic.ai.ts:26-83 | after i bots the state depends only on the first i accelerations |
| BotAi.BotsStep | server/logic.ai.ts:27-82 | renaming the next bot and storing it with the next acceleration gives the state after one more bot |
| BotAi.UpdatedBotsUnique | server/logic.ai.ts:23-84 | updateBots has a single outcome for each room, set of stamps, random numbers and clock reading |
| BotAi.UpdateBotsChangesOnlyBots | server/logic.ai.ts:23-84 | after updateBots every human keeps its record, every bot keeps all but its username and acceleration, and every bot accelerates at exactly the room's maximum |
| BotAi.TurnsDoneStart | server/logic.ai.ts:24-26 | the loop starts with no bot handled, no accelerations, no draws, and the records and stamps as they are |
| BotAi.TurnsDoneEnd | server/logic.ai.ts:26-83 | when the loop has visited every bot, its state is the full list of accelerations and the records after the last bot |
| BotAi.TurnStep | server/logic.ai.ts:27-82 | one turn, renaming and steering the next bot from the record as the loop found it, advances the loop state by one bot |
| BotAiContexts.SteerBot | server/logic.ai.ts:29-82 | only the bot under the key changes, getting the steering acceleration drawn from the next two random numbers |
| BotAiContexts.AiContexts.constructor | server/logic.ai.ts:96-100 | no bot has been renamed yet |
| BotAiContexts.AiContexts.UpdateBotName | server/logic.ai.ts:86-118 | the bot's record and the stamps become the result of the rename step and no other player changes |
| BotAiContexts.AiContexts.UpdateBot | server/logic.ai.ts:27-82 | the bot is renamed and then steered, all other players are unchanged, and the bot takes two random draws when it stands still and none otherwise |
| BotAiContexts.AiContexts.UpdateBotAt | server/logic.ai.ts:26-83 | one turn of the loop advances the loop state from i bots to i + 1 |
| BotAiContexts.AiContexts.UpdateBots | server/logic.ai.ts:23-84 | the room's records and stamps become the outcome of updateBots on the old room, with the key order kept |
| BotAiContexts.AiContexts.UpdateBotsInOrder | server/logic.ai.ts:26-83 | after the loop each bot key holds its steered acceleration in visiting order, and the records and stamps are those after the last bot |
| EsLogger.StatsKey | server/utils/logger.elastic-search.ts:79 | the key is the name, then `__`, the JSON of the extra (or nothing), then `--` and the unit; its length is the sum of those parts |
| EsLogger.SplitAtFirst | server/utils/logger.elastic-search.ts:79 | a word splits in one way only at the first occurrence of a separator that neither head contains |
| EsLogger.SplitAtLast | server/utils/logger.elastic-search.ts:79 | a word splits in one way only at the last occurrence of a separator that neither tail contains |
| EsLogger.KeyParts | server/utils/logger.elastic-search.ts:79 | a key reads as name, `_`, a middle part, `-`, unit, with the extra's text inside the middle part |
| EsLogger.StatsKeyInjective | server/utils/logger.elastic-search.ts:79-80 | two samples with no `_` in their names and no `-` in their units and extras share a key only when their name, unit and extra are equal |
| EsLogger.MaxValue | server/utils/logger.elastic-search.ts:203 | the maximum is one of the values and no value exceeds it |
| EsLogger.MinValue | server/utils/logger.elastic-search.ts:204 | the minimum is one of the values and no value lies below it |
| EsLogger.SumBetween | server/utils/logger.elastic-search.ts:202 | the sum of n values lies between n times a lower bound and n times an upper bound of the values |
| EsLogger.MeanBetween | server/utils/logger.elastic-search.ts:205 | a sum bounded by n times lo and n times hi, divided by n, lies between lo and hi |
| EsLogger.MeanOfBounded | server/utils/logger.elastic-search.ts:202-205 | the mean of a non-empty list lies between any lower and upper bounds of its values |
| EsLogger.StatsFromMean | server/utils/logger.elastic-search.ts:200-208 | in every aggregate the minimum is at most the mean, and the mean is at most the maximum |
| EsLogger.Flush | server/utils/logger.elastic-search.ts:102-132 | the buffer ends empty; an empty buffer sends nothing; otherwise the documents sent gain exactly the buffer's, in order |
| EsLogger.Push | server/utils/logger.elastic-search.ts:157-168 | a buffer below the limit stays below it; well below the limit the document is only appended; the documents sent, followed by those buffered, gain exactly the new one at the end |
| EsLogger.PushAll | server/utils/logger.elastic-search.ts:139-145 | after several pushes the buffer stays below the limit, and sent followed by buffered documents gain exactly the pushed ones, in order |
| EsLogger.PushAllSnoc | server/utils/logger.elastic-search.ts:139-145 | pushing one more document is one more push after the others |
| EsLogger.PendingStart | server/utils/logger.elastic-search.ts:82-84 | a first sample under a new key keeps the pending lists well formed, with the key last in insertion order |
| EsLogger.PendingAdd | server/utils/logger.elastic-search.ts:87-89 | another sample of a pending key below 500 keeps the pending lists well formed |
| EsLogger.PendingDrop | server/utils/logger.elastic-search.ts:92 | deleting a key keeps the remaining lists well formed, in their order |
| EsLogger.AggregatesOnePerKey | server/utils/logger.elastic-search.ts:139-145 | when every pending key holds a sample, there is exactly one aggregate per key, in key order, of that key's samples |
| EsLogger.AggregatesSnoc | server/utils/logger.elastic-search.ts:139-145 | one more key adds its aggregate at the end, or nothing when its list is empty |
| EsLogger.ElasticSearchLogger.constructor | server/utils/logger.elastic-search.ts:27-40 | the indices are the namespace with `_logs` and `_stats` appended, every buffer is empty, and the interval is set |
| EsLogger.ElasticSearchLogger.FlushLogs | server/utils/logger.elastic-search.ts:134-136 | the log buffer and its bulk requests become the flush of the old ones |
| EsLogger.ElasticSearchLogger.AddLog | server/utils/logger.elastic-search.ts:152-169 | the record is pushed with the limit test, the log buffer stays below 1000, and every record added is sent or still buffered, in order, once |
| EsLogger.ElasticSearchLogger.AddStats | server/utils/logger.elastic-search.ts:171-189 | the aggregate document is pushed with the limit test and the stats buffer stays below 1000, with every aggregate sent or still buffered, in order, once |
| EsLogger.ElasticSearchLogger.AddAggregates | server/utils/logger.elastic-search.ts:139-145 | the aggregates of the pending keys, in insertion order, are pushed one after the other |
| EsLogger.ElasticSearchLogger.FlushStats | server/utils/logger.elastic-search.ts:138-150 | one aggregate per pending key is pushed, then nothing is pending and the stats buffer is flushed |
| EsLogger.ElasticSearchLogger.Stats | server/utils/logger.elastic-search.ts:78-94 | a new key starts a one-sample list at the end; a known key below 500 gains the sample; at 500 the key's samples become one aggregate and the key is dropped; the pending lists stay well formed |
| EsLogger.ElasticSearchLogger.Tick | server/utils/logger.elastic-search.ts:36-39 | the interval tick leaves both buffers and the pending lists empty, with the pending keys' aggregates added |
| EsLogger.ElasticSearchLogger.Destroy | server/utils/logger.elastic-search.ts:96-100 | the same flushes as the tick, and the interval is cleared |
| EsLogger.AddStatsAsWrittenDiverges | server/utils/logger.elastic-search.ts:171-189 | as written, once the stats buffer fills while a sample is pending, addStats does not return within any number of nested calls |
| EsLogger.AddStatsAsWrittenAgrees | server/utils/logger.elastic-search.ts:171-189 | as written, with no pending sample or below the limit, addStats does what the corrected push does |
| SocketUtils.CheckedIp | server/socket-utils.ts:19-21 | a delegation to `isIP`: a candidate is kept exactly when it is present, non-empty and a valid address, and then unchanged |
| SocketUtils.LeadingSpace | server/socket-utils.ts:26 | the count covers white space only and stops at the first other character |
| SocketUtils.TrailingSpace | server/socket-utils.ts:26 | the count covers white space only and stops at the last other character |
| SocketUtils.Trim | server/socket-utils.ts:26 | the trim is a slice of the text that neither starts nor ends with white space |
| SocketUtils.TrimAllSpace | server/socket-utils.ts:26 | nothing is left of a text of white space alone |
| SocketUtils.TrimUnpadded | server/socket-utils.ts:26 | a text with no white space at either end is its own trim |
| SocketUtils.TrimIdempotent | server/socket-utils.ts:26 | trimming twice is trimming once |
| SocketUtils.HeaderTexts | server/socket-utils.ts:24-25 | a case split on the header's shape: an absent header gives no text, a single one its text, a repeated one its texts |
| SocketUtils.FirstNonEmptyFrom | server/socket-utils.ts:27 | the place found holds a non-empty text and every text before it is empty; with none found, every text is empty |
| SocketUtils.ForwardedForFields | server/socket-utils.ts:26 | one candidate per text, in order: its first comma-separated field, trimmed |
| SocketUtils.XForwardedForFirst | server/socket-utils.ts:23-28 | the X-Forwarded-For candidate is the first non-empty candidate of the header's texts, and there is none exactly when every candidate is empty |
| SocketUtils.ForwardedForFirstHop | server/socket-utils.ts:26 | a client address before the first comma, blanks aside, is the candidate found |
| SocketUtils.LeadingSpaceSkips | server/socket-utils.ts:26 | leading white space before a non-blank character is counted exactly |
| SocketUtils.Forwarded | server/socket-utils.ts:30-39 | a delegation to `forwardedParse`: nothing for a false header, nothing when the parser throws, otherwise the `for` of the first parsed element, or nothing with no element |
| SocketUtils.CloudflareAsWritten | server/socket-utils.ts:41-43 | as written, a single header text yields only its first character, and nothing when it is empty |
| SocketUtils.Cloudflare | server/socket-utils.ts:41-43 | as intended, a single header text yields the whole text and any result is one of the header's texts |
| SocketUtils.ClientIpPrecedence | server/socket-utils.ts:10-17 | the first valid candidate wins, in the order X-Forwarded-For, Forwarded, cf-connecting-ip, then the connection's address; so the result is a valid address or the connection's own |
| SocketUtils.CloudflareFirstCharacter | server/socket-utils.ts:10-17 | with only a valid single cf-connecting-ip header, the source as written falls back to the connection's address while the corrected reading gives the header's address |

## Left out

- The network, the socket transport and event emission are not modelled. `emit` of `playerDied`, `playerLeft` and `roomUpdated` is an append to the notices of `ServerWorld.World`.
- The timer loop of server/logic/logic.ts:80-97 is not modelled, nor the logger's 10-second interval. Their callbacks are methods run once per call (`Matchmaking.Matchmaker.RunInterval`, `EsLogger.ElasticSearchLogger.Tick`).
- `Date.now()` and `Math.random()` are parameters: a clock reading `now`, and a `BotAi.Random` function giving the k-th draw of a call.
- Floating point is not modelled: numbers are reals, with no rounding, no NaN and no infinities. The one NaN the load-test room builds, the x coordinate of `_BOT_NaN`, is the free stand-in `nanX` of `RoomControllers.Kind.LoadTest`.
- Digits.NumberOf: `Number` also reads strings such as " 7", "+7", "-12", "7.0", "1e3" and "0x10" as numbers; of the strings that are not digit strings, the model reads only those holding a character no number literal contains (as NaN, `Digits.NotANumber`), and gives None for the rest.
- RoomControllers.RoomController.DisconnectPlayer: for an id whose tail is neither a digit string nor certainly NaN (such as "1e3", " 7" or "-12"), the source seats `_BOT_<Number(tail)>`, and the model seats no bot. `RoomControllers.Disconnected` has the same gap.
- RoomControllers.RoomController.EvictOne: a dead player whose id's tail is neither a digit string nor certainly NaN brings in no bot, as for `DisconnectPlayer`.
- RoomControllers.RoomController.EvictDead: the same gap, once per dead id.
- RoomControllers.RoomController.UpdateRoom: the same gap, once per dead id.
- `sqrt`, `sin`, `cos`, `atan2`, `pow`, `log2` and π are not computed. They are fields of `Numerics.Math`, constrained only by the laws named above.
- Some callees are parameters with no contract, in `PhysicsCommon.Callees`. The code of `moveWithAcceleration`, `applyFriction`, `handleCircleCollisionWithLimits`, `handleRawCirclesCollision` and `handleCircleRectangleCollision` is not part of this model.
- Several other callees are also parameters. They are `makeBot`, `makeRoom` (of room-controller.normal.ts), `hashCode` of client/utils.ts, `isIP`, `forwardedParse`, and the `updateBots` of server/logic/logic.ai.ts that the controllers call. The code of none of them is part of this model.
- The ElasticSearch client is not modelled. A bulk request is recorded as one more entry in the list of requests per index. The asynchronous answer, which only reaches the console, is left out. So is `ElasticSearchLogger.create`'s `initializeElasticSearch` (server/utils/logger.elastic-search.ts:210-303), which creates the indices over the network.
- EsLogger.ElasticSearchLogger: the order of bulk requests across the two indices is not recorded, only the order within each index.
- `info`, `warn` and `error` (server/utils/logger.elastic-search.ts:66-76) are not separate members. Each is `AddLog` with its level.
- EsLogger.StatsFrom: it requires a non-empty list. `statsFrom` of no samples gives NaN and the infinities, and every caller passes at least one sample.
- EsLogger.StatsKey: the JSON text of a sample's `extra` object is taken as given text; `JSON.stringify` is not modelled. The `StatsRequest` type of server/utils/logger.base.ts is not part of this model; its fields are those `stats` reads.
- Aliasing is not modelled. The physics works on record values, so two names for one object are lost. Examples are a player reached through `world.playersById` and through `room.players`, and a sword's `position` object shared with its player's `position` (common/physics.weapon.sword.ts:17).
- PhysicsWeapon.WeaponCollisions: it forwards elapsedTime and the damage callback to the flail pass. The source's `handleWeaponCollisions(player, room)` (common/physics.weapon.ts:16-19) passes neither to a routine that takes both, while common/physics.ts:38 passes four arguments. The model follows the callers, so these mixed versions line up.
- The aura routines (`PhysicsAura.AuraCollisions` and the rest of `PhysicsAura`) and the sword routines are modelled, but common/physics.weapon.ts dispatches only the flail, so `Physics.ApplyPhysics` reaches neither. The tick reaches the weapons' wall and friction steps through the `handleWeaponLimitsCollisions` and `applyFrictionToWeapon` that common/physics.ts imports, and those are parameters in `PhysicsCommon.Callees`.
- Vector literals written without `z` are modelled with z = 0 instead of `undefined`.
- The remainder of a negative angle in common/physics.weapon.sword.ts:65 is modelled with JavaScript's sign rule (`Numerics.JsRemainder`). Its rounding is not modelled.
- LegacyWorld.LegacyPlayer: the first server's `weapon` field is always `undefined` and is left out.
- RoomControllers.RoomController.DisconnectPlayer: it removes the player from the controller's own room. The source looks the room up with `getRoom(player)`, which gives that same room for the players the controller seats.
- Physics.TickCollidesEachPairOnce: it assumes that distinct pairs of ids give distinct pair keys `p__o` (`PhysicsPairs.PairKeysDistinct`). Ids that contain `__` can make two pairs share a key, and the source then skips the second pair.
- BotAiContexts.AiContexts.UpdateBots: it requires a positive `maxPlayerSpeed`. With 0 the source divides by zero (server/logic.ai.ts:31-33), giving NaN, which reals cannot express.
- BotAiContexts.AiContexts.UpdateBotName: one clock reading serves both `Date.now()` calls of server/logic.ai.ts:88-91.
- BotAiContexts.AiContexts: the AI context that the source stores on each bot object under a symbol is kept as a map from the bot's key in the room.
- BotAi.ReplaceAll: the replacement is taken literally. JavaScript's `replace` would expand `$&`, `$1` and similar patterns in a player's name.
- BotAi.Steering: the `elapsedTime` argument of `updateBots` is unused by the source and absent from the model.
- SocketUtils.Trim: the white space `trim` removes is spelled out as JavaScript defines it. Unicode normalisation is not modelled.
- Rendering, the client, its input handlers, bootstrapping, the logging plumbing and the build configuration are not modelled; they are outside the server core modelled here.

## Findings

| source | as written | input that shows it | evidently intended | confidence | as-written member | corrected member |
|---|---|---|---|---|---|---|
| server/utils/logger.elastic-search.ts:171-189 | `addStats` calls `flushStats` when the stats buffer reaches 1000. `flushStats` first aggregates every pending key through `addStats` again, with the buffer still full, so each nested call does the same | a stats buffer holding 999 aggregates and one key pending with a sample; the next `addStats` never returns (unbounded recursion) | flush the stats buffer alone when it fills, as `addLog` does for the log buffer | not executed; high | EsLogger.AddStatsAsWritten, EsLogger.AddStatsAsWrittenDiverges | EsLogger.ElasticSearchLogger.AddStats |
| server/socket-utils.ts:41-43 | `headers["cf-connecting-ip"]?.[0]` indexes the header value, which for a single header is a string, so it yields the first character only | a handshake whose only valid header is `cf-connecting-ip: 203.0.113.7` yields `"2"`, which is no IP address, so the connection's address is used | the address the header carries (the first one of a repeated header) | not executed; high | SocketUtils.CloudflareAsWritten, SocketUtils.CloudflareFirstCharacter | SocketUtils.Cloudflare, SocketUtils.ClientIpPrecedence |
| common/physics.weapon.sword.ts:180-187 | the pushback is capped at 200 with `Math.min` only, so a negative pushback (past the right or bottom wall) is unbounded | a blade 8 wide whose tip is at x = 2000 in a room 1000 wide changes the player's x speed by −6526 · elapsedTime | the pushback capped at 200 in size on both sides | not executed; medium; latent, since the tick never dispatches the sword | PhysicsSword.SwordPushbackUnbounded | PhysicsSword.SwordLimitsCapped, PhysicsSword.SwordLimitsCappedLaw |
