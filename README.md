# Goat Back Home — a Dafny model of the game rules

Goat Back Home is a vertical climber: a goat charges a jump while standing
on a platform and releases it to leap upwards, past birds that patrol
sideways and snow leopards that charge at it, until it reaches the goal
door at the top of the map. A result screen then shows the run and submits
a clear to a score service, which answers with a rank and serves a
leaderboard. Two page-side stores hold the audio settings and the live
figures of the run.

The physics engine integrates positions and velocities; the game's own code
only reads them, writes velocity commands and flips state. This project
models that code: every rule is stated over exact `real` coordinates, with
the engine's positions and velocities as inputs and its commands as
recorded outputs. One module per source file:

| module | file | what it holds |
|---|---|---|
| `Util` | — | `Option`, the JavaScript `\|\|` and `??` fallbacks, `Math.round` |
| `Config` | `src/lib/phaser/config.ts` | the constants and the collision bitmask table |
| `GameTypes` | `src/types/game.d.ts` | the platform and obstacle descriptors, the run result |
| `TimeFormat` | — | decimal rendering and the mm:ss clock the HUD and the result screen share, with a parser that reads them back |
| `PlatformFactory` | `src/lib/phaser/utils/platformFactory.ts` | the rectangles each platform shape is built from |
| `MapGenerator` | `src/lib/phaser/utils/mapGenerator.ts` | the authored map and bird lists and their well-formedness |
| `PlayerEntity` | `src/lib/phaser/entities/Player.ts` | the goat's charge/jump controller, as a pure step function and a class whose methods are the handlers |
| `BirdEntity` | `src/lib/phaser/entities/Bird.ts` | the bird patrol |
| `SnowLeopardEntity` | `src/lib/phaser/entities/SnowLeopard.ts` | the leopard state machine |
| `Contacts` | `src/lib/phaser/scenes/GameScene.ts` | the three contact handlers as folds over an event's pairs |
| `SceneRules` | `src/lib/phaser/scenes/GameScene.ts` | the map build, start position, goal door, resize, leopard fall/respawn and HUD rules |
| `GameScene` | `src/lib/phaser/scenes/GameScene.ts` | the scene object, whose handlers loop over pairs, bodies and entities and are proved to follow `Contacts` and `SceneRules` |
| `Scores` | `src/app/api/scores/route.ts` | score submission and the leaderboard over a table of rows |
| `GameOver` | `src/lib/phaser/scenes/GameOverScene.ts` | the result screen's lines, the score submission and the button press machine |
| `Audio` | `src/lib/phaser/audio/AudioManager.ts` | the volume and mute controller and its looping sounds |
| `AudioStore` | `src/store/audioStore.ts` | the page's audio settings store and the events it sends to the game |
| `GameStore` | `src/store/gameStore.ts` | the page's game store |

State that the source changes in place is a Dafny `class`. Examples are
the goat, birds and leopards, the scene, the audio manager, the result
screen's buttons and the two stores. Each method's `ensures` ties the new
state to a pure function of the old one. The properties are then proved
about that function: invariants the steps preserve, round trips, and the
order and frame rules.

Some parts of the code call members that the code itself does not define:
- `Player.setFrictionValue`, `resetFriction` and `setScreenScaleX`;
- `SnowLeopard.onHitWall`;
- the map selectors `getMapDataForScreen`, `getObstacleDataForScreen` and
  `getSnowLeopardDataForScreen`.

As written, each of these calls throws a `TypeError` and ends the handler
or scene step that makes it. The model instead assumes the members exist
and do nothing except record the call. The map selectors become a `Layout`
input to the scene. "## Left out" lists the handlers where the two differ.

Two places where the game's parts disagree are modelled as written:
- The audio store defaults a missing stored sfx volume to 0.7, while the
  audio manager defaults it to 0.5. `AudioStore.FromStorageRules` states
  the difference.
- The scene calls the `Player` constructor with four arguments, but the
  constructor takes three. JavaScript drops the fourth, so the model
  builds the goat from position and keyboard only.

## Model

| member | source | states |
|---|---|---|
| Config.CategoriesAreDistinctBits | src/lib/phaser/config.ts:58-63 | each collision category is a single bit, and distinct kinds have disjoint bits |
| Config.PlayerMaskExact | src/lib/phaser/config.ts:66-70 | the player accepts exactly platforms, birds and leopards, never another player |
| Config.BirdsAndLeopardsFilters | src/lib/phaser/config.ts:71-73 | birds accept only the player and pass through platforms; leopards accept neither leopards nor birds |
| Config.MaskTableSymmetric | src/lib/phaser/config.ts:58-74 | the mask table is symmetric, so one side accepting means the pair collides |
| Config.ConfigFacts | src/lib/phaser/config.ts:7-82 | the mobile breakpoint equals the reference width, a full charge takes half a second, leopard respawn is off |
| TimeFormat.NatToString | src/lib/phaser/scenes/GameScene.ts:461 | `toString` of a natural number: only digits, one digit exactly below 10, at most two below 100 |
| TimeFormat.IntToString | src/lib/phaser/scenes/GameScene.ts:463 | `toString` of any integer: a minus sign before the digits of its magnitude for negatives |
| TimeFormat.PadStart2 | src/lib/phaser/scenes/GameOverScene.ts:53 | `padStart(2, "0")`: length at least 2, digits stay digits, a long enough string is unchanged |
| TimeFormat.ParsePadStart2 | src/lib/phaser/scenes/GameOverScene.ts:53 | padding with zeros does not change the value the digits denote |
| TimeFormat.ParseNatToString | src/lib/phaser/scenes/GameScene.ts:461 | reading the digits of `n` back gives `n` |
| TimeFormat.FormatClockRoundTrip | src/lib/phaser/scenes/GameOverScene.ts:51-53 | the clock text is minutes, a colon and exactly two second digits below 60, with 60·m + s = t |
| TimeFormat.FormatClockExample | src/lib/phaser/scenes/GameOverScene.ts:51-53 | 125 seconds read "02:05" |
| TimeFormat.ParseDecimal | src/app/api/scores/route.ts:75 | the decimal value of a string of digits |
| TimeFormat.FormatClock | src/lib/phaser/scenes/GameOverScene.ts:51-53 | the mm:ss clock: the minutes and the seconds below 60, each padded to two digits |
| PlatformFactory.WidthOf | src/lib/phaser/utils/platformFactory.ts:28 | `width \|\| 64`: an absent or zero width falls back to 64 |
| PlatformFactory.FrictionOf | src/lib/phaser/utils/platformFactory.ts:30-34 | an explicit friction is kept (even 0); otherwise ice gets 0.0005 and every other texture 0.1 |
| PlatformFactory.CreatePlatformBody | src/lib/phaser/utils/platformFactory.ts:22-65 | an absent or flat shape gives an image; every other shape a container at the descriptor's position holding its bodies |
| PlatformFactory.ExtractBodies | src/lib/phaser/utils/platformFactory.ts:337-352 | an image yields itself, a container its stored bodies, anything else nothing |
| PlatformFactory.BodyCountByShape | src/lib/phaser/utils/platformFactory.ts:38-57 | flat gives one body, both L shapes two, T and both slopes three |
| PlatformFactory.BodiesStaticWithChosenFriction | src/lib/phaser/utils/platformFactory.ts:13-16 | every body is static with the platform category and mask, and is given the chosen friction through `setFriction` (half of it on a slope's ramp) |
| PlatformFactory.TextureAndAngleRule | src/lib/phaser/utils/platformFactory.ts:93-117 | only a flat platform uses the goal texture or applies the descriptor's angle |
| PlatformFactory.LipGeometry | src/lib/phaser/utils/platformFactory.ts:122-172 | an L's lip is 16 × 20, stands on the floor and sits at the left edge, or the right edge when mirrored |
| PlatformFactory.TGeometry | src/lib/phaser/utils/platformFactory.ts:177-244 | a T's two lips sit at the two edges, mirror images about the centre |
| PlatformFactory.SlopeGeometry | src/lib/phaser/utils/platformFactory.ts:251-332 | a slope's ramp is `width - 50` wide and tilted ∓12°, its 25-wide pads meet the ramp's ends |
| PlatformFactory.ShapeOf | src/lib/phaser/utils/platformFactory.ts:27 | `shape \|\| 'flat'` |
| PlatformFactory.FlatShape | src/lib/phaser/utils/platformFactory.ts:93-117 | the flat image: the goal texture for a goal, the angle only when truthy |
| PlatformFactory.LShape | src/lib/phaser/utils/platformFactory.ts:122-172 | floor plus one lip, on the left for L and the right for the mirrored L |
| PlatformFactory.TShape | src/lib/phaser/utils/platformFactory.ts:177-244 | floor plus a lip at each edge |
| PlatformFactory.SlopeShape | src/lib/phaser/utils/platformFactory.ts:251-332 | left pad, a rotated ramp at half friction, right pad |
| PlatformFactory.BodiesOf | src/lib/phaser/utils/platformFactory.ts:22-352 | the bodies a descriptor produces: `createPlatformBody` then `extractBodiesFromPlatform` |
| MapGenerator.DescriptorsUpTo | src/lib/phaser/utils/mapGenerator.ts:4-82 | the first `n` authored descriptors, in authored order |
| MapGenerator.DescriptorsUpToIndex | src/lib/phaser/utils/mapGenerator.ts:4-82 | position `k` of the list holds the `k`-th authored descriptor |
| MapGenerator.TextureForPlatform | src/lib/phaser/utils/mapGenerator.ts:131-134 | a goal platform gets the goal texture, any other keeps its own |
| MapGenerator.HelpersAgreeWithFactory | src/lib/phaser/utils/mapGenerator.ts:131-139 | the width helper agrees with the builder's width, and the texture helper with the texture a flat platform is built with |
| MapGenerator.EntryFacts | src/lib/phaser/utils/mapGenerator.ts:4-82 | every authored platform lies inside the map, has a positive width, no explicit friction or angle, a slope wider than 50, and sits above the one before it; only the last is a goal |
| MapGenerator.MapRisesStrictly | src/lib/phaser/utils/mapGenerator.ts:4-82 | heights strictly rise along the list from the start floor to the goal |
| MapGenerator.OnlyLastIsGoal | src/lib/phaser/utils/mapGenerator.ts:76-83 | exactly one platform, the last (index 34), is a goal |
| MapGenerator.PlatformsFitReferenceWidth | src/lib/phaser/utils/mapGenerator.ts:4-82 | every x lies in the reference width and every authored slope builds a ramp of positive width |
| MapGenerator.StartPlatformSpansWidth | src/lib/phaser/utils/mapGenerator.ts:5-6 | the start floor spans the whole reference width |
| MapGenerator.ObstaclesAreBirds | src/lib/phaser/utils/mapGenerator.ts:85-128 | every obstacle is a horizontally patrolling bird with positive speed and range |
| MapGenerator.PlatformWidth | src/lib/phaser/utils/mapGenerator.ts:137-139 | `getPlatformWidth`: `width \|\| 64` |
| PlayerEntity.Initial | src/lib/phaser/entities/Player.ts:5-10 | the field initialisers: no power, not charging, facing up, not grounded, not on the goal, invariant holding |
| PlayerEntity.Ticks | src/lib/phaser/entities/Player.ts:75 | one frame update per delta, in order |
| PlayerEntity.StepKeepsInv | src/lib/phaser/entities/Player.ts:43-144 | every handler keeps the power within [0, 25] and the direction in {-1, 0, 1} |
| PlayerEntity.RunKeepsInv | src/lib/phaser/entities/Player.ts:43-144 | any sequence of handler calls keeps that invariant |
| PlayerEntity.SpaceDownStartsChargingOnlyWhenGrounded | src/lib/phaser/entities/Player.ts:60-64 | pressing space starts a charge exactly when grounded (with a keyboard), touches nothing else and emits nothing |
| PlayerEntity.SpaceUpReleases | src/lib/phaser/entities/Player.ts:66-72 | releasing space while charging jumps with the charged power when grounded, then clears the charge and the power; otherwise nothing happens |
| PlayerEntity.JumpNeedsGround | src/lib/phaser/entities/Player.ts:103-115 | `jump` does nothing in the air; on the ground it leaves the ground |
| PlayerEntity.JumpVelocityExamples | src/lib/phaser/entities/Player.ts:106-110 | power 20 to the right launches at (5, -20); facing up there is no sideways speed |
| PlayerEntity.TickChargesMonotonically | src/lib/phaser/entities/Player.ts:75-89 | a frame while charging on the ground never lowers the power nor passes 25; otherwise nothing changes |
| PlayerEntity.ChargeAccumulates | src/lib/phaser/entities/Player.ts:77-85 | a run of frames while charging on the ground reaches min(p + 0.05 · total ms, 25), one `powerChanged` per frame |
| PlayerEntity.FullChargeAfterHalfSecond | src/lib/phaser/entities/Player.ts:77-82 | from 0, frames totalling at least 500 ms give a full charge |
| PlayerEntity.ArrowRelease | src/lib/phaser/entities/Player.ts:43-57 | pressing an arrow sets its direction; releasing it resets the direction only when it still matches |
| PlayerEntity.NoKeyboardIgnoresKeys | src/lib/phaser/entities/Player.ts:36-37 | without a keyboard no key handler runs: key input changes and emits nothing |
| PlayerEntity.KnockbackKeepsCharge | src/lib/phaser/entities/Player.ts:141-144 | knockback sets velocity (dir · force, -force / 2), leaves the ground and keeps the charge |
| PlayerEntity.SetGroundedOverwrites | src/lib/phaser/entities/Player.ts:135-138 | `setGrounded` overwrites both flags, the goal flag included, and nothing else |
| PlayerEntity.HeightProperties | src/lib/phaser/entities/Player.ts:117-121 | the height is never negative, is 0 at or below the start line, is within half a metre of (5500 - y) / 10 and grows as the goat climbs |
| PlayerEntity.RoundMonotone | src/lib/phaser/entities/Player.ts:120 | `Math.round` is monotone |
| PlayerEntity.ChargeStep | src/lib/phaser/entities/Player.ts:78-81 | one frame of charge: the power grows by CHARGE_RATE·delta/1000 and is capped at the maximum power |
| PlayerEntity.JumpVelocity | src/lib/phaser/entities/Player.ts:106-108 | the jump impulse: direction × HORIZONTAL_JUMP_RATIO × power sideways, minus the power vertically |
| PlayerEntity.Jump | src/lib/phaser/entities/Player.ts:103-111 | `jump`: nothing off the ground; on the ground the impulse is commanded and the goat leaves the ground |
| PlayerEntity.Step | src/lib/phaser/entities/Player.ts:36-144 | the effect of each handler: key handlers only with a keyboard, arrows set and release the direction, space charges from the ground and releases into a jump, a frame charges, knockback and `setGrounded` overwrite |
| PlayerEntity.Emitted | src/lib/phaser/entities/Player.ts:75-115 | the scene events of a handler: `jumpExecuted` for a release from the ground, `powerChanged` with the charge fraction for a charging frame |
| PlayerEntity.Run | src/lib/phaser/entities/Player.ts:43-144 | a sequence of handler calls applied in order |
| PlayerEntity.Height | src/lib/phaser/entities/Player.ts:117-121 | `getHeight`: the rounded tenth of the distance below the map's bottom, floored at 0 |
| PlayerEntity.Player.constructor | src/lib/phaser/entities/Player.ts:15-34 | a new goat at (x, y) in the initial state, with no calls or events recorded |
| PlayerEntity.Player.OnKeyDownLeft | src/lib/phaser/entities/Player.ts:43-45 | the state after the left-arrow handler; position, calls and events unchanged |
| PlayerEntity.Player.OnKeyDownRight | src/lib/phaser/entities/Player.ts:47-49 | the state after the right-arrow handler; nothing else changes |
| PlayerEntity.Player.OnKeyUpLeft | src/lib/phaser/entities/Player.ts:51-53 | the state after the left-arrow release; nothing else changes |
| PlayerEntity.Player.OnKeyUpRight | src/lib/phaser/entities/Player.ts:55-57 | the state after the right-arrow release; nothing else changes |
| PlayerEntity.Player.OnSpaceDown | src/lib/phaser/entities/Player.ts:60-64 | the state after the space-down handler; nothing else changes |
| PlayerEntity.Player.OnSpaceUp | src/lib/phaser/entities/Player.ts:66-72 | the state and events after the space-up handler |
| PlayerEntity.Player.Update | src/lib/phaser/entities/Player.ts:75-89 | the state and the `powerChanged` event of one frame |
| PlayerEntity.Player.DoJump | src/lib/phaser/entities/Player.ts:103-115 | the jump's state, and a `jumpExecuted` event exactly when grounded |
| PlayerEntity.Player.SetGrounded | src/lib/phaser/entities/Player.ts:135-138 | the state after `setGrounded` |
| PlayerEntity.Player.ApplyKnockback | src/lib/phaser/entities/Player.ts:141-144 | the state after a knockback |
| PlayerEntity.Player.SetVelocityX | src/lib/phaser/scenes/GameScene.ts:560 | only the horizontal velocity changes |
| PlayerEntity.Player.SetPosition | src/lib/phaser/scenes/GameScene.ts:764 | only the position changes |
| PlayerEntity.Player.CallHook | src/lib/phaser/scenes/GameScene.ts:575-578 | a call to a member the player does not define is recorded and changes nothing else |
| BirdEntity.InitialDirection | src/lib/phaser/entities/Bird.ts:48 | the starting heading is +1 exactly when the coin says so, else -1 |
| BirdEntity.PatrolDirection | src/lib/phaser/entities/Bird.ts:52-63 | the bird reverses to -1 when the projected x passes startX + range, to +1 when it passes startX - range, and otherwise keeps its heading |
| BirdEntity.PatrolKeepsUnitDirection | src/lib/phaser/entities/Bird.ts:52-63 | the heading stays -1 or +1 |
| BirdEntity.ReversalHeadsBack | src/lib/phaser/entities/Bird.ts:56-66 | whenever the projected x leaves the band, the new velocity points back into it |
| BirdEntity.NoTurnInsideBand | src/lib/phaser/entities/Bird.ts:56-63 | inside the band the bird never turns |
| BirdEntity.Bird.constructor | src/lib/phaser/entities/Bird.ts:14-50 | range `\|\| 200`, speed `\|\| 100`, speed scaled by the screen scale, patrol centred on the spawn point, random heading |
| BirdEntity.Bird.Update | src/lib/phaser/entities/Bird.ts:52-68 | the new heading is the patrol rule's, the velocity is (moveSpeed · heading, 0), nothing else changes |
| BirdEntity.Bird.GetKnockbackDirection | src/lib/phaser/entities/Bird.ts:71-73 | the current heading, always ±1 |
| BirdEntity.Bird.SetScreenScaleX | src/lib/phaser/entities/Bird.ts:76-79 | the speed is recomputed from the base speed and the new scale |
| BirdEntity.Bird.SetStartX | src/lib/phaser/entities/Bird.ts:82-84 | only the patrol centre moves |
| BirdEntity.Bird.SetPosition | src/lib/phaser/scenes/GameScene.ts:770 | only the position changes |
| SnowLeopardEntity.UpdateNoOp | src/lib/phaser/entities/SnowLeopard.ts:80-85 | updating a dead leopard, or one without a goat reference, changes nothing |
| SnowLeopardEntity.DetectionRule | src/lib/phaser/entities/SnowLeopard.ts:104-115 | an idle leopard starts charging exactly when the goat is within the detect range across and 100 up or down, heading towards the goat (left on a tie); otherwise nothing changes |
| SnowLeopardEntity.DetectionExamples | src/lib/phaser/entities/SnowLeopard.ts:104-115 | with range 300, a goat 250 across and 40 up is seen and charged at rightwards; 150 up is not seen |
| SnowLeopardEntity.RunningCommands | src/lib/phaser/entities/SnowLeopard.ts:117-144 | charging commands 2% of the speed along the heading and falls once vy exceeds 2; falling commands 1%; vy is kept |
| SnowLeopardEntity.LandingRule | src/lib/phaser/entities/SnowLeopard.ts:147-151 | landing turns falling into charging and leaves every other phase alone |
| SnowLeopardEntity.DeathAndRespawn | src/lib/phaser/entities/SnowLeopard.ts:154-194 | falling off kills from any phase and removes the leopard from view and the world; a respawn waits at the spawn point at rest, visible, with no heading |
| SnowLeopardEntity.ApplyKeepsInv | src/lib/phaser/entities/SnowLeopard.ts:28-30 | every event keeps the phase and heading in agreement (idle: no heading; running: ±1) |
| SnowLeopardEntity.RunKeepsInv | src/lib/phaser/entities/SnowLeopard.ts:28-30 | any sequence of events keeps that agreement |
| SnowLeopardEntity.HeadingLocked | src/lib/phaser/entities/SnowLeopard.ts:117-144 | without a respawn, a leopard that has left idle never returns to it and never changes heading |
| SnowLeopardEntity.DeadUntilRespawn | src/lib/phaser/entities/SnowLeopard.ts:80-83 | once dead, only a respawn brings a leopard back |
| SnowLeopardEntity.SnowLeopard.constructor | src/lib/phaser/entities/SnowLeopard.ts:34-73 | idle at the spawn point, detect range `\|\| 300`, speed `\|\| 150` scaled by the screen scale, no goat reference |
| SnowLeopardEntity.SnowLeopard.SetPlayerRef | src/lib/phaser/entities/SnowLeopard.ts:76-78 | only the goat reference changes |
| SnowLeopardEntity.SnowLeopard.Update | src/lib/phaser/entities/SnowLeopard.ts:80-144 | the state after one frame, from the goat's current position |
| SnowLeopardEntity.SnowLeopard.OnLandedOnPlatform | src/lib/phaser/entities/SnowLeopard.ts:147-151 | the state after landing |
| SnowLeopardEntity.SnowLeopard.OnFellOffMap | src/lib/phaser/entities/SnowLeopard.ts:154-163 | the state after falling off the map |
| SnowLeopardEntity.SnowLeopard.Respawn | src/lib/phaser/entities/SnowLeopard.ts:166-194 | the state after a respawn |
| SnowLeopardEntity.SnowLeopard.OnHitWall | src/lib/phaser/scenes/GameScene.ts:593 | the call of an undefined member is counted and changes nothing else |
| SnowLeopardEntity.SnowLeopard.SetOnSpawnPlatform | src/lib/phaser/entities/SnowLeopard.ts:223-225 | only the spawn-platform flag changes |
| SnowLeopardEntity.SnowLeopard.SetScreenScaleX | src/lib/phaser/entities/SnowLeopard.ts:228-231 | the speed is recomputed from the base speed and the new scale |
| SnowLeopardEntity.SnowLeopard.SetSpawnX | src/lib/phaser/entities/SnowLeopard.ts:234-236 | only the spawn x changes |
| SnowLeopardEntity.SnowLeopard.SetPosition | src/lib/phaser/scenes/GameScene.ts:777 | only the position changes |
| SnowLeopardEntity.SnowLeopard.BackToSpawn | src/lib/phaser/entities/SnowLeopard.ts:166-194 | back at the spawn point at rest with heading 0, nothing else changed |
| SnowLeopardEntity.AliveIffNotDead | src/lib/phaser/entities/SnowLeopard.ts:209-215 | alive and dead are complements, and both read only the phase |
| SnowLeopardEntity.Sees | src/lib/phaser/entities/SnowLeopard.ts:106-109 | the detection box: within the detect range sideways and within 100 vertically |
| SnowLeopardEntity.UpdateIdle | src/lib/phaser/entities/SnowLeopard.ts:104-115 | `updateIdle`: a seen goat starts the charge towards it, a goat at the same x sends it left |
| SnowLeopardEntity.UpdateCharging | src/lib/phaser/entities/SnowLeopard.ts:117-133 | `updateCharging`: the run along the heading at 0.02 of the speed, switching to falling above a downward speed of 2 |
| SnowLeopardEntity.UpdateFalling | src/lib/phaser/entities/SnowLeopard.ts:135-144 | `updateFalling`: drifting along the heading at 0.01 of the speed |
| SnowLeopardEntity.FrameUpdate | src/lib/phaser/entities/SnowLeopard.ts:80-102 | `update`: nothing when dead or without a goat, else the phase's own update |
| SnowLeopardEntity.Land | src/lib/phaser/entities/SnowLeopard.ts:147-151 | `onLandedOnPlatform`: a falling leopard charges again, any other phase is kept |
| SnowLeopardEntity.FallOff | src/lib/phaser/entities/SnowLeopard.ts:154-163 | `onFellOffMap`: dead, hidden, inactive and out of the physics world |
| SnowLeopardEntity.Reborn | src/lib/phaser/entities/SnowLeopard.ts:166-194 | `respawn`: idle, heading 0, on the spawn platform, visible, active, back in the world at the spawn point at rest |
| SnowLeopardEntity.Apply | src/lib/phaser/entities/SnowLeopard.ts:80-194 | one event on a leopard: a frame, an engine move, a landing, a fall or a respawn |
| SnowLeopardEntity.Run | src/lib/phaser/entities/SnowLeopard.ts:80-194 | a sequence of events applied in order |
| Contacts.BeginLeopards | src/lib/phaser/scenes/GameScene.ts:586-606 | the leopard pass reacts each of the first `n` leopards to the pair and leaves the rest alone |
| Contacts.TouchedSnoc | src/lib/phaser/scenes/GameScene.ts:565-570 | the platforms touched by a list of pairs are those of its prefix plus the last pair's platform, if it names one |
| Contacts.BeginAddsTouched | src/lib/phaser/scenes/GameScene.ts:565-570 | contact begin adds exactly the touched platforms to the colliding set |
| Contacts.PersistLoopAddsTouched | src/lib/phaser/scenes/GameScene.ts:631-636 | the persist loop re-adds exactly the touched platforms |
| Contacts.PersistAddsTouched | src/lib/phaser/scenes/GameScene.ts:612-656 | the persist handler re-adds exactly the touched platforms |
| Contacts.EndLoopRemovesTouched | src/lib/phaser/scenes/GameScene.ts:676-681 | contact end removes exactly the touched platforms from the colliding set |
| Contacts.EndLoopKeepsGroundAndLowersGoal | src/lib/phaser/scenes/GameScene.ts:662-690 | the end loop never touches the ground flag and can only lower the goal flag |
| Contacts.EndGrounding | src/lib/phaser/scenes/GameScene.ts:659-701 | after contact end with no platform left, the goat is airborne, off the goal and off the ice; otherwise its ground flag is kept |
| Contacts.OnlySensorRaisesGoal | src/lib/phaser/scenes/GameScene.ts:521-525 | contact begin raises the goal flag only through a goat/door-sensor pair |
| Contacts.SensorThenPlatform | src/lib/phaser/scenes/GameScene.ts:521-581 | in one begin event a platform pair after the sensor pair clears the goal flag again, while the other order leaves it set |
| Contacts.PersistClearsGoal | src/lib/phaser/scenes/GameScene.ts:626-654 | a persist event that leaves any platform touched ends with the goat grounded and off the goal, even with a sensor pair in it |
| Contacts.PersistLoopIce | src/lib/phaser/scenes/GameScene.ts:615-643 | the loop's ice flag is set exactly when some pair is the goat on ice, the recorded ice platform is then ice, and no hook is called |
| Contacts.PersistIceRule | src/lib/phaser/scenes/GameScene.ts:645-649 | persist keeps an ice platform exactly when some pair is on ice; otherwise it clears it and restores friction once, only if one was recorded |
| Contacts.LeopardContact | src/lib/phaser/scenes/GameScene.ts:544-552 | the goat touching a dead leopard changes nothing; an alive one launches exactly one loss result and pauses, and nothing else changes |
| Contacts.BirdKnockback | src/lib/phaser/scenes/GameScene.ts:528-541 | a bird knocks the goat along the bird's heading with force 15 and upwards with half of it, the goat leaves the ground, and the platform set and leopards are untouched |
| Contacts.WallBounce | src/lib/phaser/scenes/GameScene.ts:555-563 | a wall reverses the goat's horizontal speed, damped to 80% |
| Contacts.BeginLeopardPhases | src/lib/phaser/scenes/GameScene.ts:586-606 | in contact begin a leopard's phase changes only from falling to charging, and its wall-hit count never drops |
| Contacts.BeginPlayer | src/lib/phaser/scenes/GameScene.ts:518-583 | the goat's side of a begin pair: the sensor raises the goal flag, a found bird knocks back, an alive leopard ends the game, a wall damps and reverses vx, a platform is added, may lower friction and grounds the goat; all but the platform case return before the leopard pass |
| Contacts.BeginLeopard | src/lib/phaser/scenes/GameScene.ts:587-605 | one leopard's side of a begin pair: a wall is reported, a platform lands a falling leopard |
| Contacts.BeginPair | src/lib/phaser/scenes/GameScene.ts:513-607 | one begin pair: the goat's side, then the leopard pass unless the goat's side returned |
| Contacts.Begin | src/lib/phaser/scenes/GameScene.ts:510-609 | the `collisionstart` handler: the pairs in order |
| Contacts.PersistPair | src/lib/phaser/scenes/GameScene.ts:618-642 | one persist pair: the sensor raises the goal flag, a platform is re-added and an ice platform sets the ice flag and the current ice platform |
| Contacts.PersistLoop | src/lib/phaser/scenes/GameScene.ts:615-643 | the persist pairs in order, the ice flag starting false |
| Contacts.Persist | src/lib/phaser/scenes/GameScene.ts:612-656 | the `collisionactive` handler: the loop, leaving the ice when no pair was ice, then grounding (off the goal) while any platform is touched |
| Contacts.EndPair | src/lib/phaser/scenes/GameScene.ts:663-689 | one end pair: the sensor lowers the goal flag, a platform is removed and leaving an ice platform restores friction |
| Contacts.EndLoop | src/lib/phaser/scenes/GameScene.ts:662-690 | the end pairs in order |
| Contacts.End | src/lib/phaser/scenes/GameScene.ts:659-701 | the `collisionend` handler: the loop, then airborne and off the ice once no platform is touched |
| Contacts.PersistLoopOnlySensorRaisesGoal | src/lib/phaser/scenes/GameScene.ts:626-628 | the persist loop raises the goal flag only through a goat/sensor pair |
| Contacts.PersistOnlySensorRaisesGoal | src/lib/phaser/scenes/GameScene.ts:612-656 | contact persist without a sensor pair never raises the goal flag |
| SceneRules.ImagesOf | src/lib/phaser/scenes/GameScene.ts:258-271 | one platform image per body, in order, each with the body's position and size and the descriptor's ice and goal marks |
| SceneRules.RecordsOf | src/lib/phaser/scenes/GameScene.ts:250-256 | one resize record per body, in order, naming that body and holding its x and width divided by the build scale |
| SceneRules.BodiesCount | src/lib/phaser/scenes/GameScene.ts:237-247 | scaling a descriptor never changes how many bodies the factory builds for it |
| SceneRules.AddBodiesWellBuilt | src/lib/phaser/scenes/GameScene.ts:244-278 | one pass of the map loop keeps the records parallel to the platforms and adds one platform per body |
| SceneRules.BuildMapWellBuilt | src/lib/phaser/scenes/GameScene.ts:233-279 | the built map is well formed (each record points at its own platform and rebuilds its x and width at the build scale) and holds as many platforms as the descriptors have parts |
| SceneRules.DoorPlacement | src/lib/phaser/scenes/GameScene.ts:390-395 | the goal sensor is 30 by 20 and centred 25 above the goal platform's centre |
| SceneRules.StartPositionRule | src/lib/phaser/scenes/GameScene.ts:208-231 | the goat starts 50 above the debug start platform when its index is in range, and above platform 0 otherwise; x is scaled, y is not |
| SceneRules.ScaleAndMode | src/lib/phaser/scenes/GameScene.ts:69-72 | the scale is width / 960 and the mobile mode is exactly a scale of at most 1, with 960 still counted as mobile |
| SceneRules.ApplyRecord | src/lib/phaser/scenes/GameScene.ts:754-759 | moving one recorded body keeps the number of platforms |
| SceneRules.Rescale | src/lib/phaser/scenes/GameScene.ts:754-759 | the resize loop keeps the number of platforms |
| SceneRules.RescalePointwise | src/lib/phaser/scenes/GameScene.ts:754-759 | after the resize loop every recorded platform sits at its original x and width times the new scale, with its y, height and marks kept |
| SceneRules.RescaleAbsolute | src/lib/phaser/scenes/GameScene.ts:754-759 | two resizes in a row give what the second one alone gives: only the last scale counts |
| SceneRules.RescaleAtBuildScale | src/lib/phaser/scenes/GameScene.ts:250-256 | resizing a freshly built map to the scale it was built at changes nothing |
| SceneRules.RescaleBuilt | src/lib/phaser/scenes/GameScene.ts:754-759 | resizing a well-built map to its own scale changes nothing |
| SceneRules.RescaleFixed | src/lib/phaser/scenes/GameScene.ts:754-759 | a platform list that already matches its records at a scale is a fixed point of the resize at that scale |
| SceneRules.WellBuiltRecords | src/lib/phaser/scenes/GameScene.ts:250-256 | in a well-built map the k-th record names body k |
| SceneRules.RescaleKeepsWellBuilt | src/lib/phaser/scenes/GameScene.ts:741-759 | after a resize the map is well built at the new scale |
| SceneRules.ResizeRoundTrip | src/lib/phaser/scenes/GameScene.ts:741-777 | resizing a moving object's x from one scale to another and back gives the original x |
| SceneRules.FallRule | src/lib/phaser/scenes/GameScene.ts:362-386 | an alive leopard more than 50 below the camera dies and one above stays; with respawn off nothing else happens; with it on a dead leopard respawns exactly when the camera is more than 200 below its spawn point |
| SceneRules.ConfiguredNoRespawn | src/lib/phaser/scenes/GameScene.ts:372-375 | with respawning disabled as configured, a dead leopard stays dead |
| SceneRules.InitialHud | src/lib/phaser/scenes/GameScene.ts:423-435 | the initial HUD texts are what the HUD update shows at 0 seconds and height 0 |
| SceneRules.TimerTextReadsBack | src/lib/phaser/scenes/GameScene.ts:459-464 | the timer text is "TIME: " then minutes, a colon and two second digits that recompose to the elapsed seconds |
| SceneRules.HeightTextReadsBack | src/lib/phaser/scenes/GameScene.ts:465 | the height text is "HEIGHT: ", the height's decimal digits and "m" |
| SceneRules.ScaleFor | src/lib/phaser/scenes/GameScene.ts:69 | the scale factor: the width over the reference width 960 |
| SceneRules.IsMobileWidth | src/lib/phaser/scenes/GameScene.ts:72 | mobile mode: a width of at most the breakpoint |
| SceneRules.Scaled | src/lib/phaser/scenes/GameScene.ts:237-241 | the descriptor with x scaled and a truthy width scaled, a falsy width left undefined |
| SceneRules.DoorSensor | src/lib/phaser/scenes/GameScene.ts:390-395 | `createGoalDoor`: a 30 by 20 sensor centred at x, half its height plus 15 above the platform |
| SceneRules.AddBodies | src/lib/phaser/scenes/GameScene.ts:247-279 | one descriptor's bodies appended with their records and ice/goal flags; a goal descriptor with bodies sets the goal platform to its first body and places the door |
| SceneRules.AddPlatform | src/lib/phaser/scenes/GameScene.ts:235-279 | one iteration of `createMap`: scale the descriptor, build and extract its bodies, append them |
| SceneRules.BuildMap | src/lib/phaser/scenes/GameScene.ts:233-280 | `createMap`: the descriptors in order |
| SceneRules.StartPosition | src/lib/phaser/scenes/GameScene.ts:208-231 | `getPlayerStartPosition`: 50 above the debug platform for a valid debug index, else above platform 0, x scaled |
| SceneRules.ResizeX | src/lib/phaser/scenes/GameScene.ts:741-764 | a moving object's x under a resize: multiplied by the ratio of the new scale to the old |
| SceneRules.FallAndRespawn | src/lib/phaser/scenes/GameScene.ts:366-386 | one leopard's fall check: an alive leopard 50 below the camera's bottom falls off; unless respawn is disabled, a dead leopard respawns once the camera's top is 200 below its spawn |
| SceneRules.Respawned | src/lib/phaser/scenes/GameScene.ts:379-385 | whether that check respawned the leopard, so its goat reference is set again |
| SceneRules.ElapsedSeconds | src/lib/phaser/scenes/GameScene.ts:459 | whole seconds since the start: the floor of the millisecond difference over 1000 |
| SceneRules.TimerText | src/lib/phaser/scenes/GameScene.ts:460-464 | the timer line: `TIME: ` and the mm:ss clock |
| SceneRules.HeightText | src/lib/phaser/scenes/GameScene.ts:465 | the height line: `HEIGHT: `, the height and `m` |
| GameScene.CreateMap | src/lib/phaser/scenes/GameScene.ts:233-279 | the loop computes exactly the map the build function specifies |
| GameScene.BuildMapSnoc | src/lib/phaser/scenes/GameScene.ts:234-235 | building one more descriptor is one more step of the map loop |
| GameScene.AddPlatformBodies | src/lib/phaser/scenes/GameScene.ts:250-278 | the per-descriptor loops record, mark and push exactly the bodies the specification adds |
| GameScene.BirdData | src/lib/phaser/scenes/GameScene.ts:328-343 | the bird descriptors are no more than the obstacles |
| GameScene.BirdDataFromBirds | src/lib/phaser/scenes/GameScene.ts:331-337 | every bird built comes from a bird-typed obstacle, scaled |
| GameScene.BirdDataAllBirds | src/lib/phaser/scenes/GameScene.ts:331-337 | when every obstacle is a bird, each one becomes a bird, in order |
| GameScene.CreateBirds | src/lib/phaser/scenes/GameScene.ts:328-343 | one fresh, distinct bird per bird descriptor, in order, built from its scaled data and its random draw |
| GameScene.CreateSnowLeopards | src/lib/phaser/scenes/GameScene.ts:345-360 | one fresh, distinct leopard per spawn descriptor, in order, built from its scaled data and with no goat reference yet |
| GameScene.SetPlayerRefs | src/lib/phaser/scenes/GameScene.ts:101-104 | every leopard now refers to the goat and nothing else of it changes |
| GameScene.Populate | src/lib/phaser/scenes/GameScene.ts:86-104 | create() builds the specified map (well built), a fresh goat at the start position, the birds, and the leopards all referring to the goat |
| GameScene.LeopardViews | src/lib/phaser/scenes/GameScene.ts:586-606 | the contact view holds one entry per leopard, in order |
| GameScene.IceFlags | src/lib/phaser/scenes/GameScene.ts:262-266 | the ice flags are the platforms' ice marks, in order |
| GameScene.Directions | src/lib/phaser/scenes/GameScene.ts:533-534 | the headings are the birds' directions, in order |
| GameScene.ResizeBird | src/lib/phaser/scenes/GameScene.ts:769-773 | a bird is moved by the scale ratio, its patrol restarts from there and its speed scale becomes the new scale |
| GameScene.ResizeLeopard | src/lib/phaser/scenes/GameScene.ts:776-780 | a leopard is moved by the scale ratio, its spawn x follows it and its speed scale becomes the new scale |
| GameScene.FallCheck | src/lib/phaser/scenes/GameScene.ts:366-385 | one leopard's fall-and-respawn step, its goat reference re-set after a respawn, and nothing else changed |
| GameScene.BodyRecords | src/lib/phaser/scenes/GameScene.ts:251-257 | the loop pushing one record per body equals the records of those bodies: scale-1 x and width, in order |
| GameScene.BodyImages | src/lib/phaser/scenes/GameScene.ts:259-279 | the loop flagging and pushing the bodies equals their images with the descriptor's ice and goal flags |
| GameScene.Scene.constructor | src/lib/phaser/scenes/GameScene.ts:64-137 | create(): start time, scale and mode from the width, the built map, goat, birds and leopards, empty contact state, initial HUD texts, initialised |
| GameScene.Scene.HandleGameOver | src/lib/phaser/scenes/GameScene.ts:714-722 | pauses and launches one loss result with the whole elapsed seconds and the goat's height |
| GameScene.Scene.BirdBegin | src/lib/phaser/scenes/GameScene.ts:528-541 | a bird hit knocks the goat along that bird's heading and changes nothing else of it |
| GameScene.Scene.WallBegin | src/lib/phaser/scenes/GameScene.ts:555-563 | a wall hit reverses and damps the goat's horizontal velocity |
| GameScene.Scene.PlatformBegin | src/lib/phaser/scenes/GameScene.ts:565-582 | a platform joins the colliding set, an ice one becomes the current ice platform and lowers the friction, and the goat is grounded off the goal |
| GameScene.Scene.BeginPlayerSide | src/lib/phaser/scenes/GameScene.ts:517-583 | the goat's side of a begin pair does what the contact rule says, including the early return after a leopard hit |
| GameScene.Scene.LeopardBegin | src/lib/phaser/scenes/GameScene.ts:586-606 | one leopard's reaction is the contact rule's, and only its phase and wall-hit count change |
| GameScene.Scene.BeginLeopardSide | src/lib/phaser/scenes/GameScene.ts:586-606 | the leopard pass is the contact rule's pass over every leopard |
| GameScene.Scene.BeginPlayerPart | src/lib/phaser/scenes/GameScene.ts:513-583 | the goat's part of a begin pair follows the contact rule and leaves the rest of the scene alone |
| GameScene.Scene.BeginOne | src/lib/phaser/scenes/GameScene.ts:511-607 | one begin pair follows the contact rule and leaves the rest of the scene alone |
| GameScene.Scene.HandleCollisionStart | src/lib/phaser/scenes/GameScene.ts:510-609 | the begin handler follows the contact rule over all the event's pairs |
| GameScene.Scene.PersistOne | src/lib/phaser/scenes/GameScene.ts:618-642 | one persist pair follows the contact rule |
| GameScene.Scene.PersistPairs | src/lib/phaser/scenes/GameScene.ts:617-643 | the persist loop follows the contact rule and returns its ice flag |
| GameScene.Scene.HandleCollisionActive | src/lib/phaser/scenes/GameScene.ts:612-656 | the persist handler follows the contact rule over all the event's pairs |
| GameScene.Scene.PersistEvent | src/lib/phaser/scenes/GameScene.ts:615-655 | the persist loop and its two closing steps follow the contact rule |
| GameScene.Scene.EndOne | src/lib/phaser/scenes/GameScene.ts:663-689 | one end pair follows the contact rule |
| GameScene.Scene.EndPairs | src/lib/phaser/scenes/GameScene.ts:662-690 | the end loop follows the contact rule |
| GameScene.Scene.HandleCollisionEnd | src/lib/phaser/scenes/GameScene.ts:659-701 | the end handler follows the contact rule over all the event's pairs |
| GameScene.Scene.EndEvent | src/lib/phaser/scenes/GameScene.ts:660-700 | the end loop and its closing step follow the contact rule |
| GameScene.Scene.RescalePlatforms | src/lib/phaser/scenes/GameScene.ts:754-759 | the platform loop of a resize computes exactly the specified rescale |
| GameScene.Scene.ResizeBirds | src/lib/phaser/scenes/GameScene.ts:769-773 | every bird is resized as one bird's rule says |
| GameScene.Scene.ResizeLeopards | src/lib/phaser/scenes/GameScene.ts:776-780 | every leopard is resized as one leopard's rule says |
| GameScene.Scene.ResizeAll | src/lib/phaser/scenes/GameScene.ts:740-780 | a resize within the same mode sets the new scale, rescales the map and moves the goat, birds and leopards by the scale ratio |
| GameScene.Scene.HandleResize | src/lib/phaser/scenes/GameScene.ts:725-781 | ignored before create() finished; a restart and nothing else when the mobile mode flips; otherwise the full resize |
| GameScene.Scene.UpdateBirds | src/lib/phaser/scenes/GameScene.ts:177 | every bird takes one patrol step |
| GameScene.Scene.UpdateLeopards | src/lib/phaser/scenes/GameScene.ts:180 | every leopard takes one chase step against this scene's goat |
| GameScene.Scene.CheckSnowLeopardFallAndRespawn | src/lib/phaser/scenes/GameScene.ts:362-388 | every leopard takes its fall-and-respawn step |
| GameScene.Scene.LeopardsFrame | src/lib/phaser/scenes/GameScene.ts:180-183 | each leopard's frame is its chase step and then its fall-and-respawn step |
| GameScene.Scene.UpdateHud | src/lib/phaser/scenes/GameScene.ts:458-466 | the timer shows the whole elapsed seconds and the height text the goat's height |
| GameScene.Scene.HandleClear | src/lib/phaser/scenes/GameScene.ts:704-711 | pauses and launches one win result with the clear time and the goat's height |
| GameScene.Scene.Update | src/lib/phaser/scenes/GameScene.ts:173-196 | one frame: the goat, bird and leopard steps, the HUD, and on the goal platform a paused scene with one win result launched; otherwise no launch |
| GameScene.Scene.GoalBegin | src/lib/phaser/scenes/GameScene.ts:522-525 | the sensor begin: the goal flag raised and nothing else of the goat changed |
| GameScene.Scene.LeopardLoop | src/lib/phaser/scenes/GameScene.ts:586-606 | the leopard pass over distinct leopards follows the leopard fold and changes only their phase and wall counts |
| GameScene.Scene.LeaveIceUnlessOn | src/lib/phaser/scenes/GameScene.ts:646-649 | after the persist loop: with no ice pair and a current ice platform, the platform is forgotten and friction restored; otherwise nothing changes |
| GameScene.Scene.RegroundIfTouching | src/lib/phaser/scenes/GameScene.ts:652-654 | after persist: grounded and off the goal exactly when some platform is touched |
| GameScene.Scene.GoalEnd | src/lib/phaser/scenes/GameScene.ts:671-674 | the sensor end: the goal flag lowered and nothing else of the goat changed |
| GameScene.Scene.PlatformEnd | src/lib/phaser/scenes/GameScene.ts:676-688 | leaving platform i: removed from the colliding set; leaving an ice platform forgets it and restores friction |
| GameScene.Scene.LeaveGround | src/lib/phaser/scenes/GameScene.ts:693-699 | with no platform left: airborne and off the goal, and off the ice with friction restored if on ice |
| GameScene.Scene.RescaleMap | src/lib/phaser/scenes/GameScene.ts:740-760 | the new scale is width/960 and every platform body is placed from its scale-1 record; the map stays well built |
| GameScene.Scene.ResizePlayer | src/lib/phaser/scenes/GameScene.ts:763-766 | the goat's x multiplied by the scale ratio, its y and controller state kept, the new scale passed on |
| GameScene.Scene.EntitiesFrame | src/lib/phaser/scenes/GameScene.ts:174-183 | the entity part of a frame: the goat's charge step, every bird's patrol, every leopard's update followed by its fall check |
| Scores.Status | src/app/api/scores/route.ts:19-24 | the response status is 200 or 400, and 400 exactly for missing fields |
| Scores.Truncate | src/app/api/scores/route.ts:30 | the stored nickname is a prefix of the given one, of length min(length, 12) counted in characters |
| Scores.TruncateRules | src/app/api/scores/route.ts:30 | names of at most 12 characters are kept, truncation is idempotent and never empties a name |
| Scores.CountFaster | src/app/api/scores/route.ts:40-43 | the count of strictly faster rows is at most the number of rows |
| Scores.RankOf | src/app/api/scores/route.ts:47 | a rank is between 1 and one more than the number of rows |
| Scores.CountFasterAppend | src/app/api/scores/route.ts:40-43 | the count over two tables joined is the sum of their counts |
| Scores.CountFasterIndices | src/app/api/scores/route.ts:40-43 | the count is the number of rows whose time is strictly below the given one |
| Scores.CountFasterMonotone | src/app/api/scores/route.ts:40-43 | a slower time never has fewer faster rows |
| Scores.CountFasterPermutation | src/app/api/scores/route.ts:40-43 | the count does not depend on the order of the table |
| Scores.NewRowNotCounted | src/app/api/scores/route.ts:27-43 | the row just inserted is not counted as faster than itself |
| Scores.Insert | src/app/api/scores/route.ts:83 | inserting adds exactly that row to the rows |
| Scores.SortByTime | src/app/api/scores/route.ts:80-84 | the ordering is a permutation of the table |
| Scores.InsertSorted | src/app/api/scores/route.ts:83 | inserting into an ascending list keeps it ascending |
| Scores.SortByTimeSorted | src/app/api/scores/route.ts:83 | the ordered table is ascending by clear time |
| Scores.SortedRankBound | src/app/api/scores/route.ts:83 | in an ascending list fewer rows are faster than the one at position i than i |
| Scores.PostRules | src/app/api/scores/route.ts:5-57 | without a backend: rank 1, nothing stored; a falsy nickname or missing time: 400, nothing stored; otherwise exactly the truncated row is appended and its rank is one plus the strictly faster rows already stored, status 200 |
| Scores.ZeroTimeAccepted | src/app/api/scores/route.ts:19 | a clear time of 0 is accepted: only an absent time is refused |
| Scores.PostRankOrder | src/app/api/scores/route.ts:40-47 | a slower clear never ranks better than a faster one, and equal times rank equal |
| Scores.ScoreTable.constructor | src/app/api/scores/route.ts:2 | the table starts configured as given and with the given rows |
| Scores.ScoreTable.Post | src/app/api/scores/route.ts:5-57 | the submission answers and updates the table exactly as the POST rules say |
| Scores.DigitPrefix | src/app/api/scores/route.ts:75 | the decimal digits parseInt reads from a limit without a `0x` prefix: a prefix of the parameter, all digits, followed by a non-digit or the end |
| Scores.DefaultLimit | src/app/api/scores/route.ts:75 | an absent or empty limit reads as 100 |
| Scores.LimitStopsAtNonDigit | src/app/api/scores/route.ts:75 | parseInt stops at the first non-digit: "25rows" reads as 25 |
| Scores.RowsOf | src/app/api/scores/route.ts:91-94 | a row is selected exactly when it is in the table and has that nickname |
| Scores.BestOfRule | src/app/api/scores/route.ts:91-97 | no best row exactly when the nickname has no rows; otherwise the best row is one of that nickname's rows with the lowest time |
| Scores.Top | src/app/api/scores/route.ts:80-84 | the leaderboard holds min(limit, rows) rows |
| Scores.TopRules | src/app/api/scores/route.ts:80-84 | the leaderboard is ascending, drawn from the table, and no row left out is faster than any row shown |
| Scores.TopRankBound | src/app/api/scores/route.ts:80-84 | no row on the leaderboard has a rank below its position |
| Scores.LeaderboardRules | src/app/api/scores/route.ts:74-116 | with a backend the answer is the top rows for the limit and its total is their count |
| Scores.UserRankRules | src/app/api/scores/route.ts:88-110 | no user rank without a nickname or when it has no rows; otherwise it is that nickname's best row, ranked one plus the strictly faster rows |
| Scores.MockLeaderboard | src/app/api/scores/route.ts:62-72 | without a backend, for any limit: the three sample rows, ascending, total 3, no user rank |
| Scores.PostOutcome | src/app/api/scores/route.ts:5-57 | `POST`: 400 without a truthy nickname or a clear time; else the truncated row is stored (or not, without a backend) and answered with its rank |
| Scores.HexValue | src/app/api/scores/route.ts:75 | a hexadecimal digit's value is below 16 and agrees with the decimal value on `0`-`9` |
| Scores.HexPrefix | src/app/api/scores/route.ts:75 | the longest prefix of hexadecimal digits: a prefix, all hex digits, stopped by a non-hex character |
| Scores.ParseHex | src/app/api/scores/route.ts:75 | the base-16 value of a string of hexadecimal digits |
| Scores.LimitOf | src/app/api/scores/route.ts:75 | `parseInt(limit \|\| '100')`: base 16 after `0x`/`0X`, else the leading decimal digits; NaN when no digit follows |
| Scores.HexLimit | src/app/api/scores/route.ts:75 | a `0x` limit is the value of the hex digits after the prefix, and NaN when none follows |
| Scores.DecimalLimit | src/app/api/scores/route.ts:75 | a limit without a `0x` prefix is the value of its leading decimal digits, and NaN when it starts with a non-digit |
| Scores.HexLimitExample | src/app/api/scores/route.ts:75-84 | `0x10` reads as 16 rows, `0X` alone as NaN |
| Scores.BestOf | src/app/api/scores/route.ts:91-97 | the nickname's first row in time order, if any |
| Scores.MockScores | src/app/api/scores/route.ts:64-68 | the three mock rows: times 300, 450 and 600, height 5000 |
| Scores.Leaderboard | src/app/api/scores/route.ts:60-116 | `GET`: the mock answer without a backend, else the top rows, their count and the nickname's rank |
| GameOver.TitleRules | src/lib/phaser/scenes/GameOverScene.ts:36-37 | the title is "GOAL REACHED!" in gold exactly for a clear and "GAME OVER" in red exactly otherwise |
| GameOver.LinesRules | src/lib/phaser/scenes/GameOverScene.ts:35-79 | three lines for a clear and two otherwise: the title first, the height line last, and a clear-time line exactly when the run was a clear |
| GameOver.ClearTimeLikeTimer | src/lib/phaser/scenes/GameOverScene.ts:51-57 | the clear time uses the in-game timer's clock format and reads back as minutes and seconds that recompose to the clear time |
| GameOver.ClearExample | src/lib/phaser/scenes/GameOverScene.ts:36-71 | a clear in 125 seconds at height 300 shows "GOAL REACHED!", "Clear Time: 02:05" and "Best Height: 300m" |
| GameOver.Nickname | src/lib/phaser/scenes/GameOverScene.ts:207 | the nickname sent is never empty: the stored one when it is truthy, "Anonymous" otherwise |
| GameOver.SaveRules | src/lib/phaser/scenes/GameOverScene.ts:95-98 | a score is submitted exactly for a clear, with the nickname, the clear time and the height |
| GameOver.ReplyOf | src/lib/phaser/scenes/GameOverScene.ts:221-222 | the reply is ok exactly when the endpoint answers status 200 |
| GameOver.RankText | src/lib/phaser/scenes/GameOverScene.ts:221-242 | a rank line appears exactly for an ok reply with a non-zero rank |
| GameOver.ClearShowsRank | src/lib/phaser/scenes/GameOverScene.ts:204-242 | every submitted clear gets a rank line; with a backend its rank is one plus the strictly faster stored times |
| GameOver.FreshConsistent | src/lib/phaser/scenes/GameOverScene.ts:163-170 | a new button is at rest: at its base position, drawn unpressed in the default colour |
| GameOver.StepConsistent | src/lib/phaser/scenes/GameOverScene.ts:172-199 | every pointer event keeps the button consistent: BORDER lower exactly while pressed, drawn pressed exactly while pressed, in the hover colour only while hovered, and at rest in the colour its hover state calls for |
| GameOver.RunConsistent | src/lib/phaser/scenes/GameOverScene.ts:172-199 | any sequence of pointer events keeps the button consistent |
| GameOver.ClickRule | src/lib/phaser/scenes/GameOverScene.ts:192-199 | onClick runs on an event exactly when it is a pointer-up on a pressed button |
| GameOver.ClicksBounded | src/lib/phaser/scenes/GameOverScene.ts:177-199 | every click is paid for by an earlier pointer-down: the clicks never exceed the pointer-downs plus a pending press |
| GameOver.PressExamples | src/lib/phaser/scenes/GameOverScene.ts:172-199 | over, down, up clicks once and leaves the button hovered at rest; leaving while pressed cancels the click |
| GameOver.Button.constructor | src/lib/phaser/scenes/GameOverScene.ts:163-170 | a new button is in the fresh state at its base position |
| GameOver.Button.PointerOver | src/lib/phaser/scenes/GameOverScene.ts:172-175 | the pointer-over handler makes the step the press machine specifies and keeps the button consistent |
| GameOver.Button.PointerOut | src/lib/phaser/scenes/GameOverScene.ts:177-184 | the pointer-out handler makes the specified step and keeps the button consistent |
| GameOver.Button.PointerDown | src/lib/phaser/scenes/GameOverScene.ts:186-190 | the pointer-down handler makes the specified step and keeps the button consistent |
| GameOver.Button.PointerUp | src/lib/phaser/scenes/GameOverScene.ts:192-199 | the pointer-up handler makes the specified step, and it clicks exactly when the button was pressed |
| GameOver.OnClickRules | src/lib/phaser/scenes/GameOverScene.ts:82-93 | both buttons stop this screen and the level scene first; only PLAY AGAIN starts the level again and only MAIN MENU navigates, to "/" |
| GameOver.Title | src/lib/phaser/scenes/GameOverScene.ts:36-37 | the title and its colour for a clear or a loss |
| GameOver.ClearTimeLine | src/lib/phaser/scenes/GameOverScene.ts:51-57 | `Clear Time: ` and the mm:ss clock of the clear time |
| GameOver.HeightLine | src/lib/phaser/scenes/GameOverScene.ts:71 | `Best Height: `, the height and `m` |
| GameOver.Lines | src/lib/phaser/scenes/GameOverScene.ts:35-79 | the text lines from top to bottom: the title, the clear time for a clear, the height |
| GameOver.SaveRequest | src/lib/phaser/scenes/GameOverScene.ts:95-219 | the request body posted for a clear: nickname, clear time and height; nothing for a loss |
| GameOver.Fresh | src/lib/phaser/scenes/GameOverScene.ts:163-170 | a new button: not hovered, not pressed, at its base y, drawn in the default colour |
| GameOver.Step | src/lib/phaser/scenes/GameOverScene.ts:172-199 | one pointer event on a button: its hover, press, y, drawing and whether `onClick` runs |
| GameOver.Run | src/lib/phaser/scenes/GameOverScene.ts:172-199 | a sequence of pointer events applied in order |
| GameOver.Label | src/lib/phaser/scenes/GameOverScene.ts:82-88 | the two button labels |
| GameOver.OnClick | src/lib/phaser/scenes/GameOverScene.ts:82-93 | the commands each button issues, in order |
| Audio.BgmLevel | src/lib/phaser/audio/AudioManager.ts:80 | the track plays silent while the background music is muted and at its volume otherwise |
| Audio.SfxLevel | src/lib/phaser/audio/AudioManager.ts:92 | effects play silent while muted and at their volume otherwise |
| Audio.LoadSaved | src/lib/phaser/audio/AudioManager.ts:169-198 | loading the record the manager saves gives back exactly those settings |
| Audio.LoadRules | src/lib/phaser/audio/AudioManager.ts:169-182 | with no record the defaults 0.5, 0.5, unmuted hold; a stored field is kept even when 0 or false, and only a missing one takes its default |
| Audio.ApplyPartial | src/lib/phaser/audio/AudioManager.ts:162-167 | every field present in the event replaces the current one and every missing one is kept |
| Audio.TrailRules | src/lib/phaser/audio/AudioManager.ts:162-167 | one record is saved per present field, the last one is the final settings, and an empty event changes nothing |
| Audio.ApplyRules | src/lib/phaser/audio/AudioManager.ts:162-167 | a full record replaces everything, and applying the same event twice is the same as once |
| Audio.TrailSplit | src/lib/phaser/audio/AudioManager.ts:163-166 | the records an event stores are those of its volume fields followed by those of its mute fields |
| Audio.AudioManager.IsSfxMuted | src/lib/phaser/audio/AudioManager.ts:145-147 | answers the current sfx mute flag |
| Audio.AudioManager.GetSfxVolume | src/lib/phaser/audio/AudioManager.ts:149-151 | answers the current sfx volume |
| Audio.AudioManager.constructor | src/lib/phaser/audio/AudioManager.ts:33-35 | a new manager starts from the stored settings, unbound, with no sounds, no listener and nothing saved |
| Audio.AudioManager.Init | src/lib/phaser/audio/AudioManager.ts:44-63 | binds the sound manager, forgets the track and the looping effects, and leaves exactly one listener |
| Audio.AudioManager.PlaySfx | src/lib/phaser/audio/AudioManager.ts:65-68 | a one-shot effect is played at the sfx volume, unless effects are muted or nothing is bound |
| Audio.AudioManager.PlayBgm | src/lib/phaser/audio/AudioManager.ts:70-83 | the old track is stopped and destroyed and a fresh looping track plays at the bgm level; nothing happens before binding |
| Audio.AudioManager.CreateLoopingSfx | src/lib/phaser/audio/AudioManager.ts:85-97 | fails before binding; otherwise a fresh looping effect at the sfx level joins the looping set |
| Audio.AudioManager.RemoveLoopingSfx | src/lib/phaser/audio/AudioManager.ts:99-101 | the sound leaves the looping set |
| Audio.AudioManager.SetLoopingVolume | src/lib/phaser/audio/AudioManager.ts:116-120 | every looping effect gets the volume, playing or not |
| Audio.AudioManager.Save | src/lib/phaser/audio/AudioManager.ts:184-198 | the current settings are stored as the newest record |
| Audio.AudioManager.SetBgmVolume | src/lib/phaser/audio/AudioManager.ts:103-111 | only the bgm volume changes, the track follows the bgm level, and the new settings are stored |
| Audio.AudioManager.SetSfxVolume | src/lib/phaser/audio/AudioManager.ts:113-122 | only the sfx volume changes, every looping effect follows the sfx level, and the new settings are stored |
| Audio.AudioManager.SetBgmMuted | src/lib/phaser/audio/AudioManager.ts:124-132 | only the bgm mute flag changes, the track follows the bgm level, and the new settings are stored |
| Audio.AudioManager.SetSfxMuted | src/lib/phaser/audio/AudioManager.ts:134-143 | only the sfx mute flag changes, every looping effect follows the sfx level, and the new settings are stored |
| Audio.AudioManager.ApplySettings | src/lib/phaser/audio/AudioManager.ts:162-167 | the settings become the event applied to the old ones, one record is stored per present field in setter order, and the volumes stay consistent |
| Audio.AudioManager.StopAll | src/lib/phaser/audio/AudioManager.ts:200-206 | the bound manager's sounds are stopped once, and the track and looping effects are forgotten |
| Audio.SavedSettingsReload | src/lib/phaser/audio/AudioManager.ts:33-35 | a manager created after a save starts from the settings in force at that save |
| Audio.Full | src/lib/phaser/audio/AudioManager.ts:184-198 | the record `saveSettings` writes: all four fields |
| Audio.Loaded | src/lib/phaser/audio/AudioManager.ts:169-182 | `loadSettings`: the defaults without a record, else each field `??` its default |
| Audio.Trail | src/lib/phaser/audio/AudioManager.ts:162-167 | the stored records that `applySettings` leaves, one per present field, in setter order |
| AudioStore.ActionFrame | src/store/audioStore.ts:35-65 | each setter changes its own field only, each toggle flips its own flag only, and opening or closing the panel touches only the panel flag |
| AudioStore.ToggleTwice | src/store/audioStore.ts:45-55 | toggling a mute twice gives back the original state, and the second toggle sends the original flag |
| AudioStore.SentKeepsGameInStep | src/store/audioStore.ts:24-55 | the events an action sends bring the game's settings to the store's new settings |
| AudioStore.GameFollowsStore | src/store/audioStore.ts:24-65 | over any sequence of actions, the game that handles every event sent ends with the store's settings |
| AudioStore.FromStorageRules | src/store/audioStore.ts:67-82 | no record leaves the store alone; a complete record is taken as is and matches what the game loads; a missing sfx volume gives 0.7 here but 0.5 in the game |
| AudioStore.Next | src/store/audioStore.ts:35-65 | the store after each action: a volume set, a mute toggled, the settings panel opened or closed |
| AudioStore.Sent | src/store/audioStore.ts:24-65 | the window events of each action: the changed field alone, or the pause/resume request |
| AudioStore.ApplyAll | src/store/audioStore.ts:24-26 | the game's settings after it has handled a list of window events |
| AudioStore.RunActions | src/store/audioStore.ts:35-65 | a sequence of actions applied in order |
| AudioStore.SentAll | src/store/audioStore.ts:24-65 | the window events of a sequence of actions, in order |
| AudioStore.FromStorage | src/store/audioStore.ts:67-82 | `initFromStorage`: untouched without a record, else each field `??` 0.5, 0.7, false, false |
| AudioStore.Store.constructor | src/store/audioStore.ts:29-33 | the store starts at 0.5, 0.5, unmuted, panel closed, with nothing sent |
| AudioStore.Store.SetBgmVolume | src/store/audioStore.ts:35-38 | the store takes the action's next state and sends a settings change with only the bgm volume |
| AudioStore.Store.SetSfxVolume | src/store/audioStore.ts:40-43 | the store takes the action's next state and sends a settings change with only the sfx volume |
| AudioStore.Store.ToggleBgmMute | src/store/audioStore.ts:45-49 | the bgm mute flag flips and the new flag is sent |
| AudioStore.Store.ToggleSfxMute | src/store/audioStore.ts:51-55 | the sfx mute flag flips and the new flag is sent |
| AudioStore.Store.OpenSettings | src/store/audioStore.ts:57-60 | the panel opens and a pause request is sent |
| AudioStore.Store.CloseSettings | src/store/audioStore.ts:62-65 | the panel closes and a resume request is sent |
| AudioStore.Store.InitFromStorage | src/store/audioStore.ts:67-82 | the store takes the stored record with its defaults, and sends nothing |
| GameStore.ResetRules | src/store/gameStore.ts:56-63 | a reset clears the run figures, keeps the nickname, is idempotent, and gives the initial state apart from the nickname |
| GameStore.Reset | src/store/gameStore.ts:56-63 | `resetGame`: every run figure cleared, the nickname kept |
| GameStore.Store.constructor | src/store/gameStore.ts:31-53 | the store starts empty: no nickname, not playing, zero figures, no clear time |
| GameStore.Store.SetNickname | src/store/gameStore.ts:34 | only the nickname changes |
| GameStore.Store.SetIsPlaying | src/store/gameStore.ts:38 | only the playing flag changes |
| GameStore.Store.SetCurrentHeight | src/store/gameStore.ts:42 | only the current height changes |
| GameStore.Store.SetElapsedTime | src/store/gameStore.ts:45 | only the elapsed time changes |
| GameStore.Store.SetJumpPower | src/store/gameStore.ts:49 | only the jump power changes |
| GameStore.Store.SetLastClearTime | src/store/gameStore.ts:53 | only the last clear time changes |
| GameStore.Store.ResetGame | src/store/gameStore.ts:56-63 | the store becomes the reset of its old state |
| Audio.AudioManager.ApplyBgmVolume | src/lib/phaser/audio/AudioManager.ts:163 | a present bgm volume goes through its setter (one stored record); an absent one changes and stores nothing |
| Audio.AudioManager.ApplySfxVolume | src/lib/phaser/audio/AudioManager.ts:164 | a present sfx volume goes through its setter (one stored record); an absent one changes and stores nothing |
| Audio.AudioManager.ApplyBgmMuted | src/lib/phaser/audio/AudioManager.ts:165 | a present bgm mute flag goes through its setter (one stored record); an absent one changes and stores nothing |
| Audio.AudioManager.ApplySfxMuted | src/lib/phaser/audio/AudioManager.ts:166 | a present sfx mute flag goes through its setter (one stored record); an absent one changes and stores nothing |
| Audio.AudioManager.ApplyVolumes | src/lib/phaser/audio/AudioManager.ts:163-164 | the volume half of an event: both volumes applied in order, with their records |
| Audio.AudioManager.ApplyMutes | src/lib/phaser/audio/AudioManager.ts:165-166 | the mute half of an event: both flags applied in order, with their records |
| Util.Round | src/lib/phaser/entities/Player.ts:120 | the nearest integer, halves rounded up as Math.round does |

## Left out

- The Matter.js engine is not modelled: integration, gravity, restitution, sleeping and the engine's own pair bookkeeping. Positions and velocities are inputs. `setVelocity` and `setPosition` are recorded commands. The order of begin, persist and end events and the pairs in each are parameters.
- Rendering is not modelled: textures, tints, `flipX`, depth, the camera follow, the tiled background, the platform index labels, the goal image, the power gauge, text styles and positions.
- `Math.random` for a bird's first heading is a parameter (one coin per bird). `Date.now` is a millisecond clock reading passed to the scene.
- `localStorage`, `JSON.parse`/`JSON.stringify`, `fetch` and `window` events are not modelled as such. A stored record is an `Option` input, where `None` stands for absent, empty or unparsable. Saved records and sent events are logs. A response is a value, and a rejected request is `Reply.Failed`. Storage write failures are ignored, as in the code.
- The Supabase client is not modelled. Its queries become operations on a sequence of rows, and the new row's id is a parameter. Database errors (the 500 answers) are not modelled.
- `AudioManager`'s singleton `getInstance` is not modelled: the model constructs managers directly. The window listener is a counter of registered listeners.
- The engine's sound objects are reduced to stand-in classes (`Audio.Sound`, `Audio.SoundManager`). They keep only a sound's key, loop flag, volume, playing and destroyed flags, and the manager's log of one-shot plays.
- `src/lib/phaser/ui/VirtualController.ts` is not part of this model. It is touch-screen input only, and the `Player` members it forwards to are not defined in the code.
- `src/lib/phaser/scenes/PreloadScene.ts` and the React pages and components are not part of this model (asset loading and page layout).
- The leaderboard page's own `formatTime` is not part of this model.
- Scene cleanup on shutdown and the event wiring of `create()` are not modelled.
- `scene.restart()` is not modelled. A restart after the mobile breakpoint is crossed is a counter; re-creating the scene is not modelled.
- `COLLISION_CATEGORIES.WALL` and `GAME_CONSTANTS.PLAYER_FRICTION_ON_ICE` are not defined in `config.ts`. The walls' own filters and the ice friction value are not modelled; the friction hook carries no argument.
- `Math.sin(12°)` is a constant, and the lemmas use only that it lies strictly between 0 and 1. Floating-point effects are not modelled: all numbers are exact reals or integers, with no NaN and no rounding error.
- PlayerEntity.Player.CallHook: the model assumes `setFrictionValue`, `resetFriction` and `setScreenScaleX` exist on the player and only record the call. As written, `Player` defines none of them, so each call throws and ends the handler, and the model goes on where the code stops:
  - Landing on ice (`GameScene.ts:575`, `GameScene.Scene.PlatformBegin`, `Contacts.BeginPlayer`): the platform is added and `currentIcePlatform` is set, but `setGrounded` (`:581`) and the remaining pairs of the event are skipped.
  - Leaving ice during persist (`:648`, `GameScene.Scene.LeaveIceUnlessOn`, `Contacts.Persist`): the re-grounding at `:652-654` is skipped.
  - Leaving ice in contact end (`:686` and `:697`, `GameScene.Scene.PlatformEnd`, `GameScene.Scene.LeaveGround`, `Contacts.End`): the rest of the end handler is skipped.
  - Resize (`:765`, `GameScene.Scene.ResizePlayer`, `GameScene.Scene.HandleResize`): the birds (`:769-773`) and leopards (`:776-780`) are not moved.
- SnowLeopardEntity.SnowLeopard.OnHitWall: the model assumes `onHitWall` exists and only counts the call. As written, `SnowLeopard` does not define it, so a leopard–wall contact (`GameScene.ts:593`, `Contacts.BeginLeopard`, `GameScene.Scene.LeopardBegin`, `GameScene.Scene.BeginLeopardSide`) throws, and the rest of that begin event is skipped.
- GameScene.Scene.constructor: `GameScene.ts:7` imports `getMapDataForScreen`, `getObstacleDataForScreen` and `getSnowLeopardDataForScreen`, which `mapGenerator.ts` does not export. As written, `create()` throws at its first such call, in `createMap` (`:89`, `:234`, `GameScene.CreateMap`), so nothing after it runs; the later calls at `:209` (start position), `:329` (birds, `GameScene.CreateBirds`) and `:346` (leopards, `GameScene.CreateSnowLeopards`) would throw too. The model takes the chosen layout as a `Layout` input instead.
- PlatformFactory.BodiesStaticWithChosenFriction: `friction` is the value passed to `setFriction` before `setBody` replaces the body (`platformFactory.ts:102-104` and `:134-136`). Whether the engine keeps it on the new body, or falls back to its default friction, is not modelled.
- GameScene.Scene.Update: requires a running scene, because the engine does not call `update` on a paused scene.
- GameScene.Scene.Update: requires a clock reading no earlier than the start time, as do `HandleGameOver` and `UpdateHud`.
- Scores.LeaderboardRules: stated only for limits that `parseInt` reads as a non-negative number: absent, empty, starting with a decimal digit, or `0x`/`0X` followed by a hexadecimal digit. Negative, `NaN` and whitespace-led limits are not modelled, and neither is what the database does with them. The same holds for `Scores.UserRankRules`.
- Scores.Leaderboard: with a backend it requires such a limit; the mock answer without a backend needs none, because it comes before the limit is read.
- Scores.Truncate: counts Unicode scalar values, while `slice(0, 12)` counts UTF-16 code units. A nickname with characters outside the Basic Multilingual Plane keeps more characters in the model than in the code, and a split surrogate pair is not modelled. `Scores.PostRules` inherits this.
- Scores.SortByTime: the database's order among rows with equal clear times is unspecified. The model uses a stable insertion order.
- Scores.PostRules: the JSON body's fields are typed optional values. Non-string nicknames, `null` times and other mistyped bodies are not modelled.
- GameOver.OnClickRules: the scene manager's stop/start and the page navigation are returned as commands and are not carried out.
