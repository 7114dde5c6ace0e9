# cat-chaser in Dafny

A model of the game logic of cat-chaser, a small game in which the player
walks a dog around a field and herds cats into a pen (the cat box). The
repository holds two generations of the game, and both are modelled, each
against its own files.

**The older game** is `src/entities.rs` and `src/world.rs`, with the party of
`src/party.rs`.
- `Entities`: the dog's hit/blink machine and the cat's behaviour machine (idle,
  flee, in the pen, jittering, cannonballing). It also holds the annoyance
  accumulator, the countdowns, the clamped movement and the pen test.
- `World`: the screens (start menu, how to play, running, won, game over), the
  dog's keyboard movement, the frame in which every cat takes its step, and
  the win check.
- `Party`: the victory shower of falling, spinning cats.

**The newer game** is built on an entity-component engine:
- `Game`: the round bookkeeping (cat counts, level clear, victory), from
  `src/game.rs`.
- `DogSystems`: the dog's recovery after a hit, its movement, animation and
  bark, from `src/dog.rs`.
- `Input`: keyboard and gamepad reading, from `src/input.rs`.
- `Physics`: velocity integration and collider settings, from `src/physics.rs`.
- `Menus`: the title-screen navigation, from `src/ui/menus.rs`.
- `Hud`: the pen tracker text and the level-clear and victory prompts, from
  `src/ui/hud.rs`.
- `Utils`: blinking, from `src/utils.rs`.
- `PartyUi`: the victory party, from `src/ui/party.rs`.

**Shared modules.**
- `Vectors`: 2D vectors over the reals.
- `Engine`: stand-ins for the engine's one-shot timer, pending state change and
  visibility.
- `Cats`: the one question the newer systems ask of a cat.

**How the model stands in for what it cannot compute.**
- `f32` is modelled as `real`.
- Square roots cannot be computed over the reals. Wherever the game takes a
  magnitude or normalises a vector, the length is passed in, constrained by
  `IsLength` to be that length.
- Random draws (the idle random-walk step, the jitter shake, the party
  positions) are passed in, constrained to the ranges the game draws from.
  The same goes for the trigonometric random-walk vector.
- Whether an engine timer just finished, or a resource changed, is also
  passed in.

## Model

| member | source | states |
|---|---|---|
| Vectors.Normalize | src/entities.rs:147 | the result has length 1 and, scaled by the length, gives back the vector |
| Vectors.NormalizeOrZero | src/input.rs:61 | zero exactly for the zero vector; otherwise a unit vector along the input |
| Vectors.NormalizeKeepsSigns | src/world.rs:147-149 | normalising keeps the sign of each component |
| Engine.FromSeconds | src/dog.rs:47 | a new timer has the given duration, zero elapsed time, and is neither paused nor finished |
| Engine.Tick | src/dog.rs:114 | a paused or finished timer does not count; the tick that reaches the duration is the one that "just finished"; otherwise elapsed time grows by `dt` |
| Entities.FaceAlong | src/world.rs:198-204 | facing changes only for a non-zero horizontal velocity, and then it is Right exactly for a positive one |
| Entities.Hit | src/entities.rs:48-51 | a hit dog blinks (shown) for `HIT_TIME`, and nothing else about it changes |
| Entities.UpdateDog | src/entities.rs:53-74 | a chasing dog is unchanged; a blinking dog counts frames and, every second frame, spends `dt` of hit time and flips the blink or goes back to chasing; the frame counter stays below 2 |
| Entities.ChasingIsStable | src/entities.rs:53-55 | a chasing dog is unchanged by any number of frames |
| Entities.BlinkingEnds | src/entities.rs:53-74 | a dog with at most `k` frame times of hit time left is chasing again after `2k` frames |
| Entities.NewBasicCatIsCalm | src/entities.rs:111-131 | a new basic cat is idle, at the given position and velocity, with zero annoyance and non-negative rates |
| Entities.CollidesWith | src/entities.rs:133-144 | contact holds exactly when the dog is chasing and the two boxes overlap on both axes, touching included |
| Entities.StartTargeting | src/entities.rs:146-149 | the cannonball direction is the unit vector from the cat to the dog, and the cannonball clock is set to 1.25; nothing else changes |
| Entities.StartJitter | src/entities.rs:151-154 | the jitter origin becomes the cat's position and the countdown is 1 second; nothing else changes |
| Entities.NormalizedJitter | src/entities.rs:156-158 | annoyance relative to the threshold, at least 1 exactly when the cat is over the threshold |
| Entities.ClampMove | src/entities.rs:261-284 | each coordinate of the moved position lies in [size/2, bounds - size/2], equals the unclamped target when that is inside, and otherwise is the bound it crossed |
| Entities.ClampMoveIdempotent | src/entities.rs:261-284 | a clamped position is not moved again by a zero change |
| Entities.DecreaseAnnoyance | src/entities.rs:286-291 | annoyance drops by `calmingRate * dt`, floored at 0, and nothing else changes |
| Entities.DecreaseNeverRaises | src/entities.rs:286-291 | calming never raises annoyance and keeps it non-negative |
| Entities.IncreaseAnnoyance | src/entities.rs:293-298 | annoyance rises by `annoyanceRate * dt` with no upper clamp; reaching the threshold pins the jitter origin and starts the 1-second countdown, and otherwise both are left alone |
| Entities.IncreaseKeepsSane | src/entities.rs:293-298 | annoying never lowers annoyance and keeps it non-negative |
| Entities.StopCannonballing | src/entities.rs:256-259 | the cat is idle with zero annoyance, and nothing else changes |
| Entities.InBounds | src/entities.rs:314-320 | a point is in the pen exactly when it is within half the pen's size of its centre on both axes, edges included |
| Entities.PenCornersInside | src/entities.rs:314-320 | the four corners of the pen are in the pen |
| Entities.UpdateState | src/entities.rs:174-199 | the seven rules in priority order: a cannonball in flight continues; a finished one becomes idle and calm; an expired jitter becomes a cannonball; over the threshold jitters; in the pen is InPen; a chasing dog nearer than the radius makes it flee; otherwise idle; only the state changes outside the cannonball rules |
| Entities.FleeStep | src/entities.rs:201-210 | the velocity points away from the dog at exactly the cat's speed; the cat moves by velocity × `dt` (clamped), its annoyance rises by `annoyanceRate * dt`, reaching the threshold starts the jitter where the cat now stands, and the state is kept |
| Entities.FleeingGainsDistance | src/entities.rs:201-210 | a flight the clamp does not stop takes the cat straight away from a dog standing still: its offset from the dog is stretched by 1 + speed × `dt` / distance, more than 1 |
| Entities.Steer | src/entities.rs:229-231 | a non-zero velocity + circle sum gives the new direction at the given speed; a zero sum keeps the velocity |
| Entities.IdleStep | src/entities.rs:212-235 | the heading moves by the draw, the velocity is steered at a third of the speed, the cat moves by it (clamped), and it calms down |
| Entities.InPenStep | src/entities.rs:237-241 | a penned cat stays where it is and only calms down: annoyance falls by `calmingRate * dt`, floored at 0, and nothing else changes |
| Entities.PennedCatStays | src/entities.rs:237-241 | a calm cat in the pen stays InPen over any run of frames, in the same place, no more annoyed, and otherwise unchanged |
| Entities.CannonballCountdown | src/entities.rs:300-305 | the countdown drops by `dt`; when it runs out, the cat aims at the dog with a unit vector and a 1.25 s cannonball clock |
| Entities.JitterStep | src/entities.rs:160-172 | the cat shakes to within 2 of its jitter origin on each axis and the countdown drops by `dt`; when it runs out the cat aims with a unit vector from its shaken position to the dog and a 1.25 s cannonball clock, otherwise aim and clock are kept; the origin, annoyance and velocity are kept |
| Entities.JitterHolds | src/entities.rs:186-189 | an annoyed jittering cat with countdown left is left exactly as it is by the transition chain |
| Entities.JitterStaysNearOrigin | src/entities.rs:160-172 | over any run of frames before the countdown ends, a jittering cat stays within 2 of the same origin and keeps its state, annoyance and velocity, and its countdown drops by exactly the elapsed time |
| Entities.CannonballStep | src/entities.rs:243-254 | the cat flies `240 * dt` along its aim (clamped), its clock drops by exactly `dt`, and the dog is hit exactly when they collide |
| Entities.CannonballCommitment | src/entities.rs:181-182 | a cannonball with time left stays a cannonball whatever the dog, the pen or the annoyance |
| Entities.BlinkingDogIsHarmless | src/entities.rs:133-136 | a blinking dog makes no cat flee and cannot be collided with |
| Entities.AnnoyedBeatsPenBeatsFlee | src/entities.rs:188-193 | an annoyed cat jitters even in the pen, and a calm cat in the pen is InPen even next to the dog |
| Entities.CannonballOnlyFromJitter | src/entities.rs:181-189 | only a jittering cat starts a cannonball, and only a finished cannonball resets the annoyance (to 0) |
| Entities.IdleIsTheFallback | src/entities.rs:188-196 | outside the cannonball rules, the cat is idle exactly when it is calm, outside the pen, and not scared by a chasing dog |
| Entities.CannonballHoldsCourse | src/entities.rs:243-254 | over ticks totalling less than the remaining clock, a cannonball keeps its state, aim and annoyance, and its clock drops by exactly the elapsed time |
| World.Restart | src/world.rs:75-80 | play resumes with the dog at the pen and freshly generated cats; the level is kept |
| World.NextLevel | src/world.rs:82-90 | on or past the last level only the state changes, to game over; otherwise the next level starts with the dog at its pen and fresh cats |
| World.UpdateStartMenu | src/world.rs:92-96 | Return goes to the instructions, and nothing else changes anything |
| World.UpdateHowToPlay | src/world.rs:98-102 | Return starts play, and nothing else changes anything |
| World.UpdateGameOver | src/world.rs:104-109 | R restarts from the first level with fresh cats; otherwise nothing changes |
| World.KeyAxis | src/world.rs:135-146 | an axis is -1 or +1 exactly when only one of its two keys is held, and 0 when both or neither are |
| World.Heading | src/world.rs:134-149 | the heading is zero exactly when no axis is held, and each component has the sign the held keys give it |
| World.HeadingIsUnit | src/world.rs:147-149 | a held direction is normalised to length 1 |
| World.DogRunsAtMoveSpeed | src/world.rs:157 | whenever a direction is held, the dog runs at exactly 150 |
| World.MoveDog | src/world.rs:134-161 | the dog faces along a non-zero horizontal heading, runs at 150 along the heading, moves by velocity × `dt` (clamped), then takes its blink update |
| World.NoKeysNoMove | src/world.rs:134-161 | with no direction held, a chasing dog at rest inside the level is left exactly as it is |
| World.HitDogDecision | src/entities.rs:190-195 | against a dog just hit, a cat decides as against the chasing dog except that it does not flee (it idles instead) |
| World.PennedDecision | src/world.rs:167-172 | `update_state` answers InPen exactly for a cat that is not in or about to start a cannonball, is calm, and stands in the pen |
| World.Act | src/world.rs:167-183 | each state's step keeps the state, and only a cannonball can change the dog, by hitting a chasing dog |
| World.CatStep | src/world.rs:165-205 | the cat's state is the one `update_state` chose, the dog is unchanged unless a cannonballing cat hits it, and the cat faces along a non-zero horizontal velocity |
| World.CatsTick | src/world.rs:163-207 | each cat comes out InPen exactly when it was penned, the count is the number that did, the dog is unchanged or hit, and in a frame without a hit every cat is exactly its own step against that dog |
| World.CountAllPenned | src/world.rs:207-214 | the penned count equals the number of cats exactly when every cat is in the pen |
| World.PlayFrame | src/world.rs:134-214 | past the key checks: the level and the number of cats are kept, each cat is InPen exactly when it was penned, the score is the penned count, a level not yet won becomes won exactly when that count reaches the level's cat count, a won level stays won, no other state change happens, and the dog is moved and possibly hit |
| World.UpdateRunning | src/world.rs:119-215 | R restarts and Tab calls `next_level`, each ending the frame with nothing else changed; with neither, the frame is played as `World.PlayFrame` states |
| World.PressN | src/world.rs:111-114 | N on the won screen moves to the next level, or ends the game on the last one |
| World.UpdateWonAsWritten | src/world.rs:111-117 | as the code is written: after N on the last level, the game stays over only if some cat has left the pen; with every cat penned it is won again |
| World.NeverGameOverAsWritten | src/world.rs:111-117 | a concrete world (last level, its one cat penned, N pressed) meets every condition under which the as-written frame re-declares the win |
| World.StuckFrame | src/world.rs:111-117 | running the as-written frame on that world gives Won, not GameOver |
| World.UpdateWon | src/world.rs:111-117 | as corrected: N on the last level ends the game and nothing else happens that frame; otherwise the next level, or the same won level, is played as in a running frame |
| World.Update | src/world.rs:65-73 | one frame on whichever screen the game shows, with the corrected `update_won` (see ## Findings): every frame moves as `World.Allowed` permits, so the menus only move forward, play never returns to them and game over only restarts play; N on the last level's won screen ends the game |
| World.PlayNeverReturnsToMenus | src/world.rs:65-73 | over any run of frames that starts in play, every screen is running, won or game over |
| World.PlayOnlyAfterInstructions | src/world.rs:92-102 | a run from the start menu that reaches play passes through the how-to-play screen |
| Game.DefaultNotPenned | src/game.rs:40-58 | empty stats are never "all penned" |
| Game.CountInPenIsMultiplicity | src/game.rs:105-108 | the penned count is the number of InPen states among the cats |
| Game.CountAllInPen | src/game.rs:105-108 | the penned count equals the number of cats exactly when all are in the pen |
| Game.UpdateCatStats | src/game.rs:99-109 | both counts are below 2^32; below that, total is the number of cats, in_pen the number of penned cats, and in_pen ≤ total |
| Game.AllPennedMeansEveryCat | src/game.rs:55-57 | after counting, "all penned" holds exactly when there is a cat and every cat is penned |
| Game.CheckStateChange | src/game.rs:111-138 | in play, a change happens exactly when the level is cleared (all penned or Tab): Victory on the last level, LevelClear before it; elsewhere, Enter asks for play |
| Game.SetupGame | src/game.rs:63-97 | the pen is a 60×60 box at the centre, under the cats, and a round is requested |
| Game.RoundEndsWhenAllPenned | src/game.rs:119-131 | once every cat of a set-up round is penned, the round ends in victory on the last level and in a level clear before it |
| DogSystems.StartRecovery | src/dog.rs:36-39 | after starting recovery the dog is recovering, from zero elapsed time |
| DogSystems.SpawnDog | src/dog.rs:46-75 | a new dog has speed 150 and a paused 0.5 s recovery timer, so it is not recovering; it stands at the position, faces right (flipped), idles, and its bounds are the world centred on the origin |
| DogSystems.DogMovement | src/dog.rs:77-83 | the velocity is the input times the speed, the input not normalised: its squared length is the input's times speed², zero for no input, the dog's speed for a unit input, and each component has the input's sign |
| DogSystems.KeyboardRunsAtSpeed | src/dog.rs:77-83 | with no stick past the dead zone, held keys that do not cancel make the dog run at exactly its speed, each axis the way the keys point |
| DogSystems.DogIntersectsCat | src/dog.rs:85-106 | only a collision on a dog that is not recovering with a cannonballing cat starts recovery and blinking (and the yip); anything else changes nothing |
| DogSystems.HitTakenOnce | src/dog.rs:96-103 | the same collision repeated right after a hit changes nothing |
| DogSystems.TickRecovery | src/dog.rs:108-119 | a recovering dog stays recovering exactly while elapsed + `dt` is below the duration; the tick that ends it stops the blinking |
| DogSystems.StaysRecovered | src/dog.rs:108-119 | a dog that is not recovering stays so, and its blinking is left alone |
| DogSystems.RecoveryLastsItsDuration | src/dog.rs:108-119 | recovery lasts exactly until the timer's remaining time has passed, and ends with the blinking stopped |
| DogSystems.ImmuneForRecoveryTime | src/dog.rs:96-119 | after a cannonball hit the dog is immune for exactly its recovery time |
| DogSystems.DogAnimation | src/dog.rs:121-139 | idle_front at rest and run_front when moving, not restarted when already playing; the sprite flips to face a non-zero horizontal velocity |
| DogSystems.DogAnimationIdempotent | src/dog.rs:121-139 | applying the animation rule twice is applying it once |
| DogSystems.BarkFollowsInput | src/dog.rs:141-152 | with exactly one dog the woof plays exactly when the pad's South button is held or Space was just pressed; with no dog or several, `single` fails and it never plays |
| Physics.Move | src/physics.rs:52 | the translation moves by velocity × `dt` in the plane; z never changes; zero velocity or zero time leaves it |
| Physics.MoveAdds | src/physics.rs:46-54 | moving for `a` then `b` seconds is moving for `a + b` seconds |
| Physics.UpdateMovement | src/physics.rs:46-54 | every body moves by its own velocity, with no clamping; velocities are kept |
| Physics.Circle | src/physics.rs:66-74 | a ball of the radius, with the given groups, as an event-reporting sensor |
| Physics.Rect | src/physics.rs:76-85 | a box stored as half extents that double to the size, with the given groups, as an event-reporting sensor |
| Physics.CatColliderGroups | src/cats.rs:36 | the three groups are disjoint, and a cat's collider hears the dog and the pen but not other cats |
| Input.AxisValue | src/input.rs:55 | an axis is +1 or -1 exactly when only one of its keys is held, 0 when they cancel |
| Input.StickMovement | src/input.rs:37-43 | the stick counts exactly when the first pad reports both axes past the dead zone, and is then taken as it is |
| Input.PastDeadzone | src/input.rs:40 | comparing the stick's length with 0.1 is comparing its square with 0.01 |
| Input.KeysCancel | src/input.rs:53-59 | the keyboard direction is zero exactly when opposing keys cancel on both axes |
| Input.KeyboardMovement | src/input.rs:52-62 | keyboard movement is zero exactly when the keys cancel, and otherwise has length 1 |
| Input.KeyboardKeepsSigns | src/input.rs:53-61 | keyboard movement points the way the held keys say on each axis |
| Input.ReadInput | src/input.rs:29-65 | the stick when it is past the dead zone, otherwise the keyboard; a bark from the pad's South button or Space |
| Input.ReadPlayerInput | src/input.rs:25-71 | every player input gets the same frame input, and none is added or lost |
| Menus.HandleMenuInput | src/ui/menus.rs:72-98 | start menu: Tab to credits, otherwise Enter to instructions; credits: Tab or Enter back; instructions: Enter to play; loading and playing: no change |
| Menus.MenuReachability | src/ui/menus.rs:72-98 | only Enter on the instructions starts play, no key means no change, loading is never requested, and no screen requests itself |
| Menus.PlayingOnlyThroughHowToPlay | src/ui/menus.rs:91-95 | any run of frames that reaches play passed through the instructions with Enter pressed |
| Menus.TwoEntersStartTheGame | src/ui/menus.rs:79-95 | Enter twice from the start menu starts play |
| Hud.UpdateNextLevelPrompt | src/ui/hud.rs:172-207 | unchanged state leaves both prompts; otherwise the next-level prompt shows on a level clear, the victory prompt on victory, and neither otherwise |
| Hud.PromptsExclusive | src/ui/hud.rs:181-206 | after a change of state the two prompts are never both shown, and during play neither is |
| Hud.Pad2 | src/ui/hud.rs:168 | `{:02}` pads on the left with zeros to at least two characters, keeping the digits |
| Hud.InitialTrackerIsEmptyCount | src/ui/hud.rs:63 | the initial tracker text "00/00" is the text of empty stats |
| Hud.TrackerRoundTrip | src/ui/hud.rs:168 | the tracker text reads back as the penned count and the total |
| Hud.UpdateCatTracker | src/ui/hud.rs:159-170 | unchanged stats leave the trackers; otherwise every tracker shows both counts |
| Hud.TrackerWidth | src/ui/hud.rs:168 | with counts up to 99 the tracker is five characters |
| Utils.Toggle | src/utils.rs:32-35 | the flip never gives Inherited, and gives Visible exactly from Hidden |
| Utils.ToggleTwice | src/utils.rs:32-35 | two flips give back Visible and Hidden, and turn Inherited into Visible |
| Utils.UpdateBlinkVisibility | src/utils.rs:25-38 | visibility changes only on a frame where the blink timer just finished |
| Utils.BlinkParity | src/utils.rs:25-38 | over a run of frames, the entity is hidden exactly when the parity of the flips and the start disagree |
| Party.KindOf | src/party.rs:19-27 | draw 0 is a basic cat, 1 a fat cat, anything else a kitten |
| Party.SpinRate | src/party.rs:57-61 | 180, 90 and 360 degrees per second for basic, fat and kitten |
| Party.SpinOrder | src/party.rs:57-61 | the kitten spins fastest and the fat cat slowest |
| Party.NewItem | src/party.rs:38-53 | a new item has rotation in [0,359), x in [0,800) and y in [-700,0) |
| Party.UpdateItem | src/party.rs:55-75 | an item spins and falls by 60 × `dt`; past 650 it restarts at -50 with a fresh x and rotation, otherwise x is kept |
| Party.ItemStaysInField | src/party.rs:38-75 | new items are in the field, and updates keep them there |
| Party.NewParty | src/party.rs:83-92 | sixty new items |
| Party.UpdateParty | src/party.rs:94-98 | every item updates; none is added or lost |
| Party.PartyStaysInField | src/party.rs:94-98 | the whole party stays in the field, kind by kind |
| PartyUi.SpinRate | src/ui/party.rs:117-121 | 180, 360 and 90 degrees per second for basic, kitten and chonk |
| PartyUi.SpawnCat | src/ui/party.rs:57-62 | cat `i` has depth 100 + i, an angle in [0,360), x across the world and y above it |
| PartyUi.SpawnParty | src/ui/party.rs:57-91 | sixty cats in the sky, each drawn over the ones before it |
| PartyUi.UpdateCat | src/ui/party.rs:115-135 | a cat spins clockwise by its rate and falls 30 × `dt`; below the world it restarts above it with a fresh angle and x, otherwise x is kept; kind and depth never change |
| PartyUi.CatStaysInSky | src/ui/party.rs:125-135 | a cat in the sky stays there |
| PartyUi.UpdateCats | src/ui/party.rs:110-137 | every cat updates, keeping its kind and depth |
| PartyUi.StackOrderKept | src/ui/party.rs:110-137 | the depth order set at spawn survives updates |

## Left out

- Rendering, layout, sprites, asset loading, audio, window and logging code is not modelled: it is drawing and engine calls. This includes the cats' meows (src/world.rs:185-196) and the dog's woof (src/world.rs:128-130).
- `GameWorld::new` and the `cat_box` accessor are not modelled. The level module (`Level`, `MAX_LEVEL`, `Level::new`, `next_level`, `generate_cats`) is not part of this model, so what those calls produce comes in as a `LevelSource`.
- `Dog::try_move` is not part of this model. The dog's move uses the same clamp as `Cat::try_move`.
- `src/world.rs` calls `cat.idle` with the pen as an extra argument and reads `meow_time`; neither exists in `src/entities.rs`. The model follows `src/entities.rs`.
- Annoyance has no upper clamp, following the code: `src/entities.rs:293-298` raises it without a ceiling and starts the jitter at the threshold, and `src/entities.rs:286-291` only floors it at 0 when calming. A description of annoyance as clamped to [0, 1] does not match this code.
- The newer game's cat behaviour module is not part of this model. Its systems see a cat only as in the pen, cannonballing or elsewhere.
- `WORLD_SIZE` is not defined in any modelled file, so the party takes the world size as a parameter.
- The `MovementBounds` type is not defined in `src/physics.rs`. The dog keeps its bounds as two vectors, and no system applies them.
- Quaternions are not modelled: rotation is an angle in degrees, not reduced modulo 360.
- Random colours, the item `flip` flag's distribution and the party dog are not modelled. Only the flag itself is kept.
- The trigonometric random-walk vector is a draw of length `rwRadius`. cgmath's normalisation of the zero vector is undefined.
  - `World.SampleFits` requires a fleeing cat not to stand exactly on the dog.
  - `World.DrawsFit` requires a cat about to aim not to aim at the zero vector.
- `World.MoveDog`'s contract leaves the squared speed to `World.DogRunsAtMoveSpeed`. Stating it there too would burden every proof that mentions the dog's move.
- `World.CatStep` states the cat's state, facing and the dog. The effect of each step on position, velocity, annoyance and clocks is stated by the step functions (`Entities.IdleStep` and the rest).
- `World.UpdateRunning` states nothing about the cats' positions.
- World.CatsTick: ties each cat to its own step only in a frame without a hit. After a hit, the later cats step against the hit dog, which `World.HitDogDecision` relates to the chasing dog.
- World.Update: dispatches the won screen to the corrected `World.UpdateWon`, not to the code as written (see ## Findings). `World.UpdateWonAsWritten` models the won frame as written.
- `World.UpdateWon` states the outcome for N on the last level, N before it, no key, and R. For Tab it states only that play continues between running, won and game over.
- `cats_scored` is a `u32` in the game and a `nat` here. It never exceeds the number of cats.
- `DogSystems.SpawnDog`: the `Blink` component is modelled as an on/off flag. `Blink::from_seconds` is called with two arguments in `src/dog.rs` but defined with one in `src/utils.rs`, and its timer is the engine's.
- `Input.StickMovement`: the source compares the stick's length with 0.1, and the model compares squares instead. `Input.PastDeadzone` proves the two tests agree.
- Bevy's change detection (`is_changed`) and "timer just finished" are inputs.
- The physics engine's collision detection is an input. A collision is a flag plus what was hit.

## Findings

| source | as written | input that shows it | evidently intended | confidence | as-written member | corrected member |
|---|---|---|---|---|---|---|
| src/world.rs:111-117 | On the won screen, N calls `next_level`. On the last level that sets GameOver, but `update_running` then runs in the same frame. If every cat is still penned, its win check (`game_state != Won` now holds) declares the level Won again. So N on the last level never reaches the game-over screen, while Tab in the same place does. | A won world on level 3 of 3 with its one cat resting in the pen, N pressed, no other key, the dog standing still | N on the last level ends the game: the game-over screen is shown, as for Tab | high for the model, not executed | World.UpdateWonAsWritten | World.UpdateWon |
