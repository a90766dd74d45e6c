# Flappy Bird: a verified model of the per-frame simulation

This project models the game logic of a small Flappy Bird clone written in Java
on jMonkeyEngine. It keeps the game's own entities and drops the scene graph.

- **Faby** is the player. Its velocity and position follow a simple gravity
  rule, it rests on the ground at height 62, and it shows one of three
  animation sprites.
- **Barriers** are a field of 100 pipe pairs. Barrier i starts at
  x = 600 + 200 i and scrolls 3 units left per playing frame. The height of
  its gap comes from one random draw.
- The **background** and the **base** are two rows of tiles that wrap around
  as they scroll.
- The **score display** is two places of ten digit sprites.
- The **game** (`FlappyBird`) holds the state machine Ready → Playing → Dead,
  the jump input, and the per-frame update. The update runs in a fixed order:
  Faby, the barriers, the background, the base and the score display tick;
  then the collision pass, the score sound and the screens.

Each class whose fields the game changes in place is a Dafny `class`:
`Faby`, `Barrier`, `TileLayer`, `ScoreDisplay` and `FlappyBird`. The per-frame
methods are proved against specification functions (`Advance`, `StateAfter`,
`NextFlap`, `HitsAny`, `CountPassed`, `ScoreAt`, `Row`). Properties of those
functions are proved as lemmas.

Modules, one per file:

| module | file | contents |
|---|---|---|
| `Common` | common.dfy | game state, screen centre (320, 240), boxes and their overlap test |
| `Barriers` | barriers.dfy | barrier placement, pipes, the field's positions after f frames |
| `Player` | player.dfy | Faby's physics, ground clamp, animation frame, collision |
| `Scoring` | scoring.dfy | digit selection of the score display |
| `Scrolling` | scrolling.dfy | the wrap-around tile layers |
| `Game` | game.dfy | the game: construction, frame update, jump input, score |

Notes on representation:

- The game state is the datatype `GameState` instead of the strings
  "ready", "playing" and "dead".
- A component reads the game's state; here the state is passed in as a
  parameter. Faby's tick writes the game's state on ground contact; here it
  returns the new state and the game stores it.
- The random draw of each barrier is a constructor parameter in [0, 1).
- Sprite visibility (cull hints) becomes values:
  - Faby's shown sprite is the `Flap` datatype. `AllShown` is the state
    before the first tick, when no sprite has been hidden yet.
  - The digit sprites are two `array<bool>`.
  - The two screens are two booleans.
- The sounds played in a frame are returned as counts (`Sounds`).
- Scene-node translations that the collision test reads are fields:
  `nodeX` and `nodeY` of Faby and of each barrier.
- Positions and velocities of Faby are `real`. Barrier x positions and tile
  offsets are `int`. In the source they are `float` values that stay whole
  numbers; for barrier x this is exact only up to 2^24 in magnitude (see
  "## Left out").

## Model

| member | source | states |
|---|---|---|
| Common.OverlapIffSharedPoint | src/main/java/Faby.java:139 | the four-inequality overlap test holds exactly when some point lies strictly inside both boxes |
| Common.OverlapSymmetric | src/main/java/Faby.java:139 | the overlap test does not depend on which box is Faby's |
| Barriers.InitialX | src/main/java/Barrier.java:62 | a barrier is created at 600 + 200 * index, never left of 600 |
| Barriers.InitialY | src/main/java/Barrier.java:50-56 | the lower pipe's y is centreY − 370 + (r − 0.5) * 200, so it lies in [centreY − 470, centreY − 270) |
| Barriers.PipesAt | src/main/java/Barrier.java:40-45 | a barrier has two 52 × 320 pipes at the same x; the upper one sits 420 above, leaving a 100-unit gap |
| Barriers.FieldSpacing | src/main/java/Barrier.java:62-68 | after any number of playing frames, barriers j > i are exactly 200 * (j − i) apart, so the field stays sorted by index |
| Barriers.Barrier.constructor | src/main/java/Barrier.java:29-63 | a new barrier has x = 600 + 200 * index and y from the draw; its node is still at the origin |
| Barriers.Barrier.Tick | src/main/java/Barrier.java:65-73 | x drops by exactly 3 when playing and is unchanged otherwise; the node moves to (x, y); y is a constant |
| Player.NextFlap | src/main/java/Faby.java:72-86 | from the velocity before physics: below −1 upflap, strictly between −1 and 1 midflap, above 1 downflap, in each case only that sprite; at exactly ±1 the shown sprite is kept |
| Player.Advance | src/main/java/Faby.java:89-103 | after physics and the ground clamp the position is at least 62, and the motion is either the integrated one or rest on the ground |
| Player.StateAfter | src/main/java/Faby.java:99-103 | Faby's tick either keeps the state or makes it Dead |
| Player.PhysicsStep | src/main/java/Faby.java:89-103 | in Ready nothing moves; in Playing and Dead the velocity drops by 0.35 and then the position moves by the new velocity, unless that goes below 62, which clamps to (0, 62) and kills |
| Player.RestIsFixedPoint | src/main/java/Faby.java:89-103 | a dead Faby resting at 62 with velocity 0 stays there for one more tick |
| Player.RestIsAbsorbing | src/main/java/Faby.java:89-103 | a dead Faby at rest on the ground stays dead and at rest for any number of ticks |
| Player.DeadStaysDead | src/main/java/Faby.java:89-103 | from Dead, Faby's ticks never leave Dead and keep it at or above the ground |
| Player.GapIsSafe | src/main/java/Faby.java:133-145 | a Faby box that lies within a barrier's 100-unit gap touches neither pipe |
| Player.ClearOfColumnIsSafe | src/main/java/Faby.java:133-145 | a Faby box horizontally clear of the 52-wide pipe column touches neither pipe |
| Player.OutsideGapHits | src/main/java/Faby.java:133-145 | inside the pipe column, a Faby box reaching below or above the gap (within the pipes' extent) hits a pipe |
| Player.Faby.constructor | src/main/java/Faby.java:36-63 | Faby starts at position centreY = 240 with velocity 0, all three sprites shown, node at the origin |
| Player.Faby.Tick | src/main/java/Faby.java:66-114 | the sprite follows NextFlap of the old velocity; the motion becomes Advance of the old one and the returned state StateAfter; the node moves to (centreX − 18, position); position stays at least 62 |
| Player.Faby.Jump | src/main/java/Faby.java:119-121 | the velocity becomes exactly 5 whatever it was |
| Player.Faby.Intersects | src/main/java/Faby.java:133-145 | the result is true exactly when Faby's 34 × 24 box at its node overlaps one of the barrier's two pipe boxes |
| Scoring.ShownCountOfRow | src/main/java/Score.java:66-78 | selecting digit d in a row of n sprites shows exactly one sprite when 0 <= d < n and none otherwise |
| Scoring.ReadingOfRow | src/main/java/Score.java:66-78 | a row selecting digit d reads back as d, or as no digit when d is out of range |
| Scoring.ShownSprites | src/main/java/Score.java:66-78 | for any score exactly one ones sprite is shown and at most one tens sprite, none exactly when the score is at least 100 |
| Scoring.DisplayReadsBack | src/main/java/Score.java:66-78 | below 100 the two places read back as the score; from 100 on the tens place is empty and the ones place reads score % 10 |
| Scoring.ScoreDisplay.constructor | src/main/java/Score.java:34-48 | only the two "0" sprites are shown at first |
| Scoring.ScoreDisplay.Tick | src/main/java/Score.java:64-79 | tens sprite i is shown exactly when score / 10 == i and ones sprite i exactly when score % 10 == i; nothing but the sprites changes |
| Scrolling.TileLayer.Background | src/main/java/Background.java:28-46 | four 288-wide tiles at 0, 288, 576, 864, moving 1 per frame, with the layer invariant established |
| Scrolling.TileLayer.Base | src/main/java/Base.java:23-42 | three 336-wide tiles at 0, 336, 672, moving 3 per frame, in a layer BaseDrop = 50 below the origin; the same BaseHeight − BaseDrop = 62 is Faby's ground |
| Scrolling.TileLayer.WrapStep | src/main/java/Background.java:51-58 | one move-and-wrap takes a tile offset in [−width, width * (count − 1)] into [−width, width * (count − 1)), moving it by −speed up to one whole row length |
| Scrolling.TileLayer.Tick | src/main/java/Background.java:48-59 | in Playing every tile moves left by the speed and one past −width jumps forward by the row length; in other states no tile moves; offsets stay in [−width, width * (count − 1)], and strictly below the top once the layer has moved; the same code is src/main/java/Base.java:44-55 |
| Scrolling.TileLayer.Shift | src/main/java/Background.java:52-57 | each tile in turn becomes Wrap of its old offset, ends in [−width, width * (count − 1)), and its count of wraps keeps it at width * i minus the distance scrolled plus whole row lengths; the same loop is src/main/java/Base.java:48-53 |
| Scrolling.LayerPhase | src/main/java/Background.java:37-58 | after f playing frames tile i is at width * i − speed * f modulo the row length |
| Scrolling.LayerPosition | src/main/java/Background.java:37-58 | once the layer has moved, tile i is exactly width * i − speed * f brought into [−width, width * (count − 1)), so the frame count fixes every tile |
| Scrolling.BackgroundPhase | src/main/java/Background.java:37-58 | background tile i is at 288 * i − f modulo 1152, so the tiles stay 288 apart modulo 1152; after f > 0 frames it is exactly (288 * (i + 1) − f) % 1152 − 288 |
| Scrolling.BasePhase | src/main/java/Base.java:35-54 | base tile i is at 336 * i − 3 * f modulo 1008; after f > 0 frames it is exactly (336 * (i + 1) − 3 * f) % 1008 − 336 |
| Game.CountPassed | src/main/java/FlappyBird.java:274-282 | the score is a count of barriers, so it never exceeds the number of barriers (100) |
| Game.CountPassedIsCardinality | src/main/java/FlappyBird.java:274-282 | the count equals the size of the set of barriers whose x is below centreX − 52 |
| Game.CountPassedAntitone | src/main/java/FlappyBird.java:274-282 | moving barriers left never lowers the count |
| Game.PassedByMeaning | src/main/java/FlappyBird.java:274-282 | after f frames barrier i is past the score line exactly when i is below the closed form PassedBy(f) |
| Game.CountPassedPrefix | src/main/java/FlappyBird.java:274-282 | the first n barriers after f frames hold min(n, PassedBy(f)) passed ones |
| Game.ScoreAfter | src/main/java/FlappyBird.java:274-282 | the count over the field after f frames equals the closed form ScoreAt(f) |
| Game.ScoreStep | src/main/java/FlappyBird.java:190-193 | from one frame to the next the score rises by 0 or 1, so the score sound plays at most once per frame and each barrier raises the score once |
| Game.FirstPoint | src/main/java/FlappyBird.java:274-282 | the first point comes on playing frame 111, when barrier 0 is at 267 < 268 |
| Game.ScoreMonotone | src/main/java/FlappyBird.java:274-282 | the score never decreases over playing frames |
| Game.FlappyBird.constructor | src/main/java/FlappyBird.java:107-157 | the state is Ready and the score 0; Faby is at rest with all three sprites shown and its node at (centreX − 17, centreY); barrier i is at 600 + 200 * i with its drawn y and its node at the origin; both screens are shown; the background node is at y 0 and the base node at −BaseDrop; Faby, the layers, their tiles, the display, its digits and every barrier are newly allocated, so a caller may run OnAction and Update on the new game; the game invariant holds |
| Game.FlappyBird.NewFaby | src/main/java/FlappyBird.java:122-126 | creates Faby at rest at centreY with all sprites shown and places its node half its width left of the screen's centre |
| Game.FlappyBird.NewScenery | src/main/java/FlappyBird.java:144-150 | creates the background, the base and the score display, distinct and each in its initial state, the base node at −BaseDrop |
| Game.FlappyBird.NewField | src/main/java/FlappyBird.java:129-131 | creates 100 fresh barriers, barrier i at 600 + 200 * i with y from draw i and its node at the origin |
| Game.FlappyBird.Score | src/main/java/FlappyBird.java:274-282 | the loop's count equals CountPassed of the barriers' x positions |
| Game.FlappyBird.TickBarriers | src/main/java/FlappyBird.java:172-174 | every barrier moves by −3 when playing and not at all otherwise, and its node follows |
| Game.FlappyBird.CheckCollisions | src/main/java/FlappyBird.java:181-187 | the state becomes Dead exactly when it was Dead or Faby overlaps some barrier; "hit" and "die" play once, only when a barrier is hit and the state was not yet Dead |
| Game.FlappyBird.Scroll | src/main/java/FlappyBird.java:172-177 | barriers, background and base scroll together: the field is at 600 + 200 * i − 3 * f and both layers at f frames, f growing by one per playing frame; with LayerPosition this fixes every tile |
| Game.FlappyBird.TickWorld | src/main/java/FlappyBird.java:170-177 | Faby's tick decides the state the barriers and layers then tick in; Faby's motion, sprite and node follow its tick; the field and the layers are at the new frame count, which fixes every barrier and tile |
| Game.FlappyBird.Referee | src/main/java/FlappyBird.java:178-207 | the display shows the score; collisions kill; the score sound plays exactly when the score rose; the last score is updated; the game-over screen is shown exactly in Dead and the start screen exactly in Ready |
| Game.FlappyBird.ShowScore | src/main/java/FlappyBird.java:178 | the display shows score(), which after f frames is ScoreAt(f) |
| Game.FlappyBird.NoCrashBeforeStart | src/main/java/FlappyBird.java:181-187 | before the game starts no barrier can be hit: all are at least 600 right of the origin, and Faby's box ends at 336 |
| Game.FlappyBird.Judge | src/main/java/FlappyBird.java:181-207 | after the display's tick: collisions kill and sound "hit" and "die" once, only when not yet Dead; the score sound plays exactly when the count exceeds the last score, which then becomes the count; the screens follow the state; the game invariant holds |
| Game.FlappyBird.Update | src/main/java/FlappyBird.java:164-208 | one frame in the source's order: the game invariant is kept, so the field and every tile are at the positions the frame count fixes; collisions see the moved positions; Dead is never left; the score rises by at most one; in Ready nothing sounds and the state stays Ready |
| Game.FlappyBird.OnAction | src/main/java/FlappyBird.java:255-265 | a "Jump" press in Ready starts the game and jumps in the same call; a press while playing jumps; releases, other actions and presses in Dead change neither the state nor the velocity |

## Left out

- Asset loading, the camera, the scene graph and `main` are library I/O. Only the numbers they produce are kept: sizes, initial positions and counts.
- Sound playback becomes the `Sounds` counts a frame returns. The "flap" sound is loaded but never played, so it has no count.
- Input mapping is left out. The input is the `OnAction(name, isPressed)` call.
- Faby's sprite rotation (velocity * 0.05) is cosmetic and goes through a quaternion API.
- Floating point: Faby's position and velocity and each barrier's y position are `real`, so `float` rounding is not modelled. Tile offsets stay within a few hundred units, so their `float` values are exact.
- Barrier x positions are `int`, and FieldAt's 600 + 200 * i − 3 * f follows them for ever. The source's `float` subtraction of 3 is exact only while |x| <= 2^24. Barrier 0 is the first to leave that range, at playing frame 5,592,607, where −16777221 rounds to −16777220. From about frame 18.2 million its x stays at −2^26. From the first of these frames on, the model's barrier positions, and the claim in the Scroll, TickWorld and Update rows that the frame count fixes every barrier, no longer describe the source. Nothing observable depends on it: by then the score is 100 and no pipe is within reach of Faby's box.
- Barriers.InitialY: its upper bound centreY − 270 is strict, as for real arithmetic. In the source the `float` cast of (r − 0.5) * 200 rounds to 100.0 for a draw within about 2e-8 of 1, so the y position can equal centreY − 270.
- Z-layers are draw order only. The start and game-over screens' x/y positions (src/main/java/FlappyBird.java:136 and :141) are fixed render positions that no game logic reads.
- `Math.random()` is replaced by a draw parameter in [0, 1) per barrier.
- The frame time `tpf` is unused by the game logic.
- The source calls `score()` 22 times per frame: twice in each of the ten steps of the display's tick (src/main/java/Score.java:67 and :73), and twice after the collision pass (src/main/java/FlappyBird.java:190 and :193). Nothing moves in between, so the model counts once and uses that value throughout.
- Behaviour once all 100 barriers have passed: the field simply scrolls on. The score stays at 100, and the display then shows no tens digit.
- The sprite choice at velocity exactly ±1 keeps the previously shown sprite. This is what the code does; its comment lists only the three ranges.
- The ground test runs in every state, including Ready. Faby is at 240 in Ready, so it never fires there.
- Before the first frame all three of Faby's sprites and both screens are shown, because nothing has hidden them yet.
