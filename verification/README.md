# Dino runner core, modelled in Dafny

This project models the game logic of a browser endless runner in the style of the
Chrome dinosaur game (kaigg96/Coding-Ed-Venture). A player jumps over obstacles that
scroll in from the right. The ground scrolls beneath. A score grows with elapsed time,
and the best score is kept in browser storage. Once the score reaches 25 a cutscene
plays and adds new obstacle kinds.

One module per component:

| module | file | models |
|---|---|---|
| `Obstacles` | `obstacles.dfy` | one obstacle (`obstacle.js`): leftward movement and the forgiving bounding-box collision test |
| `ObstacleControllers` | `obstacle_controller.dfy` | the spawner (`obstacleController.js`): random spawn countdown, spawning, moving, filtering, collision, reset |
| `Grounds` | `ground.dfy` | the scrolling ground strip (`ground.js`) and the x-wrap done while drawing |
| `Players` | `player.dfy` | the player (`player.js` and `inheritance/player.js`): the jump state machine, keys, run animation |
| `Scores` | `score.dfy` | the score and the stored high score (`inheritance/score.js`) |
| `Game` | `game.dfy` | the module-level game loop of `index.js`: speed, game over, restart arming, cutscene, reset, scale ratio, obstacle configuration |

How the model is built:

- Each object whose fields change in place is a Dafny `class`, and its methods have `modifies` frames.
- Each such method is proved equal to a pure step function over a value snapshot of the object:
  - `Players.JumpStep` for `jump`;
  - `Players.RunStep` for `run`;
  - `ObstacleControllers.Survivors` and `Moved` for the obstacle update;
  - `Game.Tick` for `gameLoop`;
  - `Game.NewRound` for `reset`.
- The lemmas about those functions carry the game's properties, both per frame and over whole sessions.

Notes on the two copies:

- `inheritance/obstacleController.js` and `inheritance/ground.js` differ from the root copies only in their comments. One model covers both: `ObstacleControllers` and `Grounds`.
- The two players differ only in the run animation:
  - `Players.Variant.TwoFrameToggle` is `player.js`, which toggles between two run images and shows the standing image while the key is held.
  - `ThreeFrameCycle` is `inheritance/player.js`, which cycles an index modulo 3 and shows a jumping image.
- `inheritance/obstacle.js` is not part of this model. The obstacle model follows `obstacle.js`.

Behaviour of the code worth noting:

- The comment above `updateGameSpeed` (index.js:185) says the cutscene starts at a score of 250, but `CUTSCENE_INIT_SCORE` is 25 (index.js:27). The model follows the code: `Game.CutsceneInitScore` is 25.
- The ground wraps only when `x < -width`. An offset of exactly `-width` is kept, so the offset ranges over `[-width, 0]` (`Grounds.Wrapped`).
- `reset` clears the obstacle list but keeps the spawn countdown (`ObstacleControllers.ObstacleController.Reset`).
- A cutscene frame runs for every frame while `isCutscenePlaying` holds, until the next reset. Each such frame appends both cutscene images to the obstacle configuration again and rebuilds the controller (`Game.TickCutsceneCatalog`). The configuration therefore grows by two entries per cutscene frame.
- Every catalog entry gets the fixed design size 50 × 75 times the scale ratio, whatever width and height its configuration entry holds.

Abstractions:

- `Math.random()` becomes an input `draw` in `[0, 1)`.
- A key event becomes its `code` string.
- `localStorage` becomes an integer field holding the stored best score. An empty store reads as 0.
- The game loop does not hold the component objects. A frame (`Game.Tick`) takes two inputs:
  - the current time;
  - the two answers it needs from the components: the score `getScore` returns, and whether `collideWith` found a hit.

  It returns, in order, the component updates and resets, high-score recording, restart arming and controller rebuilds it makes (`Game.Effect`). The per-frame `draw` calls (including `ground.draw`, whose wrap is modelled separately as `Grounds.Ground.Draw`), `clearScreen` and `requestAnimationFrame` are not listed. Arming the restart listener after a timeout is the effect `ArmRestart(delay)`. The key release that calls `reset` is the input `RestartKey`, including the listener installed at start-up.
- Numbers are modelled as mathematical reals. `Math.floor` is `.Floor`.

## Model

| member | source | states |
|---|---|---|
| Obstacles.Obstacle.constructor | obstacle.js:14-22 | the new obstacle holds exactly the given position, size and image |
| Obstacles.Obstacle.Update | obstacle.js:31-34 | x decreases by speed × gameSpeed × frameTimeDelta × scaleRatio; nothing else changes; with non-negative factors x never grows |
| Obstacles.Displacement | obstacle.js:33 | the per-frame displacement is non-negative when all four factors are |
| Obstacles.EventuallyLeaves | obstacle.js:31-34 | with a positive per-frame displacement, some finite number of frames brings any obstacle fully past the left edge |
| Obstacles.Obstacle.CollideWith | obstacle.js:52-63 | this obstacle hits the sprite iff its current box and the sprite's, each shrunk by 1.25 from the top-left corner, overlap strictly on both the x and the y axis |
| Obstacles.OverlapIsShrunkIntersection | obstacle.js:52-63 | the collision test holds iff both boxes, shrunk by 1.25 from their top-left corner, overlap on both the x and the y axis |
| Obstacles.OverlapSymmetric | obstacle.js:52-63 | swapping obstacle and sprite does not change the answer |
| Obstacles.SeparatedOnXMisses | obstacle.js:54-55 | boxes whose shrunk x extents are disjoint never collide |
| Obstacles.SeparatedOnYMisses | obstacle.js:56-57 | boxes whose shrunk y extents are disjoint never collide |
| Obstacles.Shrunk | obstacle.js:53-57 | the shrunk box keeps its corner and is no larger than the original |
| ObstacleControllers.RandomNumber | obstacleController.js:27-29 | `floor(draw·(max−min+1)+min)` lies in [min, max] for every draw in [0,1) |
| ObstacleControllers.RandomNumberReachesEvery | obstacleController.js:27-29 | every integer in [min, max] is produced by some draw |
| ObstacleControllers.ObstacleController.constructor | obstacleController.js:11-19 | fields as given, no obstacles, countdown drawn from [500, 2000] |
| ObstacleControllers.ObstacleController.SetNextObstacleTime | obstacleController.js:21-24 | the countdown becomes a random integer in [500, 2000] |
| ObstacleControllers.ObstacleController.CreateObstacle | obstacleController.js:31-47 | appends one fresh obstacle of a randomly chosen catalog kind at x = 1.5 × canvas width, resting on the canvas bottom; the earlier obstacles are unchanged |
| ObstacleControllers.ObstacleController.Update | obstacleController.js:49-61 | spawns (and redraws the countdown) exactly when the countdown is ≤ 0; the countdown drops by frameTimeDelta; the new list is the old list plus the spawn, each moved left by one displacement, with those no longer on screen removed, in order |
| ObstacleControllers.ObstacleController.MoveAll | obstacleController.js:56-58 | every live obstacle moves left by the same displacement, in place |
| ObstacleControllers.ObstacleController.RemovePassed | obstacleController.js:60 | keeps exactly the obstacles with x > −width, in order |
| ObstacleControllers.ObstacleController.CollideWith | obstacleController.js:67-69 | true iff some live obstacle passes the collision test; false with no obstacles |
| ObstacleControllers.ObstacleController.Reset | obstacleController.js:72-74 | removes every obstacle and keeps the countdown |
| ObstacleControllers.AnyCollides | obstacleController.js:68 | `some` over the list is true iff one element collides |
| ObstacleControllers.Survivors | obstacleController.js:60 | the filter keeps exactly the on-screen obstacles (as a set), never more than it was given |
| ObstacleControllers.SurvivorsCount | obstacleController.js:60 | the filter keeps each on-screen obstacle as many times as it occurs in the input, and no off-screen one |
| ObstacleControllers.SurvivorsKeepOrder | obstacleController.js:60 | the filter result is a subsequence of its input, so spawn order is preserved |
| ObstacleControllers.SurvivorsAppend | obstacleController.js:60 | filtering distributes over concatenation |
| ObstacleControllers.FrameCount | obstacleController.js:49-61 | one frame adds at most one obstacle to the live count |
| ObstacleControllers.SurvivorsWereOnScreen | obstacleController.js:56-60 | an obstacle already off screen does not survive another frame of non-negative movement |
| ObstacleControllers.Visible | obstacleController.js:60 | the filter on objects returns only objects of its input |
| ObstacleControllers.VisibleViews | obstacleController.js:60 | filtering the objects agrees with filtering their values |
| ObstacleControllers.VisibleDistinct | obstacleController.js:60 | filtering keeps the obstacle objects distinct |
| Grounds.Ground.constructor | ground.js:2-15 | x starts at 0 and y puts the strip on the canvas bottom |
| Grounds.Ground.Update | ground.js:41-43 | x decreases by gameSpeed × frameTimeDelta × speed × scaleRatio |
| Grounds.Ground.Draw | ground.js:18-38 | the two tiles are drawn at x and x + width; x is reset to 0 exactly when it is below −width |
| Grounds.Wrapped | ground.js:35-37 | the wrap returns 0 or keeps x; the result is never below −width; from x ≤ 0 it stays in [−width, 0] |
| Grounds.ScrollThenWrapStaysInTile | ground.js:35-43 | from an offset in [−width, 0], a forward scroll followed by the wrap keeps it in [−width, 0] |
| Grounds.Ground.Reset | ground.js:46-48 | x returns to 0 |
| Players.Player.constructor | player.js:13-42 | x = 10·scaleRatio, y = yStandingPos = canvas height − height − 1.5·scaleRatio, all flags clear, timer full, first image; the start state is well placed and sane |
| Players.Player.KeyDown | player.js:44-48 | a Space key-down sets the jump key; any other key leaves it |
| Players.Player.KeyUp | player.js:50-54 | a Space key-up clears the jump key; any other key leaves it |
| Players.Player.Update | player.js:56-62 | runs the animation, then shows the jump pose while the key is held, then takes one jump step; keeps the run index in range and the timer at most full |
| Players.Player.Jump | player.js:64-88 | the imperative jump equals `JumpStep` |
| Players.Player.Run | player.js:90-100 | the imperative run equals `RunStep` for either variant |
| Players.AscentStep | player.js:64-75 | a player pressing or mid-jump and not falling rises by 0.6·scaleRatio·dt while under the threshold, and otherwise starts falling without moving |
| Players.MinimumHeightIsMandatory | player.js:71-72 | below the minimum jump height the ascent continues even after the key is released |
| Players.DescentStep | player.js:77-82 | a descending step moves down by 0.4·scaleRatio·dt, and snaps to the standing position exactly when that would put the feet below the canvas bottom; the feet never end below it; jumpInProgress becomes pressed-or-in-progress |
| Players.LandingStep | player.js:83-86 | at or below the standing position a non-rising player clears both jump flags |
| Players.IdleStep | player.js:64-88 | a player at rest with the key up does not move |
| Players.JumpStepKeepsSane | player.js:64-88 | one step keeps the feet on the canvas and falling only during a jump |
| Players.JumpRunKeepsSane | player.js:44-88 | over any run of key changes and frames, the feet stay on the canvas and falling happens only during a jump |
| Players.IdleRunStaysIdle | player.js:44-88 | a player at rest who never presses the key stays at rest |
| Players.RunStepTimer | player.js:90-100 | the timer refills to 200 exactly when it has run out, then drops by gameSpeed × dt, never above 200 |
| Players.RunStepKeepsImageWhileTimerRuns | player.js:91-98 | the run image changes only when the timer has run out |
| Players.ToggleAlternates | player.js:92-96 | the two-image toggle shows a run image, alternates the two, and returns after two advances |
| Players.CycleAdvances | inheritance/player.js:129-136 | the three-image cycle keeps its index in range, advances it by one modulo 3, shows the image at that index, and returns after three advances |
| Scores.Score.constructor | inheritance/score.js:5-17 | the score starts at 0 with the given stored best |
| Scores.Score.Update | inheritance/score.js:23-25 | the score grows by 0.01 per millisecond, and never shrinks for a non-negative delta |
| Scores.Score.Reset | inheritance/score.js:28-30 | the score returns to 0 |
| Scores.Score.SetHighScore | inheritance/score.js:33-38 | the stored best becomes the floor of the score only if the score beats it; it never decreases |
| Scores.HighScoreAfter | inheritance/score.js:33-38 | the new stored best is the maximum of the old one and the floored score, and changes only when the score is strictly greater |
| Scores.Score.GetScore | inheritance/score.js:40-42 | returns the current score |
| Scores.Accumulated | inheritance/score.js:23-25 | over any sequence of non-negative frame deltas the score does not decrease |
| Game.ScaleRatio | index.js:125-135 | the ratio is positive, is the smaller of the two fits, makes the 800 × 200 design area fit the viewport, and fills it along one axis |
| Game.QuotientBelow | index.js:130 | comparing the aspect ratio with 4 is comparing the width with 4 × the height |
| Game.GameSession.constructor | index.js:29-47 | the initial state: no clock, speed 1, waiting to start, no flags, one configured obstacle kind |
| Game.GameSession.UpdateGameSpeed | index.js:188-197 | equals the speed step `SpeedStep` |
| Game.GameSession.SetupGameReset | index.js:152-159 | equals `ArmOnce`: arms the restart listener only if it is not armed |
| Game.GameSession.AddObstacle | index.js:216-221 | appends one 50 × 75 configuration entry per image, in order |
| Game.GameSession.UpdateComponents | index.js:241-248 | equals the running block of the loop |
| Game.GameSession.EndOnCollision | index.js:250-254 | equals the collision block of the loop |
| Game.GameSession.PlayCutscene | index.js:256-261 | equals the cutscene block of the loop |
| Game.GameSession.GameLoop | index.js:229-261 | one imperative frame equals `Tick` |
| Game.GameSession.Reset | index.js:162-171 | equals `NewRound` |
| Game.ArmOnceArmsOnce | index.js:152-159 | arming is idempotent: the listener ends armed, and is reported once only if it was not armed |
| Game.RunBlockFacts | index.js:241-248 | the running block updates ground, obstacles, player and score in that order exactly while running, speeds up by dt × 0.00001, starts the cutscene at score ≥ 25 unless already shown, and changes nothing else |
| Game.CollisionBlockFacts | index.js:250-254 | a collision ends a game not yet over and emits exactly: an arming of the restart after 500 ms (only if not armed yet), then the high-score recording; otherwise it emits nothing; nothing else changes |
| Game.CutsceneBlockFacts | index.js:256-261 | while the cutscene plays, each frame emits exactly: an arming of the restart after 5000 ms (only if not armed yet), then the rebuild of the obstacle controller from the configuration with the cutscene images appended; it marks the cutscene shown; when no cutscene plays it emits nothing |
| Game.TickBlocks | index.js:229-261 | a later frame is the running, collision and cutscene blocks in order |
| Game.CountsAdd | index.js:229-261 | the high-score and arming counts of concatenated effect lists add up |
| Game.QuietEffectsCountNothing | index.js:162-171 | effect lists that neither record nor arm count zero for both |
| Game.FirstTickOnlyRecordsTime | index.js:230-235 | the first frame only records the clock |
| Game.TickUpdatesOnlyWhileRunning | index.js:237-248 | later frames advance the clock; the components are updated in order ground, obstacles, player, score exactly while running; only then does the speed grow |
| Game.TickSpeedNeverDecreases | index.js:188-192 | with time moving forward, a frame never lowers the game speed |
| Game.TickGameOverEdge | index.js:250-254 | the game ends exactly on a collision while not over, and the high score is recorded exactly on that frame |
| Game.TickArmsOnce | index.js:152-159 | a frame arms the restart at most once, and only if it was not armed; arming is kept |
| Game.TickCutsceneStart | index.js:193-196 | the cutscene starts exactly on a running frame with score ≥ 25 before it has been shown; it is then marked shown and stays shown |
| Game.TickCutsceneCatalog | index.js:216-221 | each cutscene frame adds the two cutscene images to the configuration and rebuilds the controller from a catalog with every kind sized 50·sr × 75·sr |
| Game.ResetClearsRound | index.js:162-171 | reset clears game over, waiting, cutscene and arming, restores speed 1, resets ground, obstacles and score in that order, and keeps the cutscene-shown flag and the configuration |
| Game.InitialInv | index.js:29-47 | the initial state satisfies the loop invariant |
| Game.TickKeepsInv | index.js:229-261 | frames keep the invariant: the cutscene plays only once marked shown; arming happens only in game over or cutscene; the configuration is never empty |
| Game.ResetKeepsInv | index.js:162-171 | reset keeps the invariant |
| Game.HighScoreOncePerGameOver | index.js:250-254 | over any session, the high score is recorded at most once per round |
| Game.RestartArmedOncePerRound | index.js:152-159 | over any session, the restart listener is armed at most once per round |
| Game.CutsceneAtMostOnce | index.js:193-196 | over any session, restarts included, the cutscene starts at most once, and never again once shown |

## Left out

- Drawing: `draw` of every component, text overlays, canvas clearing and canvas sizing. Only the ground's x-wrap inside `draw` is modelled.
- Window and DOM: `setScreen`, the resize listener, and the adding and removing of key listeners. Key events arrive as method calls or `RestartKey` inputs.
- Timers: `setTimeout` and `requestAnimationFrame` are modelled as the `ArmRestart` effect and as a sequence of `Frame` inputs. The restart delay itself is not modelled, so a `RestartKey` may arrive at any time. This only strengthens the session lemmas.
- The game loop receives the score and the collision answer as inputs instead of calling the component objects. `createSprites` and `setObstacleImages` are reduced to the `RebuildObstacleController` effect and the `Game.ObstacleImages` catalog function.
- Image loading: images are identified by their file names.
- Numeric representation: IEEE-754 rounding and non-finite values are not modelled. All arithmetic is exact over the reals.
- ObstacleControllers.ObstacleController.constructor: requires a non-empty catalog. With an empty catalog the source fails on its first spawn when it reads a missing entry, and that failure is not modelled.
- Scores.Score.SetHighScore: the stored best is an integer; the string conversion of `localStorage` is not modelled.
- `inheritance/obstacle.js` is not part of this model.
