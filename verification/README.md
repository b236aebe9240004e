# Flappy-bird round and settings labels, modelled in Dafny

This project models the game logic of a browser "Flappy Bird" client
(`app/Game.js`) and the settings classifiers it ships with
(`utils/gamedata.js`). React, the canvas and the publish/subscribe
transport are stripped away. What remains is one immutable round state
(bird height and velocity, pipe pairs, score, last pipe height, `gameOver`,
`countdown`) and one pure transition per event:

- an animation frame (`updateGame`): gravity step, pipe advance and scoring, off-screen filter, then a collision or floor check;
- a pipe-interval tick (`generatePipes`);
- a countdown tick (the countdown effect);
- a keydown (`handleKeyDown`, where Space jumps or restarts);
- an inbound topic message (`processMessage`, with `start-game` as the only event acted on).

Geometry, pipe heights and the score are integers. The bird's height and
velocity involve the 0.4 gravity and are exact `real`s.

Modules, one per concern:

- `Wrappers`: `Option`, used for JavaScript's `null` and `undefined`.
- `Physics`: board constants, `Step`, `ApplyJump` and the collision test.
- `Obstacles`: the 11-entry height table, the gap formula and spawning a pair.
- `PipeList`: what a frame does to the pipe list.
- `Round`: the state, the event transitions and the lifecycle lemmas.
- `GameData`: the four `GameProps` classifiers.

Behaviour of `app/Game.js` worth knowing when reading the model:

- The table index is `score + (last % 11)` (app/Game.js:93). It is not reduced modulo the table length, so once the score is high enough it can pass entry 10 (`Obstacles.TableOverrun`). The lookup is then `undefined`. The spawned pair gets `undefined`/`NaN` heights (`opening == None`) and can never be hit. The next lookup reads the remembered height as 0 through `?? 0`. This overrun needs the pipe-interval callback to see the current score, which is how the model reads it (see "## Left out").
- At the start of a round the remembered height is 320 and 320 % 11 is 1, so the first pair has a 130-high top pipe (`Obstacles.FirstPipeOfRound`).
- From rest at 320, five frames give velocity 2.0 and height 326 (`Physics.FiveFramesFromRest`).
- `gameOver` stays true until the countdown ends, so Space during a countdown takes the restart branch and the countdown goes back to 3 (`Round.SpaceDuringCountdown`).
- Over and idle are one state (`gameOver` with no countdown). In the model a countdown exists only while `gameOver` holds (`Round.Inv`). This relies on `start-game` being acted on only when the game is over, as `processMessage` reads. See "## Left out" for what the subscription callback does instead.

## Model

| member | source | states |
|---|---|---|
| Physics.Step | app/Game.js:125-127 | velocity grows by exactly the gravity 0.4; the new height is never negative, is at least the unclamped height, and equals it unless clamped to 0 |
| Physics.ApplyJump | app/Game.js:177-179 | the velocity becomes exactly the jump impulse -8 whatever it was; the height is untouched |
| Physics.JumpIgnoresVelocity | app/Game.js:179 | two birds at the same height are identical after a jump; jumping twice is jumping once |
| Physics.FallVelocity | app/Game.js:126-127 | after n frames without a jump the velocity is v0 + n * 0.4; the velocity is never clamped |
| Physics.FallHeight | app/Game.js:126-127 | a bird at or below the top and not rising follows y0 + n*v0 + 0.4*n(n+1)/2, because the clamp never fires |
| Physics.FiveFramesFromRest | app/Game.js:13-27 | from the centre (320) at rest, five frames give velocity 2.0 and height 326 |
| Physics.CheckCollision | app/Game.js:162-173 | the in-order scan answers true iff some pipe overlaps the bird's lane and the bird is above its top pipe or below its bottom pipe (the reference predicate `Collides`); an empty list gives false |
| Physics.LaneWindow | app/Game.js:165-166 | a 52-wide pipe overlaps the bird's span [45, 79] exactly while -7 < x < 79 |
| Physics.InsideGap | app/Game.js:167 | for a pair with top + gap + bottom = 640, the bird misses it vertically iff its whole body lies between top and top + gap |
| Physics.UndefinedPipeIsHarmless | app/Game.js:167 | a pair with undefined heights never collides, since every comparison with NaN or undefined is false |
| Obstacles.JsRem | app/Game.js:93 | JavaScript's truncating `%`: the remainder lies in [0, n) for a non-negative dividend and in (-n, 0] for a negative one, and dividend = n * truncated quotient + remainder |
| Obstacles.TableIndex | app/Game.js:93 | the index is the score plus the remembered height modulo 11; an `undefined` height counts as 0, so the index is then the score itself; the index never strays more than 10 from the score |
| Obstacles.TopHeight | app/Game.js:93-94 | the lookup is defined iff the index `score + last % 11` lies in the table, and then yields exactly `pipeHeights[score + last % 11]` |
| Obstacles.PipeGap | app/Game.js:95 | the gap is 150 - 2*score floored at 120, so it always lies in [120, 150] |
| Obstacles.GapNonIncreasing | app/Game.js:95 | a higher score never gives a wider gap |
| Obstacles.SpawnPipe | app/Game.js:93-105 | the new pair enters at x = 360 unscored; its top is the table entry, and top + gap + bottom = 640 whenever the lookup is defined |
| Obstacles.LookupDefinedIff | app/Game.js:93-94 | for a non-negative last height the lookup is defined iff score + last % 11 < 11 |
| Obstacles.LookupAfterUndefined | app/Game.js:93 | after an undefined height the index is the score itself (`?? 0`) |
| Obstacles.FirstPipeOfRound | app/Game.js:93-105 | at score 0 after a reset (last height 320) the pair is top 130, bottom 360 |
| Obstacles.TableOverrun | app/Game.js:93-94 | after a 130-high pair, spawning at score 2 indexes entry 11 of the 11-entry table and gives a pair with undefined heights |
| PipeList.MoveAndScore | app/Game.js:132-147 | one `forEach` step: the pair moves by -2 with its heights kept, and afterwards it is scored iff it was scored before or its trailing edge is now left of the bird |
| PipeList.Advance | app/Game.js:131-148 | every pair moves by exactly -2 with its heights kept; `scored` never goes back to false; it turns true only for a pair now past the bird, and every unscored passed pair turns true; the points awarded equal the rise in the number of scored pairs |
| PipeList.NoRescoring | app/Game.js:143-147 | a frame over already-scored pairs awards no point |
| PipeList.KeepOnScreen | app/Game.js:151 | exactly the pairs with x + 52 > 0 are kept, unchanged, in their original order; the result has as many entries as the input has on-screen entries, so duplicates are kept (see `PipeList.KeepOnScreenUnique`) |
| PipeList.OnScreenSelectionBound | app/Game.js:151 | no order-preserving selection of on-screen pairs is longer than the number of on-screen entries |
| PipeList.KeepOnScreenUnique | app/Game.js:151 | any order-preserving selection of on-screen pairs with that many entries is the filter's result, so the filter's contract fixes its result, duplicates included |
| PipeList.KeepOnScreenIdempotent | app/Game.js:151 | filtering twice is filtering once |
| PipeList.ScoredCountOfSubsequence | app/Game.js:151 | removing pairs never raises the number of scored pairs |
| PipeList.ScoredCountAppendUnscored | app/Game.js:100-105 | appending a freshly spawned, unscored pair leaves the number of scored pairs unchanged |
| Round.ResetGame | app/Game.js:190-197 | bird at 320 at rest, no pipes, last height 320, score 0, countdown 3; `gameOver` is untouched |
| Round.UpdateGame | app/Game.js:118-160 | no-op while over or counting down; otherwise the bird takes one step, the pipes are the advanced list filtered in order with every on-screen entry kept, duplicates included, the score rises by the newly scored pairs, and the round ends iff the bird collides or reaches the bottom |
| Round.GeneratePipes | app/Game.js:90-110 | only while playing: appends the spawned pair and remembers its top height; otherwise the state is untouched |
| Round.CountdownTick | app/Game.js:199-213 | a positive count goes down by one; zero clears the countdown and starts play; no countdown, or a negative one, changes nothing |
| Round.HandleKeyDown | app/Game.js:175-184 | Space jumps while playing and resets when over; other keys change nothing |
| Round.ProcessMessage | app/Game.js:79-88 | `start-game` resets only when the game is over; in every other case the state is unchanged |
| Round.Next | app/Game.js:79-213 | event dispatch: only the countdown timer or a restart moves the countdown; only frames, pipe ticks or a restart touch the pipes; only frames or a restart change the score; messages other than `start-game` change nothing |
| Round.InitialInv | app/Game.js:20-36 | the mounted component is consistent and in the over phase |
| Round.InvPhase | app/Game.js:30-32 | a consistent state is over, counting down from 3 to 0, or running |
| Round.NextInv | app/Game.js:90-213 | every event keeps the bird at or below the top, keeps countdowns within 3..0 and only while over, and keeps every pair on the board with a table top and a gap in [120, 150], and keeps the score at least the number of scored pairs on the board |
| Round.RunInv | app/Game.js:79-213 | every state reached from a consistent one by any event sequence is consistent |
| Round.RunningNeverCountsDown | app/Game.js:79-213 | from a running round every event leads to running or over, never straight to a countdown (with every handler reading the current state) |
| Round.OverOnlyRestarts | app/Game.js:79-197 | an over round is either left as it is or reset into countdown 3 |
| Round.CountdownOnlyFromReset | app/Game.js:190-197 | in a consistent state, a countdown appears only through a reset |
| Round.FourTicksToPlay | app/Game.js:199-213 | after a reset from game over, the countdown shows 3, 2, 1, 0, and play starts on exactly the fourth tick with everything else as the reset left it |
| Round.IdleOutsidePlay | app/Game.js:90-119 | frames and pipe ticks do nothing unless the round is running |
| Round.ScoreNeverDrops | app/Game.js:143-194 | no event lowers the score except a reset |
| Round.SpaceDuringCountdown | app/Game.js:176-184 | Space during a countdown restarts it from 3 |
| Round.SpaceWhilePlaying | app/Game.js:177-179 | Space while running sets the velocity to -8 and changes nothing else |
| GameData.Gravity | utils/gamedata.js:1-10 | "low" exactly for 0.3, "high" exactly for 0.5, "normal" for every other value |
| GameData.Jump | utils/gamedata.js:12-20 | "high" iff value <= -9, "low" iff value >= -7, "normal" iff strictly between |
| GameData.Speed | utils/gamedata.js:22-35 | -1, -3, -4 are slow, fast, very fast; every other value, -2 included, is normal |
| GameData.Pipes | utils/gamedata.js:37-47 | very close below 75, close in [75, 125), normal in [125, 175), far from 175 |
| GameData.LabelsAreClosed | utils/gamedata.js:1-47 | each classifier is total and answers with one of its own labels |
| GameData.JumpBoundaries | utils/gamedata.js:13-18 | -9 is high, -7 is low, -8 is normal |
| GameData.JumpMonotone | utils/gamedata.js:12-20 | a more negative jump value never yields a weaker label |
| GameData.PipesMonotone | utils/gamedata.js:37-47 | a larger gap value never yields a closer label |
| GameData.SpeedTable | utils/gamedata.js:22-35 | the four speeds -1..-4 map to slow, normal, fast, very fast |

## Left out

- Canvas drawing, image loading, and the "Waiting for next game" and countdown overlays. These are rendering only.
- The frame's guard on a missing canvas or bird image. The model assumes the assets have loaded.
- `requestAnimationFrame`, `setInterval` and `setTimeout`. Each frame and each timer firing is one discrete event.
- React's stale closures are not modelled. The model reads every handler against the current state, as the code text reads. In the running program three callbacks see older values, with these consequences:
  - The pipe-interval callback is created when play starts (app/Game.js:90-110) and keeps the `score` of that render, which is 0 after `resetGame`. The running program therefore uses index `last % 11`, which never passes the table, and a gap that stays 150. The table overrun and the shrinking gap stated by `Obstacles.TableOverrun`, `Obstacles.GapNonIncreasing` and `Round.GeneratePipes` hold for the code as written against the current score, not for that frozen value.
  - The subscription callback (app/Game.js:69-75) keeps the `processMessage` of the render that subscribed, where `gameOver` is true. In the running program a `start-game` message therefore resets even during play, leaving `gameOver` false with countdown 3. `Round.ProcessMessage`, `Round.Inv`, `Round.RunningNeverCountsDown` and `Round.CountdownOnlyFromReset` describe the current-state reading, in which that cannot happen.
  - The animation-frame loop is started by the effect at app/Game.js:112-116, which re-runs only when `gameOver` changes. The loop reschedules itself (app/Game.js:159), so its guard (app/Game.js:119) keeps the `gameOver` false and `countdown` null of the render where play began. After a `start-game` reset during play, frames therefore keep running through the new countdown. The bird falls from 320, Space still jumps because the keydown effect re-reads `gameOver`, and a floor hit can set `gameOver` in the middle of the countdown. `Round.UpdateGame` (a no-op while over or counting down) and `Round.IdleOutsidePlay` describe the current-state reading, in which that cannot happen.
- The topic client, the subscription and `JSON.parse`. A message arrives as its already-parsed `event` string. A malformed payload (which throws) is not modelled.
- IEEE-754 rounding of the 0.4 gravity and of the float settings. Reals are exact.
- Remote players, the membership roster and adopting broadcast `gameProperties` are not part of this model. `app/Game.js` does none of them.
- The token and session HTTP endpoints, the start-game publisher and the page, login and layout components. They are I/O wrappers over libraries not shown.
