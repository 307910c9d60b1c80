# Sky Dino gameplay state machine, in Dafny

Sky Dino is an endless side-scroller. A dino jumps, with one double jump per
airborne spell, across platforms that scroll left faster as the score rises.
The game is lost when the dino falls below the screen. This project models the
gameplay core of `game.js`. All of the game's mutable globals become one
immutable `Game.State` record: the session flags `gameStarted`, `gameOver`,
`hasPlayedOnce` and `showHelp`, the `score` and `highScore`, the dino's
vertical state, the leg-animation toggle and counter, and the platform
sequence. Every handler becomes a pure transition on that record:

- `Game.OnKey` is the keydown handler (start, jump, double jump, restart).
- `Game.OnClick` is the help-icon hit test.
- `Game.Reset` is `resetGame`.
- `Game.Update` is `update`.
- `Game.Tick` is one pass of the frame loop with its game-over guard.
- `Game.Run` is any interleaving of key presses, clicks and frames.

The canvas size is a `Geometry.Config` parameter. Every size, speed and
physics constant is derived from it, with the factors the source uses. The
three `Math.random()` draws a spawn consumes are a `Platforms.SpawnDraws`
parameter of each frame. Lengths, positions and velocities are `real`; scores
are `nat`.

Modules:

- `Geometry` holds the canvas-derived constants and the speed ramp.
- `Platforms` covers the platform sequence: initial, scroll, spawn.
- `Character` covers the dino: jump, gravity with the altitude clamp, and the landing loop.
- `LegAnimation` is the walking animation counter.
- `Game` holds the state record and the transitions.
- `GameProperties` holds the properties that relate several transitions.

The landing loop is modelled as the code runs it. The platforms are tested in
sequence order, and each one sees the dino as the earlier matches left it
(snapped and at rest), not the dino from before the loop. A description that
treats all matches as applied to the same pre-loop dino differs from the code
on which platform decides the final position. `Character.LandGroundedIff`
shows that the two readings agree on whether the dino ends up grounded.
`Character.LandLastMatch` pins the final position to the last platform the
loop matched.

## Model

| member | source | states |
|---|---|---|
| `Geometry.BaseSpeed` | game.js:91 | The base speed is at least 5 and at least width/400, and it equals one of the two. |
| `Geometry.Speed` | game.js:205 | A frame's scroll speed is never below the base speed (so never below 5). It exceeds the base speed by exactly score/500. |
| `Geometry.SpeedMonotone` | game.js:205 | Speed is non-decreasing in the score. Two scores' speeds differ by their score difference over 500. |
| `Platforms.InitPlatforms` | game.js:129-133 | The initial sequence is one platform. It spans x in [0, width], its top is on the ground line (height minus the sky offset), and its height is the platform height (0.02 heights). |
| `Platforms.Scroll` | game.js:217 | Every platform's x decreases by the speed. y, width, height and the sequence length are unchanged. |
| `Platforms.ScrollPreservesOrder` | game.js:217 | Scrolling keeps every horizontal distance between two platforms, so their left-to-right order is kept. |
| `Platforms.Spawn` | game.js:219-227 | The old platforms stay as an unchanged prefix. Exactly one platform is appended iff the tail's right edge is left of the canvas width. The appended one is the new platform. |
| `Platforms.Advance` | game.js:217-227 | Scroll then spawn: each old platform moves by exactly the speed, and the sequence grows by at most one. It grows exactly when the scrolled tail's right edge is inside the canvas. |
| `Platforms.NewPlatformBounds` | game.js:221-226 | For draws in [0, 1), the spawned platform's x is in [1.2, 1.4) widths and its width in [0.15, 0.2) widths. Its top is within (0.65, 0.75] heights. So it starts beyond the right edge. |
| `Platforms.SpawnKeepsTailAhead` | game.js:219-227 | After spawning, the tail's right edge is at or past the canvas width, so the trigger is disarmed. |
| `Character.Jump` | game.js:146-157 | A press spends one of the remaining jumps (2 grounded, 1 airborne before the double jump, 0 after it) and sets the jump velocity. With none left the dino is unchanged. The dino is airborne afterwards. |
| `Character.JumpSequence` | game.js:146-157 | From the ground, the first press jumps and leaves the double jump available. The second press uses the double jump. The third press changes nothing. |
| `Character.Fall` | game.js:208-215 | After gravity the dino's top is never above the ceiling (0.05 heights). When the Euler step (velocity plus gravity, then position plus velocity) keeps the top at or below the ceiling, the result is exactly that step. When it would carry the top above the ceiling, the dino is held at the ceiling with velocity 0. The ground and double-jump flags are untouched. |
| `Character.Land` | game.js:229-242 | The landing loop leaves the dino untouched, or grounded at rest with its double jump back and its bottom on some platform's top. |
| `Character.LandGroundedIff` | game.js:229-242 | With the flag cleared first, the dino ends grounded iff some platform passes the four-clause test against the pre-loop dino. Otherwise the dino is unchanged. |
| `Character.LandLastMatch` | game.js:229-242 | A grounded result is snapped onto the platform k that the loop matched last: k matched when reached, and no later platform matched. |
| `LegAnimation.Animate` | game.js:250-259 | The counter always stays in [0, 6). When not walking, the legs reset to (true, 0). While walking, the counter advances modulo 6 and the toggle flips exactly on the wrap. |
| `LegAnimation.WalkPeriodic` | game.js:250-255 | After n walking frames from counter 0, the counter is n mod 6, and the toggle has flipped once per completed six-frame cycle. |
| `Game.StandingDino` | game.js:182-185 | The reset dino is grounded, at rest, with the double jump available, and its bottom is on the ground platform's top. |
| `Game.Initial` | game.js:6-11 | The session starts valid, not started, not over, never played, with no help shown and both scores 0. The platforms are `initPlatforms`'s single ground platform and the legs are (true, 0). The dino is the standing dino of `resetGame`: grounded, at rest, its bottom on the ground platform (corrected placement, see Findings). |
| `Game.InitialAsWritten` | game.js:105-115 | The same session flags, scores, ground platform and legs, but the dino is the declared literal: top at 0.8 heights, at rest, grounded, double jump available. Its top is at the ground platform's top, so its bottom starts a full dino height below it. |
| `Game.Reset` | game.js:177-190 | Reset clears game over, sets hasPlayedOnce, and sets started to skipHome or the old hasPlayedOnce. It sets score 0, one initial platform, legs (true, 0), and a grounded dino at rest with its double jump available. It keeps the high score and help flag, and the result is valid. |
| `Game.OnKey` | game.js:139-162 | Space before the start only sets started, with no jump. Space while playing is `Jump`, and nothing but the dino changes. R after a game over is `Reset(true)`; nothing else reacts then. No key changes the high score, and validity is preserved. |
| `Game.OnClick` | game.js:164-173 | The help flag flips iff the click is within distance 25 of (40, 40). Nothing else changes. |
| `Game.Airborne` | game.js:208-229 | The dino the collision loop starts from is not grounded and keeps its double-jump flag. It is the Euler step when that keeps the top at or below the ceiling, and otherwise it is held at the ceiling with velocity 0. |
| `Game.Conclude` | game.js:244-259 | Game over is set iff it was set or the dino's top is below height plus dino height. The high score changes only at that moment, and only up to the score. The legs animate only while grounded and not over. |
| `Game.Update` | game.js:202-260 | Before the start, update is a no-op. Otherwise the score rises by exactly 1. Old platforms move by the speed of the old score, and one is appended exactly when the tail enters the canvas; the appended one is the platform the frame's draws describe. Game over is set exactly on falling off, and the high score never decreases (it moves only then, to the score). The legs take one animation step, walking exactly when the dino ends grounded and the game is not over; the counter stays in range, and validity is preserved while not over. |
| `Game.Tick` | game.js:357-358 | Once game over holds, a frame changes nothing. Otherwise it is `Update`. |
| `Game.Step` | game.js:139-361 | Any single event keeps the state valid and never lowers the high score. |
| `Game.Run` | game.js:356-361 | Over any interleaving of events, every state reached is valid (for example, game over implies score ≤ high score), and the high score never decreases. |
| `GameProperties.ThreePresses` | game.js:146-157 | Through the key handler: jump, then double jump, then a third press has no effect. |
| `GameProperties.StartThenJump` | game.js:140-157 | The starting press leaves the dino untouched. The next press jumps. |
| `GameProperties.ResetForgetsRun` | game.js:177-190 | A reset's result depends only on the old high score, help flag and hasPlayedOnce. |
| `GameProperties.RestartAfterGameOver` | game.js:159-161 | R after a game over gives a running game with score 0, the initial platform and the standing dino. The high score is kept, and it is at least the lost game's score. |
| `GameProperties.ResetMatchesInitial` | game.js:182-190 | A reset puts the dino, platforms and legs exactly where the corrected initial state `Game.Initial` has them. The declared dino literal differs (see Findings). |
| `GameProperties.ClickTwice` | game.js:164-173 | Two identical clicks restore the state. A click on the icon's centre toggles the help flag. |
| `GameProperties.UpdateLanding` | game.js:229-242 | In a running frame, the dino ends grounded iff some platform passes the landing test against the fallen dino. A grounded dino is at rest with its double jump back, standing on the last platform the loop matched; otherwise it is exactly the fallen dino. |
| `GameProperties.FramesKeepPlatforms` | game.js:217-227 | Over any number of frames, no platform is removed, at most one is added per frame, and the old platforms keep their shape. They only move left, and their relative horizontal distances are preserved. |
| `GameProperties.FramesCountScore` | game.js:206 | Over n frames the score rises by at most n: by exactly n if the game is still on, and not at all if it was already lost. |
| `GameProperties.FrozenAfterGameOver` | game.js:358 | After a game over, any events other than R leave everything but the help flag unchanged. In particular, the score and high score are frozen. |
| `GameProperties.AsWrittenFirstFrameFallsThrough` | game.js:107 | From the declared initial state, the start press plus one frame leaves the dino not grounded and below its standing height. |
| `GameProperties.CorrectedFirstFrameLands` | game.js:182 | From the corrected initial state (canvas width at least 6), the start press plus one frame leaves the dino grounded at its standing height, with the game not over. |

## Findings

| source | as written | input that shows it | evidently intended | confidence | as-written member | corrected member |
|---|---|---|---|---|---|---|
| game.js:107 | The dino literal sets `y` to 0.8 of the canvas height. That is the ground platform's top, so the dino's bottom starts 0.08 heights below the platform, beyond the landing tolerance of 0.008 heights. This placement is what the game starts from once the load-order error at game.js:81 (see Left out) is repaired with the first `updateSizes` call still ahead of the literal, for example by declaring game.js:85-86 (the sizes and `dino, platforms`) with `var` or by moving the call between lines 86 and 105. | Any positive canvas with no resize before the first Space press, and no key pressed between that press and the first frame. The first frame leaves the dino airborne, below its standing height and falling. Neither the ground platform nor the platform spawned beyond the right edge catches it in that frame. After that frame the dino's top is at 0.806 heights, falling, with only its double jump left. That jump lifts the top by at most 0.06 heights, to 0.746 heights, while landing back on the ground platform needs the top at or above 0.728 heights, and every spawned platform is higher still. So the first game is lost (not proved here). | The standing placement that `resetGame` (game.js:182) and `updateSizes` (game.js:99) use: canvas height minus the sky offset minus the dino height. | medium; not executed. A resize event before the start runs `updateSizes` and repairs the placement, and so does a repair that moves the first `resizeCanvas` call after line 115. A second Space press before the first frame spends the ground jump instead, and that jump plus the double jump may bring the dino back onto the ground platform. | `Game.InitialAsWritten`, `GameProperties.AsWrittenFirstFrameFallsThrough` | `Game.Initial`, `GameProperties.CorrectedFirstFrameLands` |

## Left out

- Rendering (`draw`, game.js:264-353) is left out: it only draws and changes no gameplay state.
- Audio is left out: `playJumpSound`, `startBgMusic`, `fadeOutBgMusic`, the music start in the keydown handler (game.js:142) and the music branch of `resetGame` (game.js:192-197). These are Web Audio and media-element calls, and the fade runs on a timer.
- Canvas resizing is left out: the `resize` listener, `resizeCanvas` (game.js:67-78) with the device pixel ratio, and the re-placement of the dino in `updateSizes` (game.js:93-100). The canvas size is the fixed `Config` parameter. The size formulas of `updateSizes` and the dino literal (game.js:89-97, 106-113) are kept in `Geometry`: sky offset, platform height, base speed, dino x, width and height, gravity and jump strength.
- Load order is left out. As written, the script does not start: `resizeCanvas()` at game.js:81 calls `updateSizes`, which assigns `SKY_OFFSET` (game.js:89) while its `let` declaration at game.js:85 has not yet run. That throws a ReferenceError at game.js:81, so nothing after that line runs: no dino, no platforms, no keydown or click listener, no frame loop. The `resize` listener of game.js:80 is registered, but every later call throws again at game.js:89, because the bindings of game.js:85-86 stay uninitialised, so no resize can start the game either. The model starts from the state the declarations describe, as if that error were repaired, and does not model the order of the script's top-level statements.
- `Math.random()` is not modelled: the three draws of a spawn are inputs of the frame, and `ValidDraws` states their range where a property needs it.
- Frame scheduling is left out: `requestAnimationFrame`, sprite loading and its fallback, and the `getBoundingClientRect` translation. Click coordinates are given relative to the canvas.
- IEEE-754 floating point is not modelled: quantities are exact reals, so nothing is claimed about rounding.
- Key events are reduced to their `code` and `key` strings. `Game.IsRestart` treats "r" and "R" as the only keys whose lower case is "r".
- `Game.Update` requires a non-empty platform sequence once the game is started. The source reads the tail platform unconditionally, and `Game.Run` shows the sequence is never empty in a reachable state.
- `Game.Update`: it preserves `Game.Valid` only when the game is not over. The source never calls `update` after a game over (game.js:358), and `Game.Tick` models that guard.
- The fixed-pixel-size variant of the game is not part of this model.
