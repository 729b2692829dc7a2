# Flappy Penguin game session, modelled in Dafny

This project models the game-session logic of Flappy Penguin, a side-scrolling game built on the Phaser
engine. The penguin must fly through gaps between rows of pipes that scroll in from the right. All of
this logic sits in `main.js`. The model covers:

- the difficulty schedule: the gap between the two pipes of a row shrinks by one pixel every five
  points, from 220 down to 150;
- row placement: the range the gap centre is drawn from, where the top and bottom pipes go, and where
  new pipes appear;
- the collider arithmetic for the pipes (a shrunk rectangle) and for the penguin (a circle);
- the session state: `score`, the `gameStarted` and `gameOver` flags, the penguin and the pipe
  collection. The handlers `startGame`, `flap`, `update`, `addPipeRow`, `hitPipe` and `endGame` act
  on it, together with the two one-shot start listeners and the spawn timers they arm.

Modules, leaf first:

- `Config` holds the constants.
- `Geometry` holds the collider sizes and offsets.
- `Entities` holds the pipe and penguin records, the row invariant and freezing.
- `Spawner` holds the gap size, the gap-centre range and row placement.
- `PipeGroup` holds pruning.
- `Session` holds the `GameSession` class with one method per handler.

Coordinates are `real`, because halves and the 0.75 sprite scale appear. The score and the gap size
are integers. The gap centre is an integer parameter, as the engine's random integer would be.
`GameSession.Valid()` is the invariant every handler keeps:

- the collection is a run of whole rows, top pipe first;
- every row's gap is between 150 and 220 and stays at least 40 pixels from both screen edges;
- there are at most two pipes per point of score;
- no pipe exists before the start;
- every pipe moves at -220 until the game is over and at 0 after it.

Behaviour kept as the code has it:

- The score counts spawned rows, not pipes passed. Every `addPipeRow` that is not stopped by
  `gameOver` adds one point.
- `startGame` has no guard. Each of the two one-shot listeners (pointer, SPACE) can call it once.
  Each call arms another looping timer, and spawns a row unless the game is over.
- A press runs the start listener before the flap listener, so the first press also flaps.
- `update` still prunes in the same call after an out-of-bounds check has ended the game.

What `main.js` does not have, and the model therefore does not either:

- There is no restart transition and no Idle state apart from `!gameStarted`.
- There is no per-pipe `scored` flag, and the score is not tied to passing pipes.
- Nothing stops the spawn timer on game over; `addPipeRow` returns early instead.

## Model

| member | source | states |
|---|---|---|
| Geometry.BodySize | main.js:215-227 | the collider size requested for a pipe is the displayed size scaled by the role's ratios, so it is positive and never larger than the sprite |
| Geometry.BodyOffset | main.js:219-232 | the collider offset centres the body horizontally on the sprite and aligns its lower edge with the sprite's, then shifts it by the role's pixel offset |
| Geometry.PipeBodySizes | main.js:4-24 | both pipe roles only shrink the sprite; a pipe is displayed at 270 by 519.75, and the sizes requested are 108 by 519.75 (top) and 108 by 504.1575 (bottom) |
| Geometry.PenguinCollider | main.js:89-94 | the penguin's circle has a diameter of 0.6 of the sprite width, and its centre is the sprite centre shifted by (10, 10) |
| Spawner.Clamp | main.js:187-191 | the clamped value lies in [lo, hi], equals the input when the input is already in range, and otherwise is the bound it crossed |
| Spawner.GapSize | main.js:186-191 | the gap lies in [150, 220]; it is 220 minus one per full five points while that stays at or above 150, and 150 after that |
| Spawner.GapSizeMonotone | main.js:186-191 | the gap size never grows as the score grows |
| Spawner.GapSizeFloor | main.js:186-191 | from score 350 on, the gap is 150 |
| Spawner.GapSizeSchedule | main.js:186-191 | gap(0) = gap(4) = 220, gap(5) = 219, gap(349) = 151, gap(1000) = 150 |
| Spawner.GapCenterRangeNonEmpty | main.js:194-196 | for every gap in [150, 220] the centre range [gap/2 + 40, 600 - gap/2 - 40] is non-empty and holds the screen's middle row 300 |
| Spawner.PlaceRow | main.js:194-213 | a new row is Top then Bottom. The edges are exactly the gap apart and centred on the chosen centre. The top edge is at least 40 and the bottom edge at most 560. Both pipes are at x = 945, with their left edge 10 pixels beyond the right edge of the screen, and both move at -220 |
| Entities.RowsShape | main.js:200-207 | a run of rows has even length, with top pipes at even positions and bottom pipes at odd ones |
| Entities.RowsAppend | main.js:200-207 | appending a well-formed row to a run of rows yields a run of rows |
| Entities.FreezeAll | main.js:253 | freezing keeps the pipe count, order, positions, widths and roles and sets every horizontal velocity to 0 |
| Entities.RowsFreezeAll | main.js:253 | freezing keeps the row structure |
| PipeGroup.Prune | main.js:171-173 | the pruned collection is no longer than the original and holds no off-screen pipe |
| PipeGroup.PruneAppend | main.js:171-173 | pruning acts pipe by pipe: prune(a + b) = prune(a) + prune(b) |
| PipeGroup.PruneOrder | main.js:171-173 | each pipe is removed exactly when its right edge is left of 0, and otherwise stays in place between its neighbours |
| PipeGroup.PruneMembers | main.js:171-173 | a pipe survives if and only if it was present and its right edge is not left of 0 |
| PipeGroup.PruneNoneOff | main.js:171-173 | with no pipe off screen, pruning changes nothing |
| PipeGroup.PruneRows | main.js:171-173 | both pipes of a row share a column, so pruning removes whole rows and leaves a run of rows |
| PipeGroup.PruneEdgeCases | main.js:172 | a pipe whose right edge is at -5 is removed and one whose right edge is at 5 is kept |
| PipeGroup.PruneAsWritten | main.js:171-173 | the loop as written (live-array `forEach` with `destroy`) never grows the collection and destroys only off-screen pipes: pruning its result gives the same pipes, in the same order, as pruning the input |
| PipeGroup.PruneAsWrittenKeepsHalfRow | main.js:171-173 | as written, pruning a fully off-screen row leaves its bottom pipe behind, which is no longer a run of rows; the intended prune removes both |
| Session.GameSession.constructor | main.js:48-136 | the initial session: score 0, neither flag set, no pipes, both start listeners registered, no timer, and the penguin at (200, 300) at rest with gravity off |
| Session.GameSession.Press | main.js:134-140 | a press fires its one-shot start listener if it is still registered and then flaps. The first press therefore both starts the game and sets vy to -340 |
| Session.GameSession.StartGame | main.js:145-158 | sets gameStarted, turns gravity on, spawns a row unless the game is over (score + 1), and arms one more timer. It is not idempotent |
| Session.GameSession.Update | main.js:160-174 | before the start or after the end, nothing changes. Otherwise the game ends exactly when y < h/2 or y > 600 - h/2, and in the same call the (possibly frozen) pipes are pruned |
| Session.GameSession.PruneOffScreen | main.js:171-173 | the collection becomes prune(old collection) and the session invariant holds |
| Session.GameSession.Flap | main.js:176-181 | no change unless started and not over; otherwise vy becomes -340, replacing the old value, and nothing else changes |
| Session.GameSession.AddPipeRow | main.js:183-241 | no change when the game is over. Otherwise it appends exactly the placed row (Top then Bottom) behind the existing pipes and adds exactly 1 to the score |
| Session.GameSession.HitPipe | main.js:243-247 | ends the game. Once it is over, a further hit changes nothing, so the terminal transition never fires twice |
| Session.GameSession.EndGame | main.js:249-253 | sets gameOver, zeroes the penguin's velocity, and stops every pipe without changing the count, the order or the positions |

## Findings

| source | as written | input that shows it | evidently intended | confidence | as-written member | corrected member |
|---|---|---|---|---|---|---|
| main.js:171-173 | The prune runs `forEach` over `pipes.getChildren()`, which is the group's live array. `destroy()` removes the pipe from that array at once, so the pipe that moves into the freed index is skipped in that frame | one row whose top and bottom pipes are both at x = -200 (right edge -65): the top pipe is destroyed and the bottom pipe survives the frame | every pipe whose right edge is left of 0 is destroyed in the same frame, and rows stay whole | medium; not executed; relies on the engine's group returning its live children array and removing a destroyed member at once | PipeGroup.PruneAsWrittenKeepsHalfRow | PipeGroup.Prune |

The session's `Update` uses the corrected prune, `PipeGroup.Prune`. `PipeGroup.PruneAsWritten` models
the loop as written.

## Left out

- Engine plumbing: the scene configuration, asset loading, sprites and textures are not modelled. This
  includes the penguin texture switches in `update`, `flap` and `endGame`. The model keeps the
  penguin's `displayHeight` fixed. In the program it follows the current texture, so the out-of-bounds
  margin in `update` can differ after a switch. The texture sizes are not part of this model.
- Rendering: the score label and the "Game Over" text are not modelled. The label is updated only when
  the score was already at least 2; that affects display only, and the model's score counts every row.
- Physics integration: gravity, velocity stepping and world-bound clamping are not modelled. Positions
  and velocities are fields that the engine writes between handler calls.
- The overlap test is the engine's collider. `HitPipe` is an input event.
- The engine's conversion between the size passed to `body.setSize` and the body size read back is not
  modelled.
- Geometry.BodyOffset: the offset is stated in terms of the body size read back, not the size requested.
- The random gap centre (`Phaser.Math.Between`) is a parameter. It is an integer that must lie within
  the bounds passed to the engine. How the engine rounds those bounds when they are not integers (odd
  gap sizes) is not modelled.
- Spawner.PlaceRow: its edge bounds (top edge at least 40, bottom edge at most 560) assume a centre inside
  the bounds. The engine's `Between` is not part of this model. If it returns `floor(random * (max - min +
  1) + min)`, then for an odd gap size it can return `min - 0.5` or `max + 0.5`. The program can then place
  the top edge at 39.5 or the bottom edge at 560.5.
- Spawn timer scheduling and its 1500 ms delay are not modelled. Each tick is a call to `AddPipeRow`.
  `spawnTimers` only counts the armed timers.
- Sounds, the idle bobbing tween, the background selector and console logging are side effects with no
  simulation content.
- Restart and reset are not modelled, because the code has neither.
