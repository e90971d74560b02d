# shapemotion: a verified model of the pong game's core

`project/shapemotion.c` is a two-player pong game for an MSP430 board with an
LCD. A watchdog interrupt fires 15 times a second. On every 15th tick it does
three things:

- it advances the ball with `mlAdvance`, unless the game is already won;
- it moves the two paddles with `moveUp` / `moveDown`, as the switch bits say;
- it asks the main loop to redraw.

The main loop then calls `movLayerDraw` once per moving layer. That call
commits the new positions and repaints each moving layer's bounding box,
pixel by pixel, with the colour of the topmost layer covering the pixel.

The model has five modules:

- `Geometry` (geometry.dfy): vectors, regions, the four shape instances
  and the shape capability. The capability is a pair of uninterpreted
  functions, `getBounds` and `check`, so every result holds for any shape
  library.
- `Motion` (motion.dfy): the physics as pure functions. `AdvanceAxis` is one
  axis iteration of `mlAdvance`'s branch chain. `AdvanceMover` is one moving
  layer. `ScoresAfter`/`StepAt` cover a list of layers. `MoveDownPos` and
  `MoveUpPos` are the paddle steps. The module also holds the lemmas on the
  game rules.
- `Render` (render.dfy): the repaint as pure functions. `ProbeColor` is the
  topmost-layer probe. `Rows`/`RegionPixels` give the row-major pixel
  order. `Render` is the colour stream. The module also holds lemmas on the
  pixel count, the order and idempotence.
- `Scheduler` (scheduler.dfy): `wdt_c_handler` as a function `Tick` on a
  `TickState` value, with lemmas on the counter and on the won state.
- `Game` (game.dfy): the program as written, in imperative form.
  - `Layer` and `MovLayer` are classes whose fields are updated in place.
  - `Game` holds the globals (`player01S`, `player02S`, `won`,
    `redrawScreen`, the static `count`) and the layer objects.
  - Each C function is a method with loops: `MlAdvance`, `MoveDown`,
    `MoveUp`, `MovLayerDraw`, `WdtCHandler`, and `DrawFrame` for the main
    loop's redraw step.
  - Each method is proved equal to the corresponding function of `Motion`,
    `Render` or `Scheduler`.

The model follows the code as written:

- The bounds are computed once per layer. Both goal tests look at axis 0 on
  both axis iterations, so a goal can only fire on the axis-1 iteration
  (`NoGoalOnAxisZero`, `ExitOnX`).
- The paddle probes test the ball's old `posNext`, not the candidate
  position.
- The handler calls `mlAdvance(&ml3, &fieldFence, &ml1, &ml0)`. This binds the
  parameter `ml3`, which is probed first, to player 2's paddle. The comment
  at line 158 calls the first probe player 1's. Both paddle branches act
  identically (`PaddleOrderIrrelevant`), so the order does not change the
  result.
- A ball leaving on the left raises `player01S`, and one leaving on the right
  raises `player02S`, as the code does (not the opponent's score).
- Scores are `u_char`. `s - 255` stored back is `(s + 1) % 256` (`GoalScore`).
- `won` is set only in the final `else` branch, and only when a score is `'5'`.
- A set switch bit moves a paddle, as at lines 297-308.

## Model

| member | source | states |
|---|---|---|
| Motion.GoalScore | project/shapemotion.c:148 | storing `s - 255` back into a `u_char` score adds one modulo 256 (so one below 255) |
| Motion.AdvanceMover | project/shapemotion.c:136-173 | one layer's step never clears `won`. It sets `won` only to 1, only when a score is '5', and then changes no score. At most one score changes, by one goal |
| Motion.MoveDownPos | project/shapemotion.c:185-196 | `moveDown` moves x by `+v.x`. It moves y by `+v.y` while the candidate's bounds stay inside the fence on y, else by `-v.y` |
| Motion.MoveUpPos | project/shapemotion.c:204-215 | `moveUp` moves x by `-v.x`. It moves y by `-v.y` while the candidate's bounds stay inside the fence on y, else by `+v.y` |
| Motion.FenceBounceRule | project/shapemotion.c:139-143 | strictly outside on axis `a`: it negates `velocity[a]`, sets `newPos[a]` to the candidate minus twice the old velocity, leaves the other axis and the scores alone, and ignores the paddle probes |
| Motion.TouchingEdgeDoesNotBounce | project/shapemotion.c:139-140 | bounds equal to a fence edge do not take the fence branch |
| Motion.NoGoalOnAxisZero | project/shapemotion.c:138-157 | on axis 0 neither goal branch can be taken, because the fence test subsumes both |
| Motion.PaddleOrderIrrelevant | project/shapemotion.c:158-167 | swapping the two paddle probes never changes an axis step |
| Motion.ExitOnX | project/shapemotion.c:136-157 | a candidate outside on x reverses x. If it is outside on y too, the layer bounces on both axes with no score change. Otherwise the ball goes to the centre and exactly one score goes up: player01S on the left edge, player02S on the right |
| Motion.ExitOnYOnly | project/shapemotion.c:136-173 | a candidate outside on y only reflects y and scores nothing. x is reversed exactly when a paddle probe hit; without a hit, `won` becomes 1 on that same step when a score is '5' |
| Motion.InsideFence | project/shapemotion.c:158-173 | inside on both axes: a probe hit reverses both axes. Without a hit the layer moves by its velocity and `won` becomes 1 if a score is '5' |
| Motion.WonStaysSet | project/shapemotion.c:135-177 | advancing any prefix of a list never clears `won` |
| Motion.DownThenUpRestores | project/shapemotion.c:180-216 | with both candidates inside the fence on y, `moveDown` then `moveUp` restores `posNext` |
| Motion.UpThenDownRestores | project/shapemotion.c:180-216 | with both candidates inside the fence on y, `moveUp` then `moveDown` restores `posNext` |
| Render.ProbeFindsFirst | project/shapemotion.c:105-113 | a pixel gets the colour of the first layer in stack order whose shape covers it |
| Render.ProbeFallsBack | project/shapemotion.c:105-113 | a pixel no layer covers gets `bgColor` |
| Render.Row | project/shapemotion.c:103-104 | a row holds one pixel per column, `x0` up to `x1`, left to right |
| Render.Rows | project/shapemotion.c:102-104 | every pixel of the rows lies inside the region |
| Render.RowsLength | project/shapemotion.c:102-116 | a region holds `(x1 - x0 + 1) * (y1 - y0 + 1)` pixels (none if either span is empty) |
| Render.RowMajor | project/shapemotion.c:102-104 | pixel `(x, y)` of a region is visited at index `(y - y0) * width + (x - x0)` |
| Render.RenderLength | project/shapemotion.c:97-117 | the repaint writes exactly one colour per pixel of each moving layer's inclusive bounds |
| Render.RenderSameLook | project/shapemotion.c:97-117 | the repaint depends only on the shape, `pos` and colour of the layers |
| Render.RenderIdempotent | project/shapemotion.c:88-117 | drawing twice with no change to `posNext` in between writes the same colours |
| Scheduler.CountCycles | project/shapemotion.c:282-311 | `count` stays in 0..14. It resets exactly when the 15th call comes, that call requests a redraw, and any other call only increments `count` |
| Scheduler.PaddleVelocitiesConstant | project/shapemotion.c:297-308 | a tick never changes a paddle's velocity |
| Scheduler.WonFreezesBall | project/shapemotion.c:286-295 | once `won` is 1, a tick changes neither the ball's position and velocity nor the scores |
| Scheduler.WonIsTerminal | project/shapemotion.c:286-295 | once `won` is 1, any number of ticks keeps the ball and the scores frozen |
| Scheduler.WinNeedsFive | project/shapemotion.c:168-173 | a tick that sets `won` starts from a score of '5' and changes no score |
| Scheduler.HeldUpMovesPaddle1 | project/shapemotion.c:297-299 | on a frame tick, bit 0 alone steps player 1's paddle up, or reflects it at the fence, and leaves player 2's paddle alone |
| Game.Layer.constructor | project/shapemotion.c:31-66 | a layer starts with its shape, position and colour, and with `posLast` and `posNext` at `{0,0}` |
| Game.MovLayer.constructor | project/shapemotion.c:79-81 | a moving layer starts with its layer and velocity |
| Game.Game.constructor | project/shapemotion.c:19-81 | the initial state: scores '0', `won` 0, `redrawScreen` 1, `count` 0, the layer positions, colours and shapes and the moving layers' velocities of the initialisers, `posLast` and `posNext` of every layer at `{0,0}`, and the fence taken from the field layer's bounds (line 241) |
| Game.Game.MlAdvance | project/shapemotion.c:129-178 | the new `posNext` and velocity of each listed layer is `StepAt` of the list's state before the call, and the globals are `ScoresAfter` it. `pos` and `posLast` are unchanged, and nothing outside `posNext`, velocities, scores and `won` is written |
| Game.Game.AdvanceAll | project/shapemotion.c:135-177 | the layer loop takes every layer of the list through its step of the trace |
| Game.Game.AdvanceAt | project/shapemotion.c:135-177 | one turn of the layer loop advances layer `i` and leaves the other layers alone |
| Game.Game.AdvanceOne | project/shapemotion.c:136-176 | the axis loop and the final store give exactly `AdvanceMover` of the layer's state before |
| Game.Game.TraceOf | project/shapemotion.c:135-177 | the per-layer trace of a list agrees with `StepAt` and `ScoresAfter` |
| Game.Game.MoveDown | project/shapemotion.c:180-197 | each listed layer's `posNext` becomes `MoveDownPos` of its old value, and no velocity changes |
| Game.Game.MoveUp | project/shapemotion.c:199-216 | each listed layer's `posNext` becomes `MoveUpPos` of its old value, and no velocity changes |
| Game.Game.ProbePixel | project/shapemotion.c:105-113 | the early-exit probe loop returns `ProbeColor` of the stack |
| Game.Game.PaintRow | project/shapemotion.c:103-115 | the column loop writes the probe colour of every pixel of the row, left to right |
| Game.Game.PaintRegion | project/shapemotion.c:102-116 | the nested row and column loops write the probe colour of every pixel of the bounds, row by row |
| Game.Game.SwapPositions | project/shapemotion.c:88-94 | each moving layer gets `posLast` = old `pos` and `pos` = old `posNext`, with `posNext` unchanged |
| Game.Game.Repaint | project/shapemotion.c:97-117 | the repaint pass writes exactly the stream `Render` |
| Game.Game.MovLayerDraw | project/shapemotion.c:83-118 | moving layers are swapped, other stack layers are untouched, and the colours written are `Render` over the swapped stack |
| Game.Game.WdtCHandler | project/shapemotion.c:280-314 | the handler keeps the game well formed. The state afterwards is `Tick` of the state before, and the banner is `BannerOf` it |
| Game.Game.AdvanceOrAnnounce | project/shapemotion.c:286-295 | a won game shows Player 1's banner when `player01S > player02S` and Player 2's otherwise (ties included), and changes nothing else. Otherwise the ball takes `AdvanceBall`, probing player 2's paddle first |
| Game.Game.MovePaddles | project/shapemotion.c:297-308 | bits 0/1 move player 1's paddle up/down and bits 2/3 player 2's, up first, then down |
| Game.Game.DrawLayer | project/shapemotion.c:253-255 | `movLayerDraw(&ml, &player02La)` for a one-element list swaps that layer and repaints it against the stack |
| Game.Game.DrawFrame | project/shapemotion.c:251-255 | the redraw step clears `redrawScreen` and draws player 2, player 1 and the ball, in that order, each against the stack the earlier draws left |

## Left out

- `project/buzzer.c` is not part of this model. It only writes timer and port registers to play tones.
- The hardware set-up in `main` (lines 229-243) is left out: clocks, LCD, switch and buzzer init, `layerInit` and `layerDraw`. Only the fence it computes at line 241 is modelled, in the constructor.
- The CPU-off wait and the green LED (lines 247-251, 283, 313) are left out. They are power management with no effect on the game state.
- The text drawn by `main` (lines 257-262) is left out. So are the tones on switch presses (lines 264-275) and the banner strings of the handler. The banner is modelled as a returned `Banner` value.
- Interrupt concurrency is left out. The handler and the main loop are methods called one at a time, and the `and_sr`/`or_sr` interrupt masking in `movLayerDraw` is an atomic swap pass.
- The shape library (`abRectGetBounds`, `abRectCheck`, `abRectOutline*`, `circle8`, `abShapeCheck`) is uninterpreted: `Geometry.getBounds` and `Geometry.check`.
- `layerGetBounds` is not part of this model. It is taken to be the shape's bounds at the layer's `pos`.
- Render.RenderIdempotent: rests on that reading of `layerGetBounds`. If the library's version also reads `posLast` (written at line 91 and read nowhere in this file), the second draw's region could differ.
- `lcd_setArea` and `lcd_writeColor` are left out. Only the sequence of colours written is modelled.
- `p2sw_read` is a `bv16` parameter of the handler.
- The `next` links of layers and moving layers are not fields. A linked list is a `seq`, and the layer stack is `Game.Game.Stack`.
- The screen size and the colour constants are parameters, as they come from headers that are not part of this model.
- The unused global `v` (line 22) is not modelled.
- `Vec2` components are fixed-width integers declared in the shape header, `count` is a `short` and the loop variables `int`. Their wrap-around is not modelled: positions never leave the screen by far, and `count` never exceeds 15.
- Game.Game.MlAdvance, Game.Game.AdvanceAt, Game.Game.AdvanceAll, Game.Game.AdvanceOne: these require the advanced layers to be distinct from each other and from the two probed paddles. The one call site passes only the ball.
- Game.Game.MovLayerDraw, Game.Game.SwapPositions, Game.Game.MoveDown, Game.Game.MoveUp: these require distinct layers in the list, which every call site's one-element list satisfies.
