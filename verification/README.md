# physics_sim: the ball pool, the key commands and the disc coverage

`physics.c` is an SDL demo. Balls fall under gravity inside a large circular
wall and bounce off it. This project models the integer logic around the
float physics:

- **`Constants`** (`constants.dfy`) holds the macros after expansion. The
  window radius is 360. The ball radius is 7, because `720 / 2 / 50` is
  integer division. The pool holds `MAX_BALLS` = 2048 balls, and the velocity
  spread `n` is 1000. It also states the collision test of the step:
  `distance + 7 >= 360`.
- **`Render`** (`render.dfy`) models the two nested counting loops of
  `render_circle`, as the sequence of offsets `(dx, dy)` they draw. The lemmas
  prove:
  - the drawn points are exactly the lattice points of `(-r, r] x (-r, r]`
    inside the disc;
  - they are drawn in descending order with no repeats;
  - the disc is lopsided: `(r, 0)` and `(0, r)` are drawn, `(-r, 0)` and
    `(0, -r)` never are;
  - no 32-bit expression overflows for radii up to 32767, which covers the
    radii 360 and 7 that the program uses.
- **`Pool`** (`pool.dfy`) is a functional specification of the state that
  `main` changes. That state is:
  - the `running` flag;
  - the primary `ball`, which is kept apart from the array;
  - the array `balls`;
  - the cursor `ball_count`;
  - the number of rand() values used so far.

  Each event, the event-polling loop, the per-frame step and the main loop
  are functions. The lemmas cover:
  - the cursor range;
  - the fill;
  - the Q fall-through;
  - the reset range;
  - the step order;
  - when the loop ends.
- **`Simulation`** (`world.dfy`) is the class `World`. It keeps the same state
  in fields and in an `array`, and updates it in place as `main` does. Every
  method is proved to produce the new state given by the matching `Pool`
  function. `Draw` lists the `render_circle` calls of a frame.

The platform enters only as parameters:
- libc's `rand()` is the stream `RandStream`: the k-th call returns
  `rand(k) >= 0`;
- `update_balls` is an opaque `Update` function of the ball, the wall and
  `delta_time`;
- the SDL event queue is a sequence of decoded `Event`s per frame.

The model follows the code at these points, which are easy to misread:
- Reset draws the primary ball's horizontal velocity as
  `rand() % (2 * n) - n`, which lies in `[-n, n-1]`. A new ball gets
  `rand() % (2 * n + 1) - n`, which lies in `[-n, n]`.
- The ball radius is the integer 7, not 7.2.
- The primary ball is a separate variable. `balls[0]` is never written,
  stepped or drawn, and the live balls of the array are `balls[1..ball_count)`.
- Key Q has no `break`. After clearing `running` it falls through into the
  SPACE fill. The frame in which the loop stops still handles its remaining
  events, steps every ball and draws.
- New balls get alpha 0.

## Model

| member | source | states |
|---|---|---|
| Constants.MacroValues | physics.c:51-52 | CIRCLE_WINDOW_RADIUS is 360; BALL_RADIUS is the truncated quotient 7 (7 * 50 < 360 < 8 * 50) |
| Constants.Collides | physics.c:68 | the wall test holds exactly when the distance to the centre is at least CIRCLE_WINDOW_RADIUS - BALL_RADIUS |
| Constants.GuardExcludesCentre | physics.c:68-69 | the division `1.0f / distance` runs only under the wall test, which needs distance >= 353, so the divisor is never 0 |
| Constants.CollisionThreshold | physics.c:68 | the wall test `distance + BALL_RADIUS >= CIRCLE_WINDOW_RADIUS` holds exactly from distance 353 on, and not at the centre |
| Render.CircleOffsets | physics.c:87-95 | the nested loops draw exactly the sequence `Offsets(radius)`, including radius <= 0 (nothing drawn) |
| Render.Column | physics.c:88-94 | the inner loop for outer index w draws at most one point per iteration, all in the column dx = r - w |
| Render.Columns | physics.c:87-95 | after w iterations of the outer loop every drawn point has r - w < dx <= r |
| Render.Offsets | physics.c:84-96 | `render_circle` draws nothing for radius <= 0, and otherwise only points with -r < dx <= r |
| Render.ColumnsMembers | physics.c:87-92 | after the outer loop has covered w columns, the drawn offsets are those with r - w < dx <= r, -r < dy <= r that pass the coverage test |
| Render.OffsetsExactly | physics.c:87-92 | an offset is drawn iff -r < dx <= r, -r < dy <= r and dx*dx + dy*dy <= r*r |
| Render.OffsetsInsideDisc | physics.c:91 | every drawn offset lies inside the disc of radius r |
| Render.Asymmetry | physics.c:87-90 | for r > 0, (r, 0) and (0, r) are drawn, while (-r, 0) and (0, -r) are never drawn |
| Render.ColumnsDescending | physics.c:87-90 | the offsets come out with dx descending, and with dy descending inside one dx |
| Render.OffsetsOrder | physics.c:87-92 | the drawing order is strictly descending (lexicographic on dx, then dy), so no offset is drawn twice |
| Render.NoOverflow | physics.c:87-91 | for radii up to 32767, `radius * 2`, `radius * radius` and `dx*dx + dy*dy` fit in a 32-bit int |
| Pool.SpawnVelocityX | physics.c:155 | the horizontal velocity of a new ball lies in [-n, n] |
| Pool.ResetVelocityX | physics.c:144 | the horizontal velocity given by reset lies in [-n, n-1] |
| Simulation.World.NextRand | physics.c:116 | one rand() call returns the next value of the seeded sequence and advances its position by one |
| Pool.ResetRangeNarrower | physics.c:144 | every value of [-n, n] is a possible new-ball velocity and every value of [-n, n-1] a possible reset velocity, but reset can never give n |
| Pool.NewBall | physics.c:153-157 | the compound literal of a new ball puts it at the centre (360, 360), with vertical velocity 0, horizontal velocity in [-n, n], and alpha 0 |
| Pool.WallInscribed | physics.c:120-124 | `circle_window` is centred at (360, 360) and stands still, so the wall of radius 360 touches all four edges of the 720 x 720 window; every new ball is spawned at its centre |
| Pool.Initial | physics.c:109-126 | the loop starts running with ball_count 1, the primary ball at the centre with vertical velocity 0 and horizontal velocity in [-n, n] |
| Pool.Reset | physics.c:140-146 | R sets ball_count to 1 and puts the primary ball at the centre with vertical velocity 0 and horizontal velocity in [-n, n-1]; its colour, the array and `running` are unchanged; one rand() value is used |
| Pool.FillWith | physics.c:152-158 | the fill loop ends with ball_count == MAX_BALLS and leaves the primary ball and `running` unchanged |
| Pool.Push | physics.c:153 | one fill iteration keeps the pool invariant (array of MAX_BALLS, cursor in [1, MAX_BALLS]) |
| Pool.Fill | physics.c:151-158 | SPACE leaves ball_count == MAX_BALLS and the primary ball and `running` unchanged |
| Pool.FillKeepsPrefix | physics.c:152-158 | the fill never writes below the cursor (so never `balls[0]`) and uses four rand() values per new ball |
| Pool.FillWritesTail | physics.c:152-157 | the fill writes each slot in [ball_count, MAX_BALLS) with the ball built from that slot's four rand() values, in slot order |
| Pool.FillContents | physics.c:151-158 | SPACE writes exactly slots [old ball_count, MAX_BALLS) with new balls drawn in turn from the rand() sequence |
| Pool.FillIdempotent | physics.c:151-158 | SPACE is idempotent, and SPACE on a full pool changes nothing |
| Pool.Apply | physics.c:134-162 | every event keeps the array at MAX_BALLS entries and ball_count within [1, MAX_BALLS] |
| Pool.QuitKeyFallsThrough | physics.c:148-158 | Q is a window close followed by SPACE: it clears `running` and fills the pool to MAX_BALLS, whereas a window close leaves the pool as it was |
| Pool.ApplyAll | physics.c:133-164 | ball_count stays within [1, MAX_BALLS] across any sequence of events |
| Pool.CountAfterEvents | physics.c:133-164 | after a sequence of events, ball_count is 1 if the last of R/Q/SPACE was R, MAX_BALLS if it was Q or SPACE, and unchanged if there was none |
| Pool.RunningAfterEvents | physics.c:135-149 | `running` is still set after a sequence of events iff it was set before and no window close or Q occurred |
| Pool.NoPoolKeyOnlyRunning | physics.c:134-161 | events other than R, Q and SPACE leave the primary ball, the array, the cursor and the rand() position as they were, and clear `running` exactly when one of them is a window close |
| Pool.SlotZeroUntouched | physics.c:140-158 | no sequence of events changes `balls[0]` |
| Pool.StepOrder | physics.c:169-175 | one frame steps ball_count balls: first the primary ball, then `balls[k]` for k = 1 .. ball_count - 1 in increasing order |
| Pool.StepOrderSlots | physics.c:173-175 | array slot j is stepped iff 1 <= j < ball_count, and each stepped ball is stepped exactly once |
| Pool.Step | physics.c:169-175 | the primary ball and each `balls[i]` with 1 <= i < ball_count are replaced by the step of their old value; `balls[0]` and the slots past the cursor are unchanged; nothing else changes |
| Pool.RunFrame | physics.c:132-175 | one iteration of the main loop (events, then step) keeps the pool invariant |
| Pool.Run | physics.c:132-198 | the main loop keeps the pool invariant over any sequence of frames |
| Pool.StopEndsRun | physics.c:132-175 | a frame containing a window close or Q is still stepped, and it is the last frame |
| Simulation.World.constructor | physics.c:109-126 | the set-up of `main` yields the state `Initial`, with a fresh array of MAX_BALLS entries |
| Simulation.World.SpawnBall | physics.c:153-157 | the compound literal of a new ball makes four rand() calls and builds `NewBall` from them |
| Simulation.World.ResetPrimary | physics.c:140-146 | the in-place R handler yields exactly `Reset` of the old state and does not touch the array |
| Simulation.World.FillPool | physics.c:152-158 | the in-place fill loop yields exactly `Fill` of the old state |
| Simulation.World.HandleEvent | physics.c:134-162 | the switch, including the Q fall-through, yields exactly `Apply` of the old state |
| Simulation.World.HandleEvents | physics.c:133-164 | the polling loop yields exactly `ApplyAll` of the old state |
| Simulation.World.StepPrimary | physics.c:169 | the step of the primary ball replaces it by its step and logs `Primary` |
| Simulation.World.StepSlot | physics.c:173-175 | one iteration of the array step replaces `balls[i]` by its step, leaves every other slot alone, and logs `Pool(i)` |
| Simulation.World.StepBalls | physics.c:169-175 | the in-place step loops yield exactly `Step` of the old state, stepping the balls in `StepOrder` |
| Simulation.World.Draw | physics.c:180-185 | a frame draws ball_count + 1 discs: the wall with radius 360, then the primary ball, then `balls[1..ball_count)` in order, each with radius 7 |
| Simulation.World.Frame | physics.c:132-185 | one loop iteration yields `RunFrame` of the old state, steps in `StepOrder` and draws as `Draw` says |
| Simulation.World.RunLoop | physics.c:132-198 | the main loop yields `Run` of the old state, and stops early only once `running` is cleared |

## Left out

- The float physics of `update_balls` (physics.c:55-82) is not modelled: gravity, damped translation, `sqrtf`, reflection, and the wall clip. The division `1.0f / distance` (physics.c:69) is reached only when the wall test holds, that is from distance 353 on, so it never divides by zero (Constants.GuardExcludesCentre). The step is the opaque parameter `Update`. Positions and velocities are reals, which stand in for floats.
- `delta_time` is taken from `SDL_GetTicks`, and the FPS counter sets the window title (physics.c:128-130, 165-171, 187-195). These are wall-clock and diagnostic output. Each frame's `dt` is an input.
- SDL set-up and teardown, event polling, `SDL_SetRenderDrawColor`, clearing and presenting (physics.c:28-47, 177-178, 197-202) are platform I/O. Only the decoded events enter the model.
- `srand(time(NULL))` and libc's generator (physics.c:101) are foreign code. The values rand() returns form the parameter `RandStream`.
- C leaves unspecified the order in which the four rand() calls of a ball's initializer run (physics.c:116-117, 155-156). The model fixes it as velocity x, red, green, blue.
- Render.CircleOffsets does not model the `SDL_RenderDrawPoint` call (physics.c:92). That call adds the offset to the float centre and converts the result to int. The model gives the offsets only.
- Render.CircleOffsets: the model uses unbounded ints. 32-bit overflow is covered only by Render.NoOverflow, for radii up to 32767. The program uses the radii 360 and 7.
- Simulation.World.RunLoop runs over a finite sequence of frame inputs. The program's `while (running)` has no bound of its own.
