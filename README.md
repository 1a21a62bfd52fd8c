# Pong game loop, modelled in Dafny

This project models the simulation core of `GPT5Pong.py`, a two-paddle Pong game.
The right paddle is the player's and the left paddle is driven by a simple AI.
The first side to reach `WIN_SCORE` (5) points wins, and the player is then asked
whether to play again.

The model has three modules:

- `Rects` (`rects.dfy`) is the part of pygame's `Rect` that the game uses.
  `Box` is a rectangle's value: its edges, its `centery`, `colliderect` as a strict
  overlap, `clamp_ip` and the `center` setter. `Rect` is the mutable object with
  `x` and `y` fields that the loop changes in place.
- `Pong` (`pong.dfy`) holds the configuration constants and the state of a match
  (`World`). It defines one playing tick as a function (`Step`), built from one
  function per block of the loop, and one frame of `game_loop` (`FrameStep`). A
  whole run of the program, replays included, is `Run`. The match invariant `Inv`
  is proved to hold in every state the program reaches.
- `PongLoop` (`pong_loop.dfy`) is the imperative program itself. Class `Game` owns
  three `Rect` objects, the ball velocity, the two scores and the `state`. Its
  methods update them statement by statement in the order of the source. Each
  method is proved to produce exactly the state that the matching `Pong` function
  describes. `PollEvents` is the event loop. `RunSession` is the outer
  `while game_loop()` loop, which builds a new `Game` whenever the player asks
  for a replay.

Randomness and input are parameters:

- `ServeDraw(speedX, signY, speedY)` holds the three numbers `reset_ball` draws.
  Its ranges come from `randint(5, 8)`, `choice([-1, 1])` and `randint(3, 7)`.
- `FrameInput.side` is the random first-serve direction of a new match.
- The queued events and the up/down key states are also per-frame inputs.

Two details of the code:

- It enters game over in the same tick that a score reaches 5 (lines 105-106).
- A ball whose top is at `y = 0` while moving up with `vy = -3` ends the tick at
  `y = -3` with `vy = 3`, so for that tick it is still past the wall. That state
  cannot be reached. `Inv` shows that the ball is always either between the
  walls or one move away from being between them again. As a result, one wall
  bounce never fires twice in a row (`NoRepeatedWallBounce`).

## Model

| member | source | states |
|---|---|---|
| `Rects.ClampAxis` | GPT5Pong.py:82 | clamp_ip on one axis: a rect that fits ends inside the bounds, at `max(lo, min(p, lo+extent-size))`; a rect already inside is unmoved; one that does not fit is centred |
| `Rects.Box.Clamped` | GPT5Pong.py:86 | clamping keeps the size, puts a fitting rect inside the bounds at the max/min position, and leaves a rect that is already inside unchanged |
| `Rects.Box.Centered` | GPT5Pong.py:44 | the `center =` setter keeps the size and puts the rect's centre exactly at the given point |
| `Rects.Rect.constructor` | GPT5Pong.py:60-62 | a new Rect has the given position and size |
| `Rects.Rect.ClampIp` | GPT5Pong.py:82 | clamp_ip changes the rect in place to its clamped value |
| `Rects.Rect.SetCenter` | GPT5Pong.py:44 | setting the centre changes the rect in place to its centred value |
| `Pong.Serve` | GPT5Pong.py:45-47 | a served vx has the sign of the direction and `BALL_SPEED_MIN <= abs(vx) < BALL_SPEED_MAX`; `3 <= abs(vy) < 7` |
| `Pong.ServeCoversRange` | GPT5Pong.py:45-46 | every velocity in the serve ranges, pointing in the serve direction, is produced by some valid draw |
| `Pong.Recentred` | GPT5Pong.py:44 | the re-served ball is centred at `(WIDTH//2, HEIGHT//2)`, lies strictly between the walls and the side lines, and keeps its size |
| `Pong.Initial` | GPT5Pong.py:60-65 | a new match satisfies the invariant, is in play at 0:0 with both paddles at `y = 250`, has a centred ball, and serves in the drawn direction |
| `Pong.HumanMove` | GPT5Pong.py:80-82 | the player's paddle ends at `max(0, min(y + 6*down - 6*up, 500))`, within the field, in its column |
| `Pong.AiMove` | GPT5Pong.py:84-86 | the AI paddle moves by exactly AI_SPEED towards the ball only when the centres differ by more than 10, otherwise it keeps its y (before clamping); it never moves away from the ball or by more than AI_SPEED, and a paddle in the dead zone stays put |
| `Pong.WallBounce` | GPT5Pong.py:90-91 | vy is negated exactly when the moved ball touches the top or bottom and is kept otherwise; abs(vy) and vx never change |
| `Pong.PaddleBounce` | GPT5Pong.py:93-96 | a paddle hits exactly when the ball overlaps it and moves towards it; a hit negates vx so it points away; at most one paddle hits per tick; no hit leaves the velocity alone; vy is untouched |
| `Pong.ScoreAndServe` | GPT5Pong.py:98-103 | left side line: right score +1, re-serve to +1 from the centre; otherwise right side line: left score +1, re-serve to -1; otherwise no change; so at most one point per tick |
| `Pong.Step` | GPT5Pong.py:78-106 | after a playing tick both paddles are in `[0, 500]`; the scores are unchanged or exactly one grew by 1; the score cue fires exactly when a score changed; the phase is game over exactly when a score equals WIN_SCORE |
| `Pong.Advance` | GPT5Pong.py:88-89 | the ball keeps its size and each edge moves by the velocity; moving back by the velocity restores the ball |
| `Pong.StepMovesBall` | GPT5Pong.py:88-103 | without a point the ball moved by its velocity, vy is flipped exactly on a wall hit and abs(vx) is kept; after a point the ball is centred and served towards the scorer |
| `Pong.StepKeepsInv` | GPT5Pong.py:78-106 | a playing tick keeps the match invariant: paddles on the field, ball within the side lines and never more than one move outside the walls, speed ranges, and game over exactly when a single side holds WIN_SCORE |
| `Pong.NoRepeatedWallBounce` | GPT5Pong.py:88-91 | in a reachable state, a tick with a wall bounce and no point is followed by a move that lands between the walls, so the bounce does not repeat |
| `Pong.NoRepeatedPaddleHit` | GPT5Pong.py:93-96 | a paddle that hit the ball cannot hit it again on the next tick of the rally |
| `Pong.FinalPointEndsMatch` | GPT5Pong.py:101-106 | at 4:0, a ball crossing the right side line makes it 5:0 and game over in the same tick, with the left side named winner |
| `Pong.Winner` | GPT5Pong.py:115 | in a reachable game-over state the banner names the side that holds WIN_SCORE, and the other side has fewer points |
| `Pong.Decide` | GPT5Pong.py:69-76 | the event loop exits only when a quit event is queued, asks for or declines a replay only at game over, and decides nothing on an empty queue; `DecideIsFirstVerdict` characterises it fully |
| `Pong.DecideIsFirstVerdict` | GPT5Pong.py:69-76 | the event loop decides nothing exactly when no event decides anything; otherwise its decision is that of the first deciding event (quit, Y/Return, N/Escape) |
| `Pong.PlayIgnoresKeys` | GPT5Pong.py:69-76 | while playing the event loop exits when a quit event is queued and otherwise goes on; replay keys are accepted only at game over |
| `Pong.FrameStep` | GPT5Pong.py:67-106 | a frame whose event loop decides changes nothing; replay or decline happen only at game over; at game over the state is frozen |
| `Pong.FrameKeepsInv` | GPT5Pong.py:67-106 | every frame keeps the match invariant |
| `Pong.Run` | GPT5Pong.py:122-124 | a run of frames, restarting game_loop on each replay, keeps the game's shapes and is declined only from a game-over state; `RunKeepsInv` proves the invariant over it |
| `Pong.RunKeepsInv` | GPT5Pong.py:122-124 | every state a run of frames reaches, across replays, keeps the invariant, so no score ever exceeds WIN_SCORE |
| `Pong.ReplayStartsFresh` | GPT5Pong.py:72-74 | a replay happens only at game over and continues from a new match at 0:0, in play |
| `PongLoop.ResetBall` | GPT5Pong.py:43-47 | reset_ball centres the ball in place and returns the serve velocity |
| `PongLoop.PollEvents` | GPT5Pong.py:69-76 | the event loop returns the decision of `Decide` on the queued events |
| `PongLoop.Game.constructor` | GPT5Pong.py:60-65 | the objects created at the top of game_loop hold the initial state and satisfy the invariant |
| `PongLoop.Game.MoveHuman` | GPT5Pong.py:80-82 | the player's paddle is updated in place to `HumanMove` |
| `PongLoop.Game.MoveAi` | GPT5Pong.py:84-86 | the AI paddle is updated in place to `AiMove` |
| `PongLoop.Game.MoveBall` | GPT5Pong.py:88-91 | the ball is moved in place and the velocity wall-bounced |
| `PongLoop.Game.BouncePaddles` | GPT5Pong.py:93-96 | the velocity is updated to `PaddleBounce` and the hit cues are returned |
| `PongLoop.Game.ScorePoints` | GPT5Pong.py:98-103 | the scores, ball and velocity are updated to `ScoreAndServe` |
| `PongLoop.Game.Tick` | GPT5Pong.py:78-106 | in play the objects end in exactly the state `Step` gives; at game over nothing changes; the invariant is kept |
| `PongLoop.Game.Frame` | GPT5Pong.py:67-106 | one pass of game_loop's loop yields exactly `FrameStep`'s decision, state and cues, and keeps the invariant |
| `PongLoop.RunSession` | GPT5Pong.py:122-124 | the outer loop, restarting game_loop on each replay, ends exactly as `Run` says |

## Left out

- pygame initialisation, the window, the fonts and frame pacing (`clock.tick(FPS)`) are left out: they are I/O and timing.
- `gen_tone` is left out: it synthesises tones with floating-point sine waves. The `play()` calls are modelled only as the `Cues` flags that `Tick` returns.
- All drawing is left out: `draw_scores`, `draw_midline` and the render block. Only the winner rule of line 115 is kept, as `Winner`.
- `pygame.quit(); sys.exit()` becomes the `Exit` decision, which ends `RunSession`.
- `np.random` is left out. Its values are parameters limited to their ranges, so uniformity is not modelled.
- Each frame carries one `ServeDraw`. The source would draw again for a second `reset_ball` in the same tick. That second call cannot happen (`ScoreAndServe`), so one draw per frame is enough.
- The program's infinite loops (`while True` and `while game_loop()`) run over a finite sequence of frames. Running out of frames ends the run as `Running`.
- pygame's own implementation of `Rect` is not included. The behaviour the game uses is written out in `Rects` for rectangles of non-negative size, the only kind the game creates.
- pygame stores `Rect` coordinates as 32-bit integers. The model uses unbounded integers, because `Inv` keeps every coordinate inside a small range around the 800×600 field.
- A new match is modelled as a new `Game` object, as in the source, where `game_loop` creates new `Rect` objects. Earlier objects of the session are never reused.
