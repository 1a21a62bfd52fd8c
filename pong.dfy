/** The rules of the Pong game as values: the configuration, the state of a
    match, one playing tick, one frame of the game loop and a whole session
    of frames, with the properties the game keeps.  The imperative game loop
    in PongLoop is proved to follow these functions. */
module Pong {
  import opened Rects

  // Configuration.
  const Width := 800
  const Height := 600
  const PaddleW := 12
  const PaddleH := 100
  const BallSize := 14
  const PaddleSpeed := 6
  const AiSpeed := 5
  const BallSpeedMin := 5
  const BallSpeedMax := 8
  const WinScore := 5
  /** The AI ignores a ball whose centre is at most this far from its own. */
  const DeadZone := 10
  /** Serves draw |vy| from [ServeVyMin, ServeVyMax). */
  const ServeVyMin := 3
  const ServeVyMax := 7
  const LeftX := 30
  const RightX := Width - 42
  const Screen := Box(0, 0, Width, Height)

  function Abs(n: int): nat { if n < 0 then -n else n }

  datatype Velocity = Velocity(vx: int, vy: int)

  datatype Phase = Play | GameOver

  datatype Side = LeftSide | RightSide

  /** The random numbers one serve consumes: |vx|, the sign of vy and |vy|. */
  datatype ServeDraw = ServeDraw(speedX: int, signY: int, speedY: int)

  /** Sound cues of a tick: a paddle hit (beep) on either side, a point (boop). */
  datatype Cues = Cues(leftHit: bool, rightHit: bool, scored: bool)

  const NoCues := Cues(false, false, false)

  /** Everything the game loop keeps between frames. */
  datatype World = World(left: Box, right: Box, ball: Box, vel: Velocity,
                         scoreL: int, scoreR: int, phase: Phase)

  datatype StepResult = StepResult(world: World, cues: Cues)

  predicate IsDirection(d: int) { d == -1 || d == 1 }

  predicate ValidDraw(d: ServeDraw) {
    BallSpeedMin <= d.speedX < BallSpeedMax &&
    IsDirection(d.signY) &&
    ServeVyMin <= d.speedY < ServeVyMax
  }

  predicate IsPaddle(b: Box, column: int) {
    b.x == column && b.w == PaddleW && b.h == PaddleH
  }

  predicate IsBall(b: Box) { b.w == BallSize && b.h == BallSize }

  /** The shapes the game creates and never changes. */
  predicate Shaped(w: World) {
    IsPaddle(w.left, LeftX) && IsPaddle(w.right, RightX) && IsBall(w.ball)
  }

  predicate PaddleInField(b: Box) { 0 <= b.y <= Height - PaddleH }

  /** Strictly between the walls: neither edge test of the wall bounce fires. */
  predicate WithinWalls(b: Box) { 0 < b.Top() && b.Bottom() < Height }

  /** The state invariant of a match: paddles on the field, the ball between
      the side lines and, vertically, either between the walls or one move away
      from being between them again; serve speed magnitudes; and the scores
      agree with the phase (game over exactly when one side has WinScore). */
  ghost predicate Inv(w: World) {
    Shaped(w) &&
    PaddleInField(w.left) && PaddleInField(w.right) &&
    0 < w.ball.Left() && w.ball.Right() < Width &&
    (WithinWalls(w.ball) || WithinWalls(Advance(w.ball, w.vel))) &&
    BallSpeedMin <= Abs(w.vel.vx) < BallSpeedMax &&
    ServeVyMin <= Abs(w.vel.vy) < ServeVyMax &&
    0 <= w.scoreL && 0 <= w.scoreR &&
    (w.phase == Play ==> w.scoreL < WinScore && w.scoreR < WinScore) &&
    (w.phase == GameOver ==>
       (w.scoreL == WinScore && w.scoreR < WinScore) ||
       (w.scoreR == WinScore && w.scoreL < WinScore))
  }

  // ---------------------------------------------------------------------
  // Serve (reset_ball)

  /** The velocity reset_ball returns for a serve towards `direction`. */
  function Serve(direction: int, draw: ServeDraw): (v: Velocity)
    requires IsDirection(direction) && ValidDraw(draw)
    ensures v.vx * direction > 0
    ensures BallSpeedMin <= Abs(v.vx) < BallSpeedMax
    ensures ServeVyMin <= Abs(v.vy) < ServeVyMax
  {
    Velocity(direction * draw.speedX, draw.signY * draw.speedY)
  }

  /** Every velocity of the serve range towards `direction` is served by some draw. */
  lemma ServeCoversRange(direction: int, v: Velocity)
    requires IsDirection(direction) && v.vx * direction > 0
    requires BallSpeedMin <= Abs(v.vx) < BallSpeedMax
    requires ServeVyMin <= Abs(v.vy) < ServeVyMax
    ensures exists d :: ValidDraw(d) && Serve(direction, d) == v
  {
    var d := ServeDraw(Abs(v.vx), if v.vy < 0 then -1 else 1, Abs(v.vy));
    assert ValidDraw(d) && Serve(direction, d) == v;
  }

  /** The ball after reset_ball: centred on the field. */
  function Recentred(ball: Box): (r: Box)
    requires IsBall(ball)
    ensures IsBall(r) && r.CenterX() == Width / 2 && r.CenterY() == Height / 2
    ensures WithinWalls(r) && 0 < r.Left() && r.Right() < Width
  {
    ball.Centered(Width / 2, Height / 2)
  }

  /** The state a new call of game_loop starts from. */
  function Initial(side: int, draw: ServeDraw): (w: World)
    requires IsDirection(side) && ValidDraw(draw)
    ensures Inv(w)
    ensures w.phase == Play && w.scoreL == 0 && w.scoreR == 0
    ensures w.left.y == Height / 2 - PaddleH / 2 && w.right.y == Height / 2 - PaddleH / 2
    ensures w.ball.CenterX() == Width / 2 && w.ball.CenterY() == Height / 2
    ensures w.vel.vx * side > 0
  {
    World(Box(LeftX, Height / 2 - PaddleH / 2, PaddleW, PaddleH),
          Box(RightX, Height / 2 - PaddleH / 2, PaddleW, PaddleH),
          Recentred(Box(0, 0, BallSize, BallSize)),
          Serve(side, draw), 0, 0, Play)
  }

  // ---------------------------------------------------------------------
  // Paddles

  /** The human (right) paddle: up and down keys each move it by PaddleSpeed,
      then it is clamped to the screen. */
  function HumanMove(paddle: Box, up: bool, down: bool): (r: Box)
    requires IsPaddle(paddle, RightX)
    ensures IsPaddle(r, RightX) && PaddleInField(r)
    ensures r.y == Max(0, Min(paddle.y + (if down then PaddleSpeed else 0)
                                        - (if up then PaddleSpeed else 0),
                              Height - PaddleH))
  {
    var afterUp := if up then paddle.(y := paddle.y - PaddleSpeed) else paddle;
    var afterDown := if down then afterUp.(y := afterUp.y + PaddleSpeed) else afterUp;
    afterDown.Clamped(Screen)
  }

  /** The AI (left) paddle: moves by AiSpeed towards the ball's centre when
      it is more than DeadZone away from the paddle's centre, then is clamped. */
  function AiMove(paddle: Box, ball: Box): (r: Box)
    requires IsPaddle(paddle, LeftX) && ball.Sized()
    ensures IsPaddle(r, LeftX) && PaddleInField(r)
    ensures Abs(ball.CenterY() - paddle.CenterY()) <= DeadZone ==>
              r.y == Max(0, Min(paddle.y, Height - PaddleH))
    ensures ball.CenterY() < paddle.CenterY() - DeadZone ==>
              r.y == Max(0, Min(paddle.y - AiSpeed, Height - PaddleH))
    ensures ball.CenterY() > paddle.CenterY() + DeadZone ==>
              r.y == Max(0, Min(paddle.y + AiSpeed, Height - PaddleH))
    ensures PaddleInField(paddle) ==>
              Abs(r.y - paddle.y) <= AiSpeed &&
              (ball.CenterY() < paddle.CenterY() ==> r.y <= paddle.y) &&
              (ball.CenterY() > paddle.CenterY() ==> r.y >= paddle.y) &&
              (Abs(ball.CenterY() - paddle.CenterY()) <= DeadZone ==> r == paddle)
  {
    var moved :=
      if ball.CenterY() < paddle.CenterY() - DeadZone then paddle.(y := paddle.y - AiSpeed)
      else if ball.CenterY() > paddle.CenterY() + DeadZone then paddle.(y := paddle.y + AiSpeed)
      else paddle;
    moved.Clamped(Screen)
  }

  // ---------------------------------------------------------------------
  // Ball

  /** The ball's move: `ball.x += vx; ball.y += vy`. */
  function Advance(ball: Box, vel: Velocity): (r: Box)
    ensures r.w == ball.w && r.h == ball.h
    ensures r.Left() - ball.Left() == vel.vx && r.Top() - ball.Top() == vel.vy
    ensures r.(x := r.x - vel.vx, y := r.y - vel.vy) == ball
  {
    ball.(x := ball.x + vel.vx, y := ball.y + vel.vy)
  }

  /** The wall bounce, tested on the ball after its move: vy is negated when
      the ball touches or crosses the top or the bottom, and kept otherwise. */
  function WallBounce(ball: Box, vel: Velocity): (r: Velocity)
    ensures r.vx == vel.vx && Abs(r.vy) == Abs(vel.vy)
    ensures !WithinWalls(ball) ==> r.vy == -vel.vy
    ensures WithinWalls(ball) ==> r == vel
  {
    if ball.Top() <= 0 || ball.Bottom() >= Height then vel.(vy := -vel.vy) else vel
  }

  datatype Bounce = Bounce(vel: Velocity, leftHit: bool, rightHit: bool)

  /** The paddle bounces: vx is negated when the ball overlaps a paddle while
      moving towards it; the left paddle is tested first. */
  function PaddleBounce(ball: Box, left: Box, right: Box, vel: Velocity): (r: Bounce)
    requires IsBall(ball) && IsPaddle(left, LeftX) && IsPaddle(right, RightX)
    ensures r.vel.vy == vel.vy
    ensures r.leftHit <==> ball.Collides(left) && vel.vx < 0
    ensures r.rightHit <==> ball.Collides(right) && vel.vx > 0
    ensures !(r.leftHit && r.rightHit)
    ensures r.leftHit ==> r.vel.vx == -vel.vx && r.vel.vx > 0
    ensures r.rightHit ==> r.vel.vx == -vel.vx && r.vel.vx < 0
    ensures !r.leftHit && !r.rightHit ==> r.vel == vel
  {
    var afterLeft :=
      if ball.Collides(left) && vel.vx < 0 then Bounce(vel.(vx := -vel.vx), true, false)
      else Bounce(vel, false, false);
    if ball.Collides(right) && afterLeft.vel.vx > 0
    then Bounce(afterLeft.vel.(vx := -afterLeft.vel.vx), afterLeft.leftHit, true)
    else afterLeft
  }

  datatype Rally = Rally(ball: Box, vel: Velocity, scoreL: int, scoreR: int, scored: bool)

  /** Scoring: a ball touching the left side line gives the right side a point
      and is served to the right; then a ball touching the right side line
      gives the left side a point and is served to the left.  A re-served ball
      is centred, so it never reaches the second test: at most one point per tick. */
  function ScoreAndServe(ball: Box, vel: Velocity, scoreL: int, scoreR: int,
                         draw: ServeDraw): (r: Rally)
    requires IsBall(ball) && ValidDraw(draw)
    ensures ball.Left() <= 0 ==>
              r == Rally(Recentred(ball), Serve(1, draw), scoreL, scoreR + 1, true)
    ensures 0 < ball.Left() && ball.Right() >= Width ==>
              r == Rally(Recentred(ball), Serve(-1, draw), scoreL + 1, scoreR, true)
    ensures 0 < ball.Left() && ball.Right() < Width ==>
              r == Rally(ball, vel, scoreL, scoreR, false)
  {
    var afterLeft :=
      if ball.Left() <= 0 then Rally(Recentred(ball), Serve(1, draw), scoreL, scoreR + 1, true)
      else Rally(ball, vel, scoreL, scoreR, false);
    if afterLeft.ball.Right() >= Width
    then Rally(Recentred(afterLeft.ball), Serve(-1, draw), afterLeft.scoreL + 1, afterLeft.scoreR, true)
    else afterLeft
  }

  // ---------------------------------------------------------------------
  // One playing tick

  /** One tick of play: the human paddle, the AI paddle, the ball's move,
      the wall and paddle bounces, scoring and the win check, in that order. */
  function Step(w: World, up: bool, down: bool, draw: ServeDraw): (r: StepResult)
    requires Shaped(w) && w.phase == Play && ValidDraw(draw)
    ensures Shaped(r.world)
    ensures PaddleInField(r.world.left) && PaddleInField(r.world.right)
    ensures (r.world.scoreL, r.world.scoreR) in
              {(w.scoreL, w.scoreR), (w.scoreL + 1, w.scoreR), (w.scoreL, w.scoreR + 1)}
    ensures r.cues.scored <==> (r.world.scoreL, r.world.scoreR) != (w.scoreL, w.scoreR)
    ensures r.world.phase == GameOver <==>
              r.world.scoreL == WinScore || r.world.scoreR == WinScore
  {
    var right1 := HumanMove(w.right, up, down);
    var left1 := AiMove(w.left, w.ball);
    var ball1 := Advance(w.ball, w.vel);
    var vel1 := WallBounce(ball1, w.vel);
    var bounce := PaddleBounce(ball1, left1, right1, vel1);
    var rally := ScoreAndServe(ball1, bounce.vel, w.scoreL, w.scoreR, draw);
    var phase := if rally.scoreL == WinScore || rally.scoreR == WinScore then GameOver else w.phase;
    StepResult(World(left1, right1, rally.ball, rally.vel, rally.scoreL, rally.scoreR, phase),
               Cues(bounce.leftHit, bounce.rightHit, rally.scored))
  }

  /** Within a rally the ball moves by its velocity and vy changes only by a
      wall bounce, keeping its magnitude; after a point the ball is re-served
      from the centre of the field towards the side that won the point. */
  lemma StepMovesBall(w: World, up: bool, down: bool, draw: ServeDraw)
    requires Shaped(w) && w.phase == Play && ValidDraw(draw)
    ensures var r := Step(w, up, down, draw);
            !r.cues.scored ==>
              r.world.ball == Advance(w.ball, w.vel) &&
              r.world.vel.vy == (if WithinWalls(Advance(w.ball, w.vel)) then w.vel.vy else -w.vel.vy) &&
              Abs(r.world.vel.vx) == Abs(w.vel.vx)
    ensures var r := Step(w, up, down, draw);
            r.cues.scored ==>
              r.world.ball.CenterX() == Width / 2 && r.world.ball.CenterY() == Height / 2 &&
              (r.world.scoreR == w.scoreR + 1 ==> r.world.vel == Serve(1, draw)) &&
              (r.world.scoreL == w.scoreL + 1 ==> r.world.vel == Serve(-1, draw))
  {
  }

  /** A playing tick keeps the match invariant. */
  lemma StepKeepsInv(w: World, up: bool, down: bool, draw: ServeDraw)
    requires Inv(w) && w.phase == Play && ValidDraw(draw)
    ensures Inv(Step(w, up, down, draw).world)
  {
  }

  /** After a wall bounce the next move brings the ball back between the
      walls, so one bounce never re-triggers on the following tick. */
  lemma NoRepeatedWallBounce(w: World, up: bool, down: bool, draw: ServeDraw)
    requires Inv(w) && w.phase == Play && ValidDraw(draw)
    requires !WithinWalls(Advance(w.ball, w.vel))
    requires !Step(w, up, down, draw).cues.scored
    ensures WithinWalls(Advance(Step(w, up, down, draw).world.ball, Step(w, up, down, draw).world.vel))
  {
  }

  /** After a paddle hit the ball moves away from that paddle, so while it is
      still in play the same paddle cannot hit it on the next tick at all. */
  lemma NoRepeatedPaddleHit(w: World, up: bool, down: bool, draw: ServeDraw,
                            up2: bool, down2: bool, draw2: ServeDraw)
    requires Shaped(w) && w.phase == Play && ValidDraw(draw) && ValidDraw(draw2)
    requires !Step(w, up, down, draw).cues.scored
    requires Step(w, up, down, draw).world.phase == Play
    ensures Step(w, up, down, draw).cues.leftHit ==>
              !Step(Step(w, up, down, draw).world, up2, down2, draw2).cues.leftHit
    ensures Step(w, up, down, draw).cues.rightHit ==>
              !Step(Step(w, up, down, draw).world, up2, down2, draw2).cues.rightHit
  {
  }

  /** A match at 4:0 whose ball crosses the right side line ends 5:0 with
      the left side as winner, in that same tick. */
  lemma FinalPointEndsMatch(w: World, up: bool, down: bool, draw: ServeDraw)
    requires Inv(w) && w.phase == Play && ValidDraw(draw)
    requires w.scoreL == WinScore - 1 && w.scoreR == 0
    requires Advance(w.ball, w.vel).Right() >= Width
    ensures Step(w, up, down, draw).world.scoreL == WinScore
    ensures Step(w, up, down, draw).world.scoreR == 0
    ensures Step(w, up, down, draw).world.phase == GameOver
    ensures Winner(Step(w, up, down, draw).world) == LeftSide
  {
  }

  // ---------------------------------------------------------------------
  // Winner

  /** The side named in the game-over banner: in a reachable state, the only
      side that has reached WinScore. */
  function Winner(w: World): (s: Side)
    requires w.phase == GameOver
    ensures Inv(w) ==> (s == LeftSide ==> w.scoreL == WinScore && w.scoreR < WinScore)
    ensures Inv(w) ==> (s == RightSide ==> w.scoreR == WinScore && w.scoreL < WinScore)
  {
    if w.scoreL == WinScore then LeftSide else RightSide
  }

  // ---------------------------------------------------------------------
  // Events

  datatype Key = KeyY | KeyReturn | KeyN | KeyEscape | OtherKey

  datatype Event = QuitEvent | KeyDown(key: Key) | OtherEvent

  /** What the event loop of a frame decides: go on with the frame, exit the
      process, start a new match, or end the program without one. */
  datatype Decision = Continue | Exit | Replay | Decline

  /** The event loop: events are taken in order; a quit event exits at once;
      in game over Y or Return asks for a new match, N or Escape declines;
      every other event is ignored. */
  function Decide(events: seq<Event>, phase: Phase): (r: Decision)
    ensures r == Exit ==> QuitEvent in events
    ensures r == Replay || r == Decline ==> phase == GameOver
    ensures r != Continue ==> events != []
    decreases |events|
  {
    if events == [] then Continue
    else if events[0] == QuitEvent then Exit
    else if phase == GameOver && events[0].KeyDown? && events[0].key in {KeyY, KeyReturn} then Replay
    else if phase == GameOver && events[0].KeyDown? && events[0].key in {KeyN, KeyEscape} then Decline
    else Decide(events[1..], phase)
  }

  /** What a single event means in a phase, on its own. */
  function Verdict(e: Event, phase: Phase): Decision {
    match e
    case QuitEvent => Exit
    case OtherEvent => Continue
    case KeyDown(k) =>
      if phase == Play then Continue
      else if k == KeyY || k == KeyReturn then Replay
      else if k == KeyN || k == KeyEscape then Decline
      else Continue
  }

  /** The event loop's decision is the verdict of the first event that has one. */
  lemma {:induction false} DecideIsFirstVerdict(events: seq<Event>, phase: Phase)
    ensures Decide(events, phase) == Continue <==>
              forall i :: 0 <= i < |events| ==> Verdict(events[i], phase) == Continue
    ensures Decide(events, phase) != Continue ==>
              exists i :: 0 <= i < |events| && Verdict(events[i], phase) == Decide(events, phase) &&
                forall j :: 0 <= j < i ==> Verdict(events[j], phase) == Continue
    decreases |events|
  {
    if events != [] {
      DecideIsFirstVerdict(events[1..], phase);
      if Verdict(events[0], phase) == Continue {
        assert Decide(events, phase) == Decide(events[1..], phase);
        forall i | 0 < i < |events| ensures events[i] == events[1..][i - 1] { }
        if Decide(events, phase) != Continue {
          var k :| 0 <= k < |events[1..]| && Verdict(events[1..][k], phase) == Decide(events, phase) &&
                   forall j :: 0 <= j < k ==> Verdict(events[1..][j], phase) == Continue;
          assert Verdict(events[k + 1], phase) == Decide(events, phase);
          forall j | 0 <= j < k + 1 ensures Verdict(events[j], phase) == Continue {
            if j > 0 { assert events[j] == events[1..][j - 1]; }
          }
        }
      } else {
        assert Verdict(events[0], phase) == Decide(events, phase);
      }
    }
  }

  /** While playing only a quit event matters: a new match can be asked for
      only at game over. */
  lemma {:induction false} PlayIgnoresKeys(events: seq<Event>)
    ensures Decide(events, Play) == (if QuitEvent in events then Exit else Continue)
    decreases |events|
  {
    if events != [] {
      PlayIgnoresKeys(events[1..]);
      if events[0] != QuitEvent {
        assert QuitEvent in events <==> QuitEvent in events[1..];
      }
    }
  }

  // ---------------------------------------------------------------------
  // Frames and sessions

  /** The input of one frame: queued events, the arrow keys held, the random
      numbers of a serve, and the random side a new match would serve to. */
  datatype FrameInput = FrameInput(events: seq<Event>, up: bool, down: bool,
                                   draw: ServeDraw, side: int)

  predicate ValidInput(f: FrameInput) { ValidDraw(f.draw) && IsDirection(f.side) }

  datatype FrameResult = FrameResult(decision: Decision, world: World, cues: Cues)

  /** One pass of the game loop: the event loop first; if it decides nothing,
      a playing tick in play, nothing at game over. */
  function FrameStep(w: World, input: FrameInput): (r: FrameResult)
    requires Shaped(w) && ValidDraw(input.draw)
    ensures r.decision != Continue ==> r.world == w && r.cues == NoCues
    ensures r.decision == Replay || r.decision == Decline ==> w.phase == GameOver
    ensures w.phase == GameOver ==> r.world == w && r.cues == NoCues
    ensures Shaped(r.world)
  {
    PlayIgnoresKeys(input.events);
    var d := Decide(input.events, w.phase);
    if d != Continue then FrameResult(d, w, NoCues)
    else if w.phase == Play then
      var s := Step(w, input.up, input.down, input.draw);
      FrameResult(Continue, s.world, s.cues)
    else FrameResult(Continue, w, NoCues)
  }

  lemma FrameKeepsInv(w: World, input: FrameInput)
    requires Inv(w) && ValidInput(input)
    ensures Inv(FrameStep(w, input).world)
  {
    if w.phase == Play && Decide(input.events, w.phase) == Continue {
      StepKeepsInv(w, input.up, input.down, input.draw);
    }
  }

  /** How a run of frames ends: the process exits, the player declines a new
      match, or the frames run out with the program still going. */
  datatype Ending = Exited | Declined | Running

  datatype SessionResult = SessionResult(ending: Ending, world: World)

  predicate ValidInputs(frames: seq<FrameInput>) {
    forall i :: 0 <= i < |frames| ==> ValidInput(frames[i])
  }

  /** The program from state `w` on: frame after frame, a new match from
      `Initial` whenever the player asks for one at game over. */
  function Run(w: World, frames: seq<FrameInput>): (r: SessionResult)
    requires Shaped(w) && ValidInputs(frames)
    ensures Shaped(r.world)
    ensures r.ending == Declined ==> r.world.phase == GameOver
    decreases |frames|
  {
    if frames == [] then SessionResult(Running, w)
    else
      var f := FrameStep(w, frames[0]);
      match f.decision
      case Exit => SessionResult(Exited, w)
      case Decline => SessionResult(Declined, w)
      case Replay => Run(Initial(frames[0].side, frames[0].draw), frames[1..])
      case Continue => Run(f.world, frames[1..])
  }

  /** Every state the program reaches keeps the invariant; in particular no
      score ever exceeds WinScore. */
  lemma {:induction false} RunKeepsInv(w: World, frames: seq<FrameInput>)
    requires Inv(w) && ValidInputs(frames)
    ensures Inv(Run(w, frames).world)
    ensures Run(w, frames).world.scoreL <= WinScore && Run(w, frames).world.scoreR <= WinScore
    decreases |frames|
  {
    if frames != [] {
      assert ValidInput(frames[0]);
      assert ValidInputs(frames[1..]) by {
        forall i | 0 <= i < |frames[1..]| ensures ValidInput(frames[1..][i]) {
          assert frames[1..][i] == frames[i + 1];
        }
      }
      var f := FrameStep(w, frames[0]);
      FrameKeepsInv(w, frames[0]);
      match f.decision
      case Exit =>
      case Decline =>
      case Replay => RunKeepsInv(Initial(frames[0].side, frames[0].draw), frames[1..]);
      case Continue => RunKeepsInv(f.world, frames[1..]);
    }
  }

  /** A new match starts only from game over, on the player's request, and
      starts from zero scores, centred ball and paddles, in play. */
  lemma ReplayStartsFresh(w: World, frames: seq<FrameInput>)
    requires Shaped(w) && ValidInputs(frames) && frames != []
    requires FrameStep(w, frames[0]).decision == Replay
    ensures w.phase == GameOver
    ensures Run(w, frames) == Run(Initial(frames[0].side, frames[0].draw), frames[1..])
    ensures Initial(frames[0].side, frames[0].draw).scoreL == 0
    ensures Initial(frames[0].side, frames[0].draw).scoreR == 0
    ensures Initial(frames[0].side, frames[0].draw).phase == Play
  {
  }
}
