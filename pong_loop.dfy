/** The game loop as the program runs it: pygame Rect objects changed in
    place, the ball's velocity and the scores kept in a `Game` object, the
    event loop, one frame of game_loop, and the outer loop that restarts a
    match on request.  Each method is proved to follow the functions of Pong. */
module PongLoop {
  import opened Rects
  import opened Pong

  /** reset_ball: centres the ball and returns a fresh serve towards `direction`. */
  method ResetBall(ball: Rect, direction: int, draw: ServeDraw) returns (vel: Velocity)
    requires IsBall(ball.Value()) && IsDirection(direction) && ValidDraw(draw)
    modifies ball
    ensures ball.Value() == Recentred(old(ball.Value()))
    ensures vel == Serve(direction, draw)
  {
    ball.SetCenter(Width / 2, Height / 2);
    vel := Serve(direction, draw);
  }

  /** The event loop of one frame: stops at the first event that decides something. */
  method PollEvents(events: seq<Event>, state: Phase) returns (d: Decision)
    ensures d == Decide(events, state)
  {
    var i := 0;
    while i < |events|
      invariant 0 <= i <= |events|
      invariant Decide(events[i..], state) == Decide(events, state)
    {
      var e := events[i];
      assert events[i..][0] == e && events[i..][1..] == events[i + 1..];
      if e == QuitEvent {
        return Exit;
      }
      if state == GameOver && e.KeyDown? {
        if e.key == KeyY || e.key == KeyReturn {
          return Replay;
        }
        if e.key == KeyN || e.key == KeyEscape {
          return Decline;
        }
      }
      i := i + 1;
    }
    return Continue;
  }

  /** The state of one call of game_loop. */
  class Game {
    const left: Rect
    const right: Rect
    const ball: Rect
    var ballVel: Velocity
    var scoreL: int
    var scoreR: int
    var state: Phase

    /** The three rects are distinct objects. */
    ghost predicate Distinct()
      reads this
    {
      left != right && left != ball && right != ball
    }

    /** Distinct rects, and a state a match can reach. */
    ghost predicate Valid()
      reads this, left, right, ball
    {
      Distinct() && Inv(Snapshot())
    }

    function Snapshot(): World
      reads this, left, right, ball
    {
      World(left.Value(), right.Value(), ball.Value(), ballVel, scoreL, scoreR, state)
    }

    /** The set-up at the top of game_loop. */
    constructor (side: int, draw: ServeDraw)
      requires IsDirection(side) && ValidDraw(draw)
      ensures Valid() && Snapshot() == Initial(side, draw)
      ensures fresh(left) && fresh(right) && fresh(ball)
    {
      left := new Rect(LeftX, Height / 2 - PaddleH / 2, PaddleW, PaddleH);
      right := new Rect(RightX, Height / 2 - PaddleH / 2, PaddleW, PaddleH);
      ball := new Rect(0, 0, BallSize, BallSize);
      new;
      ballVel := ResetBall(ball, side, draw);
      scoreL, scoreR := 0, 0;
      state := Play;
    }

    /** The player's paddle: arrow keys, then clamp_ip against the screen. */
    method MoveHuman(up: bool, down: bool)
      requires IsPaddle(right.Value(), RightX)
      modifies right
      ensures right.Value() == HumanMove(old(right.Value()), up, down)
    {
      if up { right.y := right.y - PaddleSpeed; }
      if down { right.y := right.y + PaddleSpeed; }
      right.ClampIp(Screen);
    }

    /** The AI paddle: follows the ball's centre outside the dead zone, then clamp_ip. */
    method MoveAi()
      requires Distinct() && IsPaddle(left.Value(), LeftX) && IsBall(ball.Value())
      modifies left
      ensures left.Value() == AiMove(old(left.Value()), ball.Value())
    {
      if ball.CenterY() < left.CenterY() - DeadZone {
        left.y := left.y - AiSpeed;
      } else if ball.CenterY() > left.CenterY() + DeadZone {
        left.y := left.y + AiSpeed;
      }
      left.ClampIp(Screen);
    }

    /** The ball's move and the wall bounce. */
    method MoveBall()
      modifies ball, this`ballVel
      ensures ball.Value() == Advance(old(ball.Value()), old(ballVel))
      ensures ballVel == WallBounce(ball.Value(), old(ballVel))
    {
      ball.x := ball.x + ballVel.vx;
      ball.y := ball.y + ballVel.vy;
      if ball.Top() <= 0 || ball.Bottom() >= Height {
        ballVel := ballVel.(vy := -ballVel.vy);
      }
    }

    /** The paddle collisions, left paddle first. */
    method BouncePaddles() returns (leftHit: bool, rightHit: bool)
      requires IsBall(ball.Value()) && IsPaddle(left.Value(), LeftX) && IsPaddle(right.Value(), RightX)
      modifies this`ballVel
      ensures Bounce(ballVel, leftHit, rightHit)
              == PaddleBounce(ball.Value(), left.Value(), right.Value(), old(ballVel))
    {
      leftHit, rightHit := false, false;
      if ball.CollideRect(left) && ballVel.vx < 0 {
        ballVel := ballVel.(vx := -ballVel.vx);
        leftHit := true;
      }
      if ball.CollideRect(right) && ballVel.vx > 0 {
        ballVel := ballVel.(vx := -ballVel.vx);
        rightHit := true;
      }
    }

    /** Scoring at the side lines, each point followed by a serve to the other side. */
    method ScorePoints(draw: ServeDraw) returns (scored: bool)
      requires IsBall(ball.Value()) && ValidDraw(draw)
      modifies ball, this`ballVel, this`scoreL, this`scoreR
      ensures Rally(ball.Value(), ballVel, scoreL, scoreR, scored)
              == ScoreAndServe(old(ball.Value()), old(ballVel), old(scoreL), old(scoreR), draw)
    {
      scored := false;
      if ball.Left() <= 0 {
        scoreR := scoreR + 1;
        scored := true;
        ballVel := ResetBall(ball, 1, draw);
      }
      if ball.Right() >= Width {
        scoreL := scoreL + 1;
        scored := true;
        ballVel := ResetBall(ball, -1, draw);
      }
    }

    /** The update of one frame: in play, the paddles, the ball, the
        bounces, scoring and the win check; at game over, nothing. */
    method Tick(up: bool, down: bool, draw: ServeDraw) returns (cues: Cues)
      requires Valid() && ValidDraw(draw)
      modifies this, left, right, ball
      ensures Valid()
      ensures old(state) == Play ==>
                StepResult(Snapshot(), cues) == Step(old(Snapshot()), up, down, draw)
      ensures old(state) == GameOver ==> Snapshot() == old(Snapshot()) && cues == NoCues
    {
      cues := NoCues;
      if state == Play {
        ghost var w := Snapshot();
        StepKeepsInv(w, up, down, draw);
        MoveHuman(up, down);
        MoveAi();
        MoveBall();
        var leftHit, rightHit := BouncePaddles();
        var scored := ScorePoints(draw);
        if scoreL == WinScore || scoreR == WinScore {
          state := GameOver;
        }
        cues := Cues(leftHit, rightHit, scored);
      }
    }

    /** One pass of the `while True` loop of game_loop (frame pacing and
        drawing aside). */
    method Frame(input: FrameInput) returns (d: Decision, cues: Cues)
      requires Valid() && ValidInput(input)
      modifies this, left, right, ball
      ensures Valid()
      ensures FrameResult(d, Snapshot(), cues) == FrameStep(old(Snapshot()), input)
    {
      d := PollEvents(input.events, state);
      cues := NoCues;
      if d == Continue {
        cues := Tick(input.up, input.down, input.draw);
      }
    }
  }

  /** The program: `while game_loop(): pass`, each call of game_loop running
      frames until the process exits or a decision at game over ends the
      call; `frames` is the input of every frame, in order. */
  method RunSession(side: int, draw: ServeDraw, frames: seq<FrameInput>) returns (r: SessionResult)
    requires IsDirection(side) && ValidDraw(draw) && ValidInputs(frames)
    ensures r == Run(Initial(side, draw), frames)
  {
    var g := new Game(side, draw);
    var i := 0;
    while i < |frames|
      invariant 0 <= i <= |frames|
      invariant fresh(g) && fresh(g.left) && fresh(g.right) && fresh(g.ball)
      invariant g.Valid()
      invariant Run(g.Snapshot(), frames[i..]) == Run(Initial(side, draw), frames)
    {
      assert frames[i..][0] == frames[i] && frames[i..][1..] == frames[i + 1..];
      assert ValidInput(frames[i]);
      var d, cues := g.Frame(frames[i]);
      if d == Exit {
        return SessionResult(Exited, g.Snapshot());
      }
      if d == Decline {
        return SessionResult(Declined, g.Snapshot());
      }
      if d == Replay {
        g := new Game(frames[i].side, frames[i].draw);
      }
      i := i + 1;
    }
    return SessionResult(Running, g.Snapshot());
  }
}
