/** The `Game` object: its fields, the key handlers, `update` and
    `gameLoop`, each updating the fields step by step and proved to leave
    them as the matching function of the Session module says. */
module FallingBalls {
  import opened Geometry
  import opened Lanes
  import opened Session

  class Game {
    var running: bool
    var lastTime: real
    var elapsedTime: real
    var gameOutcome: Outcome
    var keys: map<string, bool>
    var currentKeyPressed: string
    /** The ball's centre (`ball.x`, `ball.y`); its radius and colour never change. */
    var ball: Point
    const ballRadius: real := 10.0
    const ballColor: string := "red"
    var ballLane: LaneName
    var ballTimeInLane: real
    var nextLane: LaneName
    var ballState: BallState

    /** The fields as one value. */
    function State(): GameState
      reads this
    {
      GameState(running, lastTime, elapsedTime, gameOutcome, keys, currentKeyPressed,
                ball, ballLane, ballTimeInLane, nextLane, ballState)
    }

    /** The object invariant: the fields form a well-formed game state. */
    ghost predicate Valid()
      reads this
    {
      WellFormed(State())
    }

    constructor ()
      ensures Valid()
      ensures State() == Initial()
    {
      running := false;
      lastTime := 0.0;
      elapsedTime := 0.0;
      gameOutcome := Undecided;
      keys := map[];
      currentKeyPressed := "";
      ball := Point(0.0, 0.0);
      ballLane := Top;
      ballTimeInLane := 0.0;
      nextLane := Left;
      ballState := Moving;
    }

    /** The key-down listener. */
    method KeyDown(key: string, display: string, now: real)
      requires Valid()
      modifies this
      ensures Valid()
      ensures State() == Session.KeyDown(old(State()), key, display, now)
    {
      keys := keys[key := true];
      currentKeyPressed := display;
      if key == StartKey && !running && gameOutcome == Undecided {
        Start(now);
      }
    }

    /** The start branch of the key-down listener; `now` is the host clock. */
    method Start(now: real)
      modifies this
      ensures Valid()
      ensures State() == Session.Start(old(State()), now)
    {
      var startPoint := Path(Top).p0;
      running, lastTime, elapsedTime, gameOutcome := true, now, 0.0, Undecided;
      nextLane, ballLane, ballTimeInLane, ballState, ball := Left, Top, 0.0, Moving, startPoint;
    }

    /** The key-up listener. */
    method KeyUp(key: string)
      requires Valid()
      modifies this
      ensures Valid()
      ensures State() == Session.KeyUp(old(State()), key)
    {
      keys := keys[key := false];
      currentKeyPressed := "";
    }

    /** `update(deltaTime)`. */
    method Update(deltaTime: real)
      requires Valid()
      modifies this
      ensures Valid()
      ensures State() == Tick(old(State()), deltaTime)
    {
      if !running {
        return;
      }
      elapsedTime := elapsedTime + deltaTime;
      if ballState == Moving {
        if ballLane == Top {
          MoveOnTop(deltaTime);
        } else if ballLane == Left || ballLane == Right {
          MoveOnBranch(deltaTime);
        }
      } else if ballState == Caught {
        DropCaught();
      }
    }

    /** The Top block of `update`: advance, and at the end of Top switch to
        the branch `nextLane` names and flip `nextLane`. */
    method MoveOnTop(deltaTime: real)
      requires Valid() && ballLane == Top
      modifies this
      ensures State() == Session.MoveOnTop(old(State()), deltaTime)
    {
      ballTimeInLane := ballTimeInLane + deltaTime;
      var t := Progress(ballTimeInLane, Path(Top).duration);
      ball := LanePoint(Top, ballTimeInLane);
      if t == 1.0 {
        ballLane := nextLane;
        ballTimeInLane := 0.0;
        ball := Path(nextLane).p0;
        nextLane := Alternate(nextLane);
      }
    }

    /** The Left and Right blocks of `update`: advance, and at the end of the
        branch either lose the game or catch the ball. */
    method MoveOnBranch(deltaTime: real)
      requires IsBranch(ballLane)
      modifies this
      ensures State() == Session.MoveOnBranch(old(State()), deltaTime)
    {
      ballTimeInLane := ballTimeInLane + deltaTime;
      var t := Progress(ballTimeInLane, Path(ballLane).duration);
      var currentPoint := LanePoint(ballLane, ballTimeInLane);
      ball := currentPoint;
      if t == 1.0 {
        if !KeyHeld(keys, CatchKey) {
          running := false;
          gameOutcome := Lost;
        } else {
          ballState := Caught;
          ball := currentPoint;
          ballLane := Finished;
        }
      }
    }

    /** The caught block of `update`: drop the ball while the start key is
        held, consuming the key press. */
    method DropCaught()
      modifies this
      ensures State() == Session.DropCaught(old(State()))
    {
      if KeyHeld(keys, StartKey) {
        ballLane := Top;
        ballTimeInLane := 0.0;
        ballState := Moving;
        var startPoint := Path(Top).p0;
        ball := startPoint;
        keys := keys[StartKey := false];
      }
    }

    /** `gameLoop(timestamp)` without the rendering and the rescheduling. */
    method GameLoop(timestamp: real)
      requires Valid()
      modifies this
      ensures Valid()
      ensures State() == Frame(old(State()), timestamp)
    {
      var deltaTime := timestamp - lastTime;
      lastTime := timestamp;
      Update(deltaTime);
    }
  }

  /** A client of the class: start, let Top run out, and see the ball taken
      to Left with Right queued next. */
  method StartAndLeaveTop()
  {
    var game := new Game();
    game.KeyDown(StartKey, "H", 1000.0);
    game.GameLoop(1000.0 + Path(Top).duration);
    FirstExitGoesLeft(1000.0);
    assert game.ballLane == Left && game.nextLane == Right;
    assert game.ball == Path(Left).p0 && game.running;
  }
}
