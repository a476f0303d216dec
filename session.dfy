/** The game's state as a value and its transitions as functions: the start
    branch of the key-down handler, the key-up handler, the per-frame
    `update`, and `gameLoop`'s delta computation. The class in game.dfy is
    proved to follow these functions; the properties of the game are proved
    here, about them. */
module Session {
  import opened Geometry
  import opened Lanes
  import opened Timer

  datatype BallState = Moving | Caught

  /** `gameOutcome`: Undecided stands for the source's null. */
  datatype Outcome = Undecided | Lost

  /** Every field of the game object that the simulation reads or writes. */
  datatype GameState = GameState(
    running: bool,
    lastTime: real,
    elapsedTime: real,
    gameOutcome: Outcome,
    keys: map<string, bool>,
    currentKeyPressed: string,
    ball: Point,
    ballLane: LaneName,
    ballTimeInLane: real,
    nextLane: LaneName,
    ballState: BallState)

  /** Starts the game from the idle screen and drops a caught ball. */
  const StartKey: string := "h"
  /** Catches a ball at the end of either branch. */
  const CatchKey: string := "a"

  /** A key counts as held when it is mapped to true; a key never seen is
      not held. */
  predicate KeyHeld(keys: map<string, bool>, key: string)
  {
    key in keys && keys[key]
  }

  /** The fields as the constructor leaves them. */
  function Initial(): (s: GameState)
    ensures WellFormed(s)
    ensures !s.running && s.gameOutcome == Undecided
    ensures forall k :: !KeyHeld(s.keys, k)
  {
    GameState(false, 0.0, 0.0, Undecided, map[], "", Point(0.0, 0.0), Top, 0.0, Left, Moving)
  }

  /** What every state of the game satisfies, whatever the deltas: the
      alternation pointer names a branch, a ball is caught exactly when it is
      on the Finished sentinel, and a lost game is not running. */
  predicate WellFormed(s: GameState)
  {
    IsBranch(s.nextLane) &&
    (s.ballState == Caught <==> s.ballLane == Finished) &&
    (s.gameOutcome == Lost ==> !s.running)
  }

  /** What every state reached with non-negative deltas satisfies on top of
      WellFormed: the elapsed time is non-negative and, while the game runs,
      a moving ball is strictly inside its lane's duration and drawn at the
      point of its lane it has reached. */
  predicate Invariant(s: GameState)
  {
    WellFormed(s) &&
    s.elapsedTime >= 0.0 &&
    (s.running && s.ballState == Moving ==>
       s.ballLane != Finished &&
       0.0 <= s.ballTimeInLane < Path(s.ballLane).duration &&
       s.ball == LanePoint(s.ballLane, s.ballTimeInLane))
  }

  /** The start branch of the key-down handler: a new game with the ball at
      the top of the Top lane and Left as the first branch. */
  function Start(s: GameState, now: real): (r: GameState)
    ensures WellFormed(r)
    ensures r.running && r.gameOutcome == Undecided
    ensures r.elapsedTime == 0.0 && r.lastTime == now && r.nextLane == Left
    ensures r.ballLane == Top && r.ballTimeInLane == 0.0 && r.ballState == Moving
    ensures r.ball == Path(Top).p0
    ensures r.keys == s.keys && r.currentKeyPressed == s.currentKeyPressed
  {
    s.(running := true, lastTime := now, elapsedTime := 0.0, gameOutcome := Undecided,
       nextLane := Left, ballLane := Top, ballTimeInLane := 0.0, ballState := Moving,
       ball := Path(Top).p0)
  }

  /** Whether a key-down of `key` in state `s` starts a game. */
  predicate StartsGame(s: GameState, key: string)
  {
    key == StartKey && !s.running && s.gameOutcome == Undecided
  }

  /** The key-down handler: records the key as held and `display` as the
      label shown on screen, then starts a game if the start key was pressed
      on the idle screen. `key` arrives lower-cased and `display` upper-cased;
      `now` is the host clock. */
  function KeyDown(s: GameState, key: string, display: string, now: real): (r: GameState)
    ensures KeyHeld(r.keys, key)
    ensures r.currentKeyPressed == display
    ensures StartsGame(s, key) <==> r.running && !s.running
    ensures StartsGame(s, key) ==>
      r.elapsedTime == 0.0 && r.lastTime == now && r.nextLane == Left && r.gameOutcome == Undecided &&
      r.ballLane == Top && r.ballTimeInLane == 0.0 && r.ballState == Moving && r.ball == Path(Top).p0
    ensures !StartsGame(s, key) ==> r.(keys := s.keys, currentKeyPressed := s.currentKeyPressed) == s
    ensures WellFormed(s) ==> WellFormed(r)
  {
    var pressed := s.(keys := s.keys[key := true], currentKeyPressed := display);
    if key == StartKey && !pressed.running && pressed.gameOutcome == Undecided then
      Start(pressed, now)
    else
      pressed
  }

  /** The key-up handler: the key is no longer held and the label is cleared. */
  function KeyUp(s: GameState, key: string): (r: GameState)
    ensures !KeyHeld(r.keys, key)
    ensures r.currentKeyPressed == ""
    ensures r.(keys := s.keys, currentKeyPressed := s.currentKeyPressed) == s
  {
    s.(keys := s.keys[key := false], currentKeyPressed := "")
  }

  /** A moving ball on Top advances by dt. On reaching the end it switches to
      the branch `nextLane` names, at that branch's start (which is Top's
      end), and the pointer flips to the other branch. */
  function MoveOnTop(s: GameState, dt: real): (r: GameState)
    requires IsBranch(s.nextLane)
    ensures var time := s.ballTimeInLane + dt;
      time < Path(Top).duration ==>
        r == s.(ballTimeInLane := time, ball := LanePoint(Top, time))
    ensures s.ballTimeInLane + dt >= Path(Top).duration ==>
      r == s.(ballLane := s.nextLane, ballTimeInLane := 0.0, ball := Path(s.nextLane).p0,
              nextLane := Alternate(s.nextLane))
  {
    var time := s.ballTimeInLane + dt;
    var t := Progress(time, Path(Top).duration);
    var moved := s.(ballTimeInLane := time, ball := LanePoint(Top, time));
    if t == 1.0 then
      BranchesStartAtSplit();
      moved.(ballLane := s.nextLane, ballTimeInLane := 0.0, ball := Path(s.nextLane).p0,
             nextLane := Alternate(s.nextLane))
    else
      moved
  }

  /** A moving ball on a branch advances by dt. On reaching the end it stays
      at the branch's end point and the game is lost unless the catch key is
      held, in which case the ball is caught. */
  function MoveOnBranch(s: GameState, dt: real): (r: GameState)
    requires IsBranch(s.ballLane)
    ensures var time := s.ballTimeInLane + dt;
      time < Path(s.ballLane).duration ==>
        r == s.(ballTimeInLane := time, ball := LanePoint(s.ballLane, time))
    ensures var time := s.ballTimeInLane + dt;
      time >= Path(s.ballLane).duration && !KeyHeld(s.keys, CatchKey) ==>
        r == s.(ballTimeInLane := time, ball := Path(s.ballLane).p3,
                running := false, gameOutcome := Lost)
    ensures var time := s.ballTimeInLane + dt;
      time >= Path(s.ballLane).duration && KeyHeld(s.keys, CatchKey) ==>
        r == s.(ballTimeInLane := time, ball := Path(s.ballLane).p3,
                ballState := Caught, ballLane := Finished)
  {
    var time := s.ballTimeInLane + dt;
    var t := Progress(time, Path(s.ballLane).duration);
    var currentPoint := LanePoint(s.ballLane, time);
    var moved := s.(ballTimeInLane := time, ball := currentPoint);
    if t == 1.0 then
      if !KeyHeld(s.keys, CatchKey) then
        moved.(running := false, gameOutcome := Lost)
      else
        moved.(ballState := Caught, ball := currentPoint, ballLane := Finished)
    else
      moved
  }

  /** A caught ball is dropped back to the start of Top while the start key
      is held, and that key press is consumed. */
  function DropCaught(s: GameState): (r: GameState)
    ensures KeyHeld(s.keys, StartKey) ==>
      r == s.(ballLane := Top, ballTimeInLane := 0.0, ballState := Moving,
              ball := LanePoint(Top, 0.0), keys := s.keys[StartKey := false])
    ensures !KeyHeld(s.keys, StartKey) ==> r == s
  {
    if KeyHeld(s.keys, StartKey) then
      s.(ballLane := Top, ballTimeInLane := 0.0, ballState := Moving,
         ball := Path(Top).p0, keys := s.keys[StartKey := false])
    else
      s
  }

  /** `update(deltaTime)`: nothing happens unless the game runs; otherwise the
      elapsed time grows by dt and the ball advances or is dropped. */
  function Tick(s: GameState, dt: real): (r: GameState)
    requires IsBranch(s.nextLane)
    ensures !s.running ==> r == s
    ensures s.running ==> r.elapsedTime == s.elapsedTime + dt
    ensures r.lastTime == s.lastTime && r.currentKeyPressed == s.currentKeyPressed
    // the only key the tick touches is the consumed start key
    ensures r.keys == s.keys || r.keys == s.keys[StartKey := false]
    ensures WellFormed(s) ==> WellFormed(r)
    // the alternation pointer flips exactly when the ball leaves Top
    ensures r.nextLane != s.nextLane <==>
      s.running && s.ballState == Moving && s.ballLane == Top && r.ballLane != Top
    // a game is lost only at the end of a branch with the catch key up
    ensures r.gameOutcome != s.gameOutcome ==>
      r.gameOutcome == Lost && s.ballState == Moving && IsBranch(s.ballLane) &&
      r.ball == Path(s.ballLane).p3 && !KeyHeld(s.keys, CatchKey)
    // after a tick that keeps the game running, a moving ball is inside its lane's duration
    ensures WellFormed(s) && s.running && r.running && r.ballState == Moving ==>
      r.ballLane != Finished && r.ballTimeInLane < Path(r.ballLane).duration
    // a caught ball with the start key up stays put; only the clock advances
    ensures s.running && s.ballState == Caught && !KeyHeld(s.keys, StartKey) ==>
      r == s.(elapsedTime := s.elapsedTime + dt)
  {
    if !s.running then
      s
    else
      var s1 := s.(elapsedTime := s.elapsedTime + dt);
      match s1.ballState
      case Moving =>
        (match s1.ballLane
         case Top => MoveOnTop(s1, dt)
         case Left => MoveOnBranch(s1, dt)
         case Right => MoveOnBranch(s1, dt)
         case Finished => s1)
      case Caught => DropCaught(s1)
  }

  /** A tick with a non-negative delta keeps the invariant. */
  lemma TickKeepsInvariant(s: GameState, dt: real)
    requires Invariant(s) && dt >= 0.0
    ensures Invariant(Tick(s, dt))
  {
  }

  /** `gameLoop(timestamp)`: the delta is measured from the previous
      timestamp, which is then replaced by this one before the tick. */
  function Frame(s: GameState, timestamp: real): (r: GameState)
    requires IsBranch(s.nextLane)
    ensures r.lastTime == timestamp
    ensures !s.running ==> r == s.(lastTime := timestamp)
    ensures s.running ==> r.elapsedTime == s.elapsedTime + (timestamp - s.lastTime)
    ensures WellFormed(s) ==> WellFormed(r)
  {
    Tick(s.(lastTime := timestamp), timestamp - s.lastTime)
  }

  /** A key press or release changes whether that key is held and no other. */
  lemma KeyEventsTouchOneKey(s: GameState, key: string, display: string, now: real)
    ensures var r := KeyDown(s, key, display, now);
      KeyHeld(r.keys, key) && forall k :: k != key ==> KeyHeld(r.keys, k) == KeyHeld(s.keys, k)
    ensures var r := KeyUp(s, key);
      !KeyHeld(r.keys, key) && forall k :: k != key ==> KeyHeld(r.keys, k) == KeyHeld(s.keys, k)
  {
  }

  /** The constructor's state satisfies the invariant. */
  lemma InitialInvariant()
    ensures Invariant(Initial())
  {
  }

  /** A started game satisfies the invariant, whatever came before. */
  lemma StartInvariant(s: GameState, now: real)
    ensures Invariant(Start(s, now))
  {
  }

  /** Key presses keep the invariant. */
  lemma KeyDownKeepsInvariant(s: GameState, key: string, display: string, now: real)
    requires Invariant(s)
    ensures Invariant(KeyDown(s, key, display, now))
  {
    if !StartsGame(s, key) {
      assert KeyDown(s, key, display, now) == s.(keys := s.keys[key := true], currentKeyPressed := display);
    }
  }

  /** Key releases keep the invariant. */
  lemma KeyUpKeepsInvariant(s: GameState, key: string)
    requires Invariant(s)
    ensures Invariant(KeyUp(s, key))
  {
  }

  /** A frame whose timestamp is not before the previous one keeps the
      invariant. */
  lemma FrameKeepsInvariant(s: GameState, timestamp: real)
    requires Invariant(s) && timestamp >= s.lastTime
    ensures Invariant(Frame(s, timestamp))
  {
    TickKeepsInvariant(s.(lastTime := timestamp), timestamp - s.lastTime);
  }

  /** What the host delivers to the game: key presses with their normalised
      key, display label and clock reading, key releases, and animation
      frames with their timestamp. */
  datatype Event =
    | KeyPress(key: string, display: string, now: real)
    | KeyRelease(key: string)
    | AnimationFrame(timestamp: real)

  function Apply(s: GameState, e: Event): (r: GameState)
    requires IsBranch(s.nextLane)
    ensures IsBranch(r.nextLane)
    ensures WellFormed(s) ==> WellFormed(r)
  {
    match e
    case KeyPress(key, display, now) => KeyDown(s, key, display, now)
    case KeyRelease(key) => KeyUp(s, key)
    case AnimationFrame(timestamp) => Frame(s, timestamp)
  }

  /** The state after the events `es`, in order. */
  function Run(s: GameState, es: seq<Event>): (r: GameState)
    requires IsBranch(s.nextLane)
    ensures IsBranch(r.nextLane)
    ensures WellFormed(s) ==> WellFormed(r)
    decreases |es|
  {
    if es == [] then s else Run(Apply(s, es[0]), es[1..])
  }

  /** The clock readings carried by `es` never decrease and none is below
      `t0`. */
  predicate MonotoneFrom(t0: real, es: seq<Event>)
    decreases |es|
  {
    es == [] ||
    match es[0]
    case KeyRelease(_) => MonotoneFrom(t0, es[1..])
    case KeyPress(_, _, now) => t0 <= now && MonotoneFrom(now, es[1..])
    case AnimationFrame(timestamp) => t0 <= timestamp && MonotoneFrom(timestamp, es[1..])
  }

  lemma {:induction false} MonotoneWeaken(a: real, b: real, es: seq<Event>)
    requires b <= a && MonotoneFrom(a, es)
    ensures MonotoneFrom(b, es)
    decreases |es|
  {
    if es != [] && es[0].KeyRelease? {
      MonotoneWeaken(a, b, es[1..]);
    }
  }

  /** With a host clock that never runs backwards, every state reached from
      an invariant state satisfies the invariant. */
  lemma {:induction false} RunKeepsInvariant(s: GameState, es: seq<Event>)
    requires Invariant(s) && MonotoneFrom(s.lastTime, es)
    ensures Invariant(Run(s, es))
    decreases |es|
  {
    if es != [] {
      var s1 := Apply(s, es[0]);
      match es[0] {
        case KeyPress(key, display, now) =>
          KeyDownKeepsInvariant(s, key, display, now);
          if !StartsGame(s, key) {
            MonotoneWeaken(now, s.lastTime, es[1..]);
          }
        case KeyRelease(key) =>
          KeyUpKeepsInvariant(s, key);
        case AnimationFrame(timestamp) =>
          FrameKeepsInvariant(s, timestamp);
      }
      RunKeepsInvariant(s1, es[1..]);
    }
  }

  /** Every state a game reaches from construction under a monotone host
      clock satisfies the invariant. */
  lemma ReachableInvariant(es: seq<Event>)
    requires MonotoneFrom(Initial().lastTime, es)
    ensures Invariant(Run(Initial(), es))
  {
    InitialInvariant();
    RunKeepsInvariant(Initial(), es);
  }

  /** A lost game is final: no sequence of key presses, releases or frames
      makes it run again, and the ball, its lane and the clock stay frozen. */
  lemma {:induction false} LostIsFinal(s: GameState, es: seq<Event>)
    requires IsBranch(s.nextLane) && s.gameOutcome == Lost && !s.running
    ensures Run(s, es).gameOutcome == Lost && !Run(s, es).running
    ensures Run(s, es).ball == s.ball && Run(s, es).ballLane == s.ballLane
    ensures Run(s, es).ballState == s.ballState && Run(s, es).elapsedTime == s.elapsedTime
    decreases |es|
  {
    if es != [] {
      LostIsFinal(Apply(s, es[0]), es[1..]);
    }
  }

  predicate AllFrames(es: seq<Event>)
  {
    forall i :: 0 <= i < |es| ==> es[i].AnimationFrame?
  }

  /** Frames alone never start a game. */
  lemma {:induction false} FramesDoNotStart(s: GameState, es: seq<Event>)
    requires IsBranch(s.nextLane) && AllFrames(es) && !s.running
    ensures Run(s, es) == s.(lastTime := Run(s, es).lastTime)
    decreases |es|
  {
    if es != [] {
      FramesDoNotStart(Apply(s, es[0]), es[1..]);
    }
  }

  /** While a game keeps running through a run of frames, the elapsed time
      grows by exactly the span from the timestamp before the run to the
      last one: each tick's delta is the difference of consecutive
      timestamps. */
  lemma {:induction false} FramesElapsed(s: GameState, es: seq<Event>)
    requires IsBranch(s.nextLane) && AllFrames(es) && |es| > 0
    requires Run(s, es).running
    ensures Run(s, es).elapsedTime == s.elapsedTime + (es[|es| - 1].timestamp - s.lastTime)
    decreases |es|
  {
    var s1 := Apply(s, es[0]);
    assert Run(s, es) == Run(s1, es[1..]);
    if !s.running {
      FramesDoNotStart(s1, es[1..]);
    } else if |es| > 1 {
      if !s1.running {
        FramesDoNotStart(s1, es[1..]);
      } else {
        FramesElapsed(s1, es[1..]);
        assert es[1..][|es[1..]| - 1] == es[|es| - 1];
      }
    }
  }

  /** Starting a game forgets the previous one: two starts at the same
      instant differ at most in the held keys and the displayed label. */
  lemma StartForgetsHistory(s: GameState, s': GameState, now: real)
    ensures Start(s, now).(keys := s'.keys, currentKeyPressed := s'.currentKeyPressed)
         == Start(s', now)
  {
  }

  /** A tick of zero milliseconds changes nothing unless it drops a caught
      ball. */
  lemma ZeroTickIsIdle(s: GameState)
    requires Invariant(s)
    requires !(s.ballState == Caught && KeyHeld(s.keys, StartKey))
    ensures Tick(s, 0.0) == s
  {
  }

  /** A zero-millisecond tick is not idle on a caught ball while the start
      key is held: the ball is dropped back to Top and the key consumed. So
      repeated zero ticks leave the ball where it is only when no drop is
      pending. */
  lemma ZeroTickDropsPendingBall(s: GameState)
    requires Invariant(s) && s.running && s.ballState == Caught
    requires KeyHeld(s.keys, StartKey)
    ensures Tick(s, 0.0) != s
    ensures Tick(s, 0.0).ballLane == Top && Tick(s, 0.0).ball == Path(Top).p0
    ensures Tick(Tick(s, 0.0), 0.0) == Tick(s, 0.0)
  {
    TickKeepsInvariant(s, 0.0);
    ZeroTickIsIdle(Tick(s, 0.0));
  }

  /** The bound on the time in lane holds only while the game runs: a tick
      that overshoots the end of a branch with the catch key up stops the
      game with the ball still Moving and its time past the lane's duration. */
  lemma LostBallOvershoots(s: GameState, dt: real)
    requires WellFormed(s) && s.running && s.ballState == Moving && IsBranch(s.ballLane)
    requires !KeyHeld(s.keys, CatchKey)
    requires s.ballTimeInLane + dt > Path(s.ballLane).duration
    ensures var r := Tick(s, dt);
      !r.running && r.gameOutcome == Lost && r.ballState == Moving &&
      r.ballTimeInLane > Path(r.ballLane).duration
  {
  }

  /** A frame stamped before the clock reading of the start gives the first
      tick a negative delta: the game runs on with a negative elapsed time,
      the ball is drawn above the canvas, and the invariant is broken. */
  lemma FrameBeforeStart()
    ensures var s := Frame(KeyDown(Initial(), StartKey, "H", 1000.0), 999.0);
      s.running && s.elapsedTime == -1.0 && s.ballTimeInLane == -1.0 &&
      s.ball.y < 0.0 && !Invariant(s) && Clock(s.elapsedTime) == ClockReading(-1, -1)
  {
    var s0 := KeyDown(Initial(), StartKey, "H", 1000.0);
    var s := Frame(s0, 999.0);
    assert s == s0.(lastTime := 999.0, elapsedTime := -1.0, ballTimeInLane := -1.0,
                    ball := LanePoint(Top, -1.0));
    var t := Progress(-1.0, Path(Top).duration);
    assert t == -1.0 / 3000.0;
    assert s.ball.y == Cubic(t, 0.0, 60.0, 240.0, 300.0);
    FloorOfQuotient(-1, 60);
  }

  /** The fresh game leaves Top for Left after Top's duration, and the next
      ball is routed to Right. */
  lemma FirstExitGoesLeft(now: real)
    ensures var s := Frame(KeyDown(Initial(), StartKey, "H", now), now + Path(Top).duration);
      s.running && s.ballLane == Left && s.ballTimeInLane == 0.0 &&
      s.ball == Path(Left).p0 && s.nextLane == Right
  {
  }
}
