# Falling Balls: the single-ball game simulation

The game is a canvas page on which one red ball moves along cubic Bézier
lanes. It first travels down the curvy **top** lane. It then takes
either the **left** or the **right** branch: a shared `nextLane` pointer
alternates between those two each time a ball leaves the top lane.

Pressing **H** on the idle screen starts a game. When the ball reaches the
end of a branch, holding **A** catches it. If **A** is not held, the game
is lost, and a lost game never starts again. While a ball is caught,
holding **H** drops it back to the top lane and consumes that key press.

Every animation frame computes the delta since the previous frame, then
advances the simulation by that delta and redraws the page. The running
screen shows the elapsed time as mm:ss.

This project models that simulation.

- Its state is the fields of the `Game` object.
- Its transitions are:
  - the start branch of the key-down listener;
  - the key-up listener;
  - `update(deltaTime)`;
  - the delta computation of `gameLoop`.

The fixed lane table is a constant of the model. So are the cubic Bézier
evaluator and the mm:ss arithmetic.

## Layout

- `geometry.dfy` (module `Geometry`): points and the Bézier evaluator, exactly in the source's Bernstein form. The lemmas prove its end points, its reversal symmetry, that a degenerate curve is constant, and the convex-hull bound: on [0, 1] the curve stays in any box holding its control points.
- `lanes.dfy` (module `Lanes`): the lane names (`Finished` is the caught ball's sentinel), the lane table built from the 800 by 600 canvas, the capped progress fraction `Math.min(1, time / duration)`, the point of a lane at a given time, and the left/right alternation.
- `session.dfy` (module `Session`): the game object's fields as one value, together with the functions that specify each transition.
  - The transitions are the start branch, key down and key up, the three blocks of `update`, `update` itself, and `gameLoop`'s delta.
  - The properties are proved about these functions. They include a well-formedness predicate that every transition preserves, and an invariant that holds for every state reached under a host clock that never runs backwards. They also show that a lost game is final, and that over a run of frames the elapsed time equals the span of the timestamps.
- `timer.dfy` (module `Timer`): the mm:ss split, with JavaScript's truncating `%`.
- `game.dfy` (module `FallingBalls`): `class Game` has the source's fields. For each handler and each block of `update` there is a method that updates the fields step by step, in the source's order. Each method is proved to leave the fields exactly as the matching `Session` function says.

## Behaviour at the edges

- **Zero-millisecond ticks.** A tick of zero milliseconds changes nothing, except on a caught ball while **H** is held: that tick drops the ball back to the top lane and consumes the key (`Session.ZeroTickIsIdle`, `Session.ZeroTickDropsPendingBall`).
- **Time in lane.** While the game runs, a moving ball's time in its lane stays below the lane's duration. The tick that loses the game leaves the ball Moving, with its time past the duration (`Session.LostBallOvershoots`).
- **A frame stamped before the start.** The start reads `performance.now()` into `lastTime`, and the next frame's delta is measured from it. A frame whose timestamp is earlier than that reading gives a negative delta: the game runs with a negative elapsed time and the ball above the canvas (`Session.FrameBeforeStart`).

`FallingBalls.StartAndLeaveTop` is a usage example of the class, not part of the game. It starts a game, lets the top lane run out, and checks that the ball is on the left branch.

## Model

| member | source | states |
|---|---|---|
| Geometry.Cubic | game.js:67-73 | one coordinate of the cubic Bézier curve in Bernstein form: it equals the first control value at t = 0 and the last at t = 1 |
| Geometry.BezierPoint | game.js:67-76 | the curve point, axis by axis: exactly p0 at t = 0 and exactly p3 at t = 1 |
| Geometry.BernsteinWeights | game.js:68-73 | on [0, 1] the four Bernstein weights, grouped as the evaluator groups them, are non-negative and sum to one |
| Geometry.CubicConstant | game.js:67-73 | a curve whose control values all coincide is that constant for every t |
| Geometry.CubicReversed | game.js:67-73 | reading the control values backwards at 1 - t gives the same value |
| Geometry.CubicBounded | game.js:67-73 | convex hull: on [0, 1] the coordinate stays between any bounds of its four control values |
| Geometry.WeightedBetween | game.js:72-73 | a convex combination of four values in [lo, hi] lies in [lo, hi] |
| Geometry.WeightedAtLeast | game.js:72-73 | with non-negative weights the weighted sum is at least the total weight times a lower bound |
| Geometry.BezierReversed | game.js:67-76 | the reversed control polygon at 1 - t gives the same point |
| Geometry.BezierConstant | game.js:67-76 | a degenerate curve stays at its single point |
| Geometry.BezierInBox | game.js:67-76 | on [0, 1] the curve point lies in any box holding the four control points |
| Lanes.Path | game.js:35-57 | the lane table: every lane has a positive duration, and all its control points lie on the 800 by 600 canvas |
| Lanes.BranchesStartAtSplit | game.js:40-51 | the left and right lanes both start at the end point of the top lane |
| Lanes.Progress | game.js:116 | the capped fraction is at most 1; it is exactly 1 precisely when the time has reached the duration; below that it is the exact fraction; and it is non-negative for a non-negative time |
| Lanes.LanePoint | game.js:115-124 | a ball 0 ms into a lane is at the lane's p0, once the duration is reached it is at p3, and for any non-negative time it is on the canvas |
| Lanes.Alternate | game.js:134 | the pointer after a flip is always a branch, and the other branch than before |
| Session.Initial | game.js:10-32 | the constructed state is well-formed, idle, undecided and holds no key |
| Session.Start | game.js:84-98 | a start makes the game run with an undecided outcome, elapsed time 0, the pointer on left, and the ball moving at the top lane's p0 with time 0; the keys and the label are kept |
| Session.KeyDown | game.js:80-98 | after a key press the key is held and the label shown; the press starts a game exactly when it is H on an idle, undecided game, and then the state is the started one (elapsed time 0, the clock reading stored, the pointer on left, the ball moving at the top lane's p0 with time 0); any other press changes nothing else; well-formedness is kept |
| Session.KeyUp | game.js:101-104 | after a release the key is not held and the label is cleared, and nothing else changes |
| Session.MoveOnTop | game.js:114-135 | a ball on the top lane before the end advances by the delta and is drawn at its point of the lane; at the end it moves to the lane `nextLane` named, with time 0, at that lane's p0, and the pointer flips |
| Session.MoveOnBranch | game.js:136-186 | a ball on a branch before the end advances; at the end, with A up the game stops and is lost with the ball at the branch's p3; with A held the ball is caught at p3 on the Finished sentinel |
| Session.DropCaught | game.js:187-198 | with H held the caught ball goes back to the top lane's start, moving, with time 0, and H is consumed; otherwise nothing changes |
| Session.Tick | game.js:107-199 | an idle tick changes nothing; a running tick adds the delta to the elapsed time. The tick touches no key except the consumed H and keeps well-formedness. The pointer flips exactly when the ball leaves the top lane. The outcome changes only to lost, at a branch end with A up. After a tick that keeps the game running, a moving ball is inside its lane's duration. A caught ball with H up changes nothing but the clock |
| Session.TickKeepsInvariant | game.js:107-199 | a tick with a non-negative delta keeps the invariant: the elapsed time is non-negative, and a running moving ball is strictly inside its lane's duration and drawn at the point it has reached |
| Session.Frame | game.js:295-301 | a frame stores its timestamp; if the game is idle nothing else changes; if it runs, the elapsed time grows by the difference from the previous timestamp; well-formedness is kept |
| Session.KeyEventsTouchOneKey | game.js:80-104 | a press or a release changes whether that key is held and no other key |
| Session.InitialInvariant | game.js:10-32 | the constructed state satisfies the invariant |
| Session.StartInvariant | game.js:84-98 | a freshly started game satisfies the invariant whatever came before |
| Session.KeyDownKeepsInvariant | game.js:80-98 | key presses keep the invariant |
| Session.KeyUpKeepsInvariant | game.js:101-104 | key releases keep the invariant |
| Session.FrameKeepsInvariant | game.js:295-301 | a frame whose timestamp is not earlier than the previous one keeps the invariant |
| Session.Apply | game.js:80-104 | any single host event keeps the pointer on a branch and keeps well-formedness |
| Session.Run | game.js:295-306 | any sequence of host events keeps the pointer on a branch and keeps well-formedness |
| Session.MonotoneWeaken | game.js:297-298 | a clock sequence that is monotone from some time is also monotone from any earlier time |
| Session.RunKeepsInvariant | game.js:80-199 | every state reached from an invariant state, with a clock that never runs backwards, satisfies the invariant |
| Session.ReachableInvariant | game.js:2-199 | every state reachable from construction under a monotone host clock satisfies the invariant |
| Session.LostIsFinal | game.js:84-108 | once lost and stopped, no sequence of events restarts the game, and the ball, its lane, its state and the elapsed time stay frozen |
| Session.FramesDoNotStart | game.js:107-108 | on an idle game, frames change nothing but the stored timestamp |
| Session.FramesElapsed | game.js:295-301 | over a run of frames that ends with the game running, the elapsed time grows by exactly the last timestamp minus the timestamp before the run |
| Session.StartForgetsHistory | game.js:84-98 | two starts at the same instant give states that differ at most in the held keys and the label |
| Session.ZeroTickIsIdle | game.js:107-199 | a zero-millisecond tick changes nothing on an invariant state unless it drops a caught ball |
| Session.ZeroTickDropsPendingBall | game.js:187-198 | a zero-millisecond tick on a caught ball with H held does change the state (the ball returns to the top lane's p0), and then a second zero tick changes nothing |
| Session.LostBallOvershoots | game.js:136-160 | a tick that overshoots a branch end with A up stops the game with the ball still moving and its time in lane past the duration |
| Session.FrameBeforeStart | game.js:84-109 | a frame stamped 1 ms before the start's clock reading keeps the game running with elapsed time and time in lane -1, puts the ball above the canvas and breaks the invariant; the clock then reads -1:-1 |
| Session.FirstExitGoesLeft | game.js:84-135 | after starting, a frame one top-lane duration later puts the ball at the start of the left lane with time 0, with the pointer on right and the game running |
| Timer.JsRemainder | game.js:229 | JavaScript's truncating remainder: for a non-negative dividend it is in [0, b), for a negative one in (-b, 0], and the dividend minus it is a multiple of b |
| Timer.FloorOfQuotient | game.js:228 | flooring the real quotient by a positive integer is the Euclidean integer quotient |
| Timer.Clock | game.js:227-229 | for a non-negative elapsed time the reading has non-negative minutes, seconds in [0, 60), and minutes times 60 plus seconds equals the whole seconds elapsed |
| Timer.ClockBeforeZero | game.js:227-229 | 5 ms before zero reads as minute -1 and second -1, a reading that does not recombine to the whole seconds |
| FallingBalls.Game.constructor | game.js:2-32 | the constructed object is well-formed and its fields are the initial state |
| FallingBalls.Game.KeyDown | game.js:80-98 | the key-down listener leaves the fields exactly as `Session.KeyDown` says and keeps well-formedness |
| FallingBalls.Game.Start | game.js:85-97 | the start assignments leave the fields exactly as `Session.Start` says |
| FallingBalls.Game.KeyUp | game.js:101-104 | the key-up listener leaves the fields exactly as `Session.KeyUp` says |
| FallingBalls.Game.Update | game.js:107-199 | `update` leaves the fields exactly as `Session.Tick` says and keeps well-formedness |
| FallingBalls.Game.MoveOnTop | game.js:114-135 | the top-lane block leaves the fields exactly as `Session.MoveOnTop` says |
| FallingBalls.Game.MoveOnBranch | game.js:136-186 | the branch blocks leave the fields exactly as `Session.MoveOnBranch` says |
| FallingBalls.Game.DropCaught | game.js:187-198 | the caught block leaves the fields exactly as `Session.DropCaught` says |
| FallingBalls.Game.GameLoop | game.js:295-301 | `gameLoop` without its rendering leaves the fields exactly as `Session.Frame` says and keeps well-formedness |

## Left out

- Rendering (game.js:201-293, except the mm:ss arithmetic): canvas and context drawing is output only and changes no game field. The `canvas` and `ctx` fields are not modelled.
- The mm:ss formatting with `padStart` (game.js:230): `Timer.Clock` stops at the two integers that the formatting prints.
- Host scheduling and event wiring: `requestAnimationFrame`, `performance.now()` and `window.addEventListener` (game.js:63, 80, 86, 101, 305, 310-312). Timestamps, the clock reading at a start, and the key events are parameters of the methods and functions instead.
- `toLowerCase`/`toUpperCase` on key names (game.js:81-82). The key arrives already lower-cased and the label already upper-cased, as the parameters `key` and `display`.
- Floating point. Coordinates, times and the Bézier evaluation are exact reals, and the `t === 1` test is exact equality of the capped fraction with 1.
- The `'won'` outcome is mentioned in a comment at game.js:16 and never set. `Outcome` has only `Undecided` (the source's `null`) and `Lost`.
- The ball is stored as a `Point` value that the methods replace. The source instead assigns `ball.x` and `ball.y` on a mutable object. Nothing in the core aliases that object. `ballRadius` and `ballColor` are constant fields.
- JavaScript truthiness of `keys['a']` and `keys['h']`: the map holds only booleans, so a key counts as held exactly when it is present and true.
- Session.RunKeepsInvariant, Session.ReachableInvariant: these assume that every clock reading in the event sequence is at least the one before it, across both clocks the game mixes. The host keeps each clock monotone on its own: animation-frame timestamps never decrease, and neither does `performance.now()`. It does not order a `performance.now()` read in the key-down handler (game.js:86) before the timestamp of the next frame (game.js:297), which may be taken when that frame begins. So the first frame after a start may get a small negative delta, which these lemmas exclude; `Session.FrameBeforeStart` shows what such a frame does. `Timer.ClockBeforeZero` shows the reading a negative elapsed time gives.
