/** The fixed lane table of the game: three Bézier lanes on an 800 by 600
    canvas, the progress fraction along a lane, and the alternation between
    the two branch lanes. */
module Lanes {
  import opened Geometry

  /** The lanes a ball can be on; Finished is the sentinel of a caught ball
      and has no geometry. */
  datatype LaneName = Top | Left | Right | Finished

  /** A lane: the control points of its cubic Bézier curve and the time, in
      milliseconds, a ball takes to traverse it. */
  datatype LaneDef = LaneDef(p0: Point, p1: Point, p2: Point, p3: Point, duration: real)

  const CanvasWidth: real := 800.0
  const CanvasHeight: real := 600.0

  /** The two lanes a ball leaving Top can be routed to. */
  predicate IsBranch(lane: LaneName)
  {
    lane == Left || lane == Right
  }

  /** The lane table, built from the canvas size. */
  function Path(lane: LaneName): (d: LaneDef)
    requires lane != Finished
    ensures d.duration > 0.0
    ensures InBox(d.p0, 0.0, CanvasWidth, 0.0, CanvasHeight) && InBox(d.p1, 0.0, CanvasWidth, 0.0, CanvasHeight)
    ensures InBox(d.p2, 0.0, CanvasWidth, 0.0, CanvasHeight) && InBox(d.p3, 0.0, CanvasWidth, 0.0, CanvasHeight)
  {
    var w, h := CanvasWidth, CanvasHeight;
    match lane
    case Top =>
      LaneDef(Point(w / 2.0, 0.0),
              Point(w / 2.0 + 150.0, h * 0.1),
              Point(w / 2.0 - 150.0, h * 0.4),
              Point(w / 2.0, h / 2.0),
              3000.0)
    case Left =>
      LaneDef(Point(w / 2.0, h / 2.0),
              Point(w / 2.0 - 100.0, h * 0.6),
              Point(w / 2.0 - 250.0, h * 0.8),
              Point(w / 2.0 - 300.0, h),
              3000.0)
    case Right =>
      LaneDef(Point(w / 2.0, h / 2.0),
              Point(w / 2.0 + 300.0, h * 0.55),
              Point(w / 2.0 - 200.0, h * 0.75),
              Point(w / 2.0 + 250.0, h),
              5000.0)
  }

  /** Both branches start exactly where Top ends, so a ball switching from
      Top to a branch does not jump. */
  lemma BranchesStartAtSplit()
    ensures Path(Left).p0 == Path(Top).p3
    ensures Path(Right).p0 == Path(Top).p3
  {
  }

  /** The fraction of a lane of the given duration covered after `time`
      milliseconds, capped at 1 (the game's Math.min(1, time / duration)). */
  function Progress(time: real, duration: real): (t: real)
    requires duration > 0.0
    ensures t <= 1.0
    ensures t == 1.0 <==> time >= duration
    ensures time <= duration ==> t * duration == time
    ensures time >= 0.0 ==> t >= 0.0
  {
    var f := time / duration;
    if f < 1.0 then f else 1.0
  }

  /** Where a ball `time` milliseconds into a lane is drawn. */
  function LanePoint(lane: LaneName, time: real): (p: Point)
    requires lane != Finished
    ensures time == 0.0 ==> p == Path(lane).p0
    ensures time >= Path(lane).duration ==> p == Path(lane).p3
    ensures time >= 0.0 ==> InBox(p, 0.0, CanvasWidth, 0.0, CanvasHeight)
  {
    var d := Path(lane);
    var t := Progress(time, d.duration);
    var p := BezierPoint(t, d.p0, d.p1, d.p2, d.p3);
    if time >= 0.0 then
      BezierInBox(t, d.p0, d.p1, d.p2, d.p3, 0.0, CanvasWidth, 0.0, CanvasHeight);
      p
    else
      p
  }

  /** The branch that follows `lane` in the alternation: Right after Left,
      Left after anything else. */
  function Alternate(lane: LaneName): (r: LaneName)
    ensures IsBranch(r)
    ensures IsBranch(lane) ==> r != lane
  {
    if lane == Left then Right else Left
  }
}
