/**
 The danger front of src/js/World/DangerManager.js: a boundary that
 advances by `delta * speed` per frame, with a speed that ramps linearly in
 the time since the session started, and that ends the game when it reaches
 the trailing player. The camera projection is an input (`projectedX`, the
 projected screen x); only the clamp of the post-process progress is kept.
 */
module Danger {
  import opened Wrappers
  import opened Session
  import opened Lives

  const BaseSpeed: real := 0.0005
  const SpeedRamp: real := 0.0000001

  datatype Danger = Danger(x: real)

  /** `init`: the front starts 60% of the total width behind the origin. */
  function Init(totalWidth: real): (d: Danger)
    ensures totalWidth > 0.0 ==> d.x < 0.0
    ensures d.x * 5.0 == -3.0 * totalWidth
  {
    Danger(-totalWidth * 0.6)
  }

  /** Time since the session started, or 0 before it has. */
  function Elapsed(store: Store, current: int): (e: int)
    ensures store.startTime == None ==> e == 0
    ensures store.startTime.Some? ==> e + store.startTime.value == current
  {
    match store.startTime
    case None => 0
    case Some(t) => current - t
  }

  /** The speed ramp: increasing in elapsed time, and at least the base speed
      once the session has started. */
  function Speed(elapsed: int): (s: real)
    ensures elapsed >= 0 ==> s >= BaseSpeed
  {
    BaseSpeed + elapsed as real * SpeedRamp
  }

  lemma SpeedIsNonDecreasing(earlier: int, later: int)
    requires earlier <= later
    ensures Speed(earlier) <= Speed(later)
  {
  }

  /** `Math.min(Math.max(v, 0), 1)`. */
  function Clamp01(v: real): (c: real)
    ensures 0.0 <= c <= 1.0
    ensures 0.0 <= v <= 1.0 ==> c == v
    ensures v < 0.0 ==> c == 0.0
    ensures v > 1.0 ==> c == 1.0
  {
    if v < 0.0 then 0.0 else if v > 1.0 then 1.0 else v
  }

  datatype Update = Update(danger: Danger, progress: real)

  /** `updatePosition`: advance the front and map the projected screen x to a
      progress value in [0, 1]. */
  function UpdatePosition(d: Danger, store: Store, current: int, delta: real, projectedX: real): (u: Update)
    ensures u.danger.x - d.x == delta * Speed(Elapsed(store, current))
    ensures delta >= 0.0 && Elapsed(store, current) >= 0 ==> u.danger.x >= d.x
    ensures 0.0 <= u.progress <= 1.0
    ensures -1.0 <= projectedX <= 1.0 ==> u.progress * 2.0 == projectedX + 1.0
  {
    var speed := Speed(Elapsed(store, current));
    Update(Danger(d.x + delta * speed), Clamp01(projectedX * 0.5 + 0.5))
  }

  /** `checkLoose`: if not already lost, the trailing player caught by the
      front loses the game. */
  function CheckLoose(d: Danger, o: Outcome, x1: real, x2: real): (r: Outcome)
    ensures o.store.hasLost ==> r == o
    ensures !o.store.hasLost && (x1 <= d.x || x2 <= d.x) ==> r == Loose(o)
    ensures !o.store.hasLost && x1 > d.x && x2 > d.x ==> r == o
  {
    if o.store.hasLost then o
    else
      var playerX := if x1 <= x2 then x1 else x2;
      if playerX - d.x <= 0.0 then Loose(o) else o
  }

  /** What one frame of the danger front sees: clock readings, the projected
      screen x, and the two players' x positions. */
  datatype Frame = Frame(current: int, delta: real, projectedX: real, x1: real, x2: real)

  datatype Rendered = Rendered(danger: Danger, outcome: Outcome, progress: Option<real>)

  /** `render`: idle until the session started or was lost. */
  function Render(d: Danger, o: Outcome, f: Frame): (r: Rendered)
    ensures !o.store.started && !o.store.hasLost ==> r == Rendered(d, o, None)
    ensures o.store.started || o.store.hasLost ==>
      var u := UpdatePosition(d, o.store, f.current, f.delta, f.projectedX);
      r.danger == u.danger && r.progress == Some(u.progress)
        && r.outcome == CheckLoose(u.danger, o, f.x1, f.x2)
  {
    if !o.store.started && !o.store.hasLost then Rendered(d, o, None)
    else
      var u := UpdatePosition(d, o.store, f.current, f.delta, f.projectedX);
      Rendered(u.danger, CheckLoose(u.danger, o, f.x1, f.x2), Some(u.progress))
  }

  function RenderFrames(d: Danger, o: Outcome, frames: seq<Frame>): Rendered
    decreases |frames|
  {
    if frames == [] then Rendered(d, o, None)
    else
      var r := Render(d, o, frames[0]);
      if |frames| == 1 then r else RenderFrames(r.danger, r.outcome, frames[1..])
  }

  /** Frames whose clock never runs backwards relative to the session start. */
  ghost predicate ForwardFrames(store: Store, frames: seq<Frame>)
  {
    forall i :: 0 <= i < |frames| ==> frames[i].delta >= 0.0 && Elapsed(store, frames[i].current) >= 0
  }

  /** Over any run of frames the front never moves back while time moves
      forward, the game is ended by the front at most once, and the session
      flags other than `hasLost` are untouched. */
  lemma {:induction false} FrontIsMonotoneAndEndsOnce(d: Danger, o: Outcome, frames: seq<Frame>)
    requires ForwardFrames(o.store, frames)
    ensures RenderFrames(d, o, frames).danger.x >= d.x
    ensures RenderFrames(d, o, frames).outcome.endGames <= o.endGames + 1
    ensures o.store.hasLost ==> RenderFrames(d, o, frames).outcome == o
    ensures RenderFrames(d, o, frames).outcome.store.startTime == o.store.startTime
    decreases |frames|
  {
    if frames != [] {
      var r := Render(d, o, frames[0]);
      assert ForwardFrames(r.outcome.store, frames[1..]) by {
        forall i | 0 <= i < |frames[1..]|
          ensures frames[1..][i].delta >= 0.0 && Elapsed(r.outcome.store, frames[1..][i].current) >= 0
        {
          assert frames[1..][i] == frames[i + 1];
        }
      }
      FrontIsMonotoneAndEndsOnce(r.danger, r.outcome, frames[1..]);
      if r.outcome.endGames > o.endGames {
        assert r.outcome.store.hasLost;
      }
    }
  }
}
