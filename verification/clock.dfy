/**
 The frame clock of src/js/Tools/Time.js. Wall-clock readings (`Date.now()`,
 integer milliseconds) are parameters; `requestAnimationFrame` scheduling is
 left out. A tick measures the time since the previous tick, caps it at one
 60 Hz frame, and fires the `tick` event only while playing.
 */
module Clock {

  /** The longest frame a tick reports: `(1 / 60) * 1000` milliseconds. */
  const MaxDelta: real := 1000.0 / 60.0

  datatype Clock = Clock(start: int, current: int, elapsed: int, delta: real, playing: bool)

  datatype Ticked = Ticked(clock: Clock, fired: bool)

  /** `tick`. */
  function Tick(c: Clock, now: int): (t: Ticked)
    ensures t.clock.current == now && t.clock.elapsed == now - c.start
    ensures t.clock.start == c.start && t.clock.playing == c.playing
    ensures t.clock.delta <= MaxDelta
    ensures (now - c.current) as real <= MaxDelta ==> t.clock.delta == (now - c.current) as real
    ensures (now - c.current) as real > MaxDelta ==> t.clock.delta == MaxDelta
    ensures t.fired == c.playing
  {
    var delta := (now - c.current) as real;
    var capped := if delta > MaxDelta then MaxDelta else delta;
    Ticked(Clock(c.start, now, now - c.start, capped, c.playing), c.playing)
  }

  /** The constructor, which reads the time once for `start` and ticks once
      straight away. */
  function Create(startNow: int, firstTick: int): (t: Ticked)
    ensures t.clock.start == startNow && t.clock.current == firstTick
    ensures t.clock.playing && t.fired
  {
    Tick(Clock(startNow, startNow, 0, 16.0, true), firstTick)
  }

  /** `play`. */
  function Play(c: Clock): (r: Clock)
    ensures r.playing
    ensures r.start == c.start && r.current == c.current && r.elapsed == c.elapsed && r.delta == c.delta
  {
    c.(playing := true)
  }

  /** `pause`. */
  function Pause(c: Clock): (r: Clock)
    ensures !r.playing
    ensures r.start == c.start && r.current == c.current && r.elapsed == c.elapsed && r.delta == c.delta
  {
    c.(playing := false)
  }

  /** A paused clock keeps measuring time but fires no `tick`; `play`
      resumes firing, and neither changes what a tick measures. */
  lemma PauseSilencesTicks(c: Clock, now: int)
    ensures !Tick(Pause(c), now).fired && Tick(Play(c), now).fired
    ensures Tick(Pause(c), now).clock.delta == Tick(c, now).clock.delta == Tick(Play(c), now).clock.delta
    ensures Play(Pause(c)) == Play(c) && Pause(Play(c)) == Pause(c)
  {
  }

  /** Ticks at each reading in turn; the sum of the reported deltas is
      accumulated in `total`. */
  function TickAll(c: Clock, readings: seq<int>, total: real): (Clock, real)
    decreases |readings|
  {
    if readings == [] then (c, total)
    else
      var t := Tick(c, readings[0]);
      TickAll(t.clock, readings[1..], total + t.clock.delta)
  }

  ghost predicate NonDecreasing(from: int, readings: seq<int>)
  {
    && (forall i :: 0 <= i < |readings| ==> from <= readings[i])
    && (forall i, j :: 0 <= i <= j < |readings| ==> readings[i] <= readings[j])
  }

  /** With a clock that never goes backwards, every reported delta lies in
      [0, MaxDelta] and the sum of the reported deltas never exceeds the
      wall-clock time that passed: the simulation can fall behind real
      time, never run ahead of it. `elapsed` always tracks the last reading. */
  lemma {:induction false} DeltasNeverOutrunWallTime(c: Clock, readings: seq<int>, total: real)
    requires NonDecreasing(c.current, readings)
    requires 0.0 <= c.delta <= MaxDelta
    ensures 0.0 <= TickAll(c, readings, total).0.delta <= MaxDelta
    ensures readings != [] ==> TickAll(c, readings, total).1 - total <= (readings[|readings| - 1] - c.current) as real
    ensures readings != [] ==> TickAll(c, readings, total).0.elapsed == readings[|readings| - 1] - c.start
    ensures TickAll(c, readings, total).1 >= total
    decreases |readings|
  {
    if readings != [] {
      var t := Tick(c, readings[0]);
      assert NonDecreasing(t.clock.current, readings[1..]);
      DeltasNeverOutrunWallTime(t.clock, readings[1..], total + t.clock.delta);
    }
  }
}
