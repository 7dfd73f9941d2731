/**
 * game_engine.script.Script: the frame clock scripts share (delta time,
 * elapsed time, frames per second and its running minimum and maximum).
 * The source keeps these in static fields; here they are one `FrameClock`
 * object, and the System.nanoTime reading is a parameter.
 */
module Scripting {
  import opened Num

  /** lastFrameNanoTime's "no frame yet" value. */
  const NO_FRAME: int := -1
  const NANOS_PER_SECOND: real := 1000000000.0
  /** 2^63: a Java long difference is below this. */
  const LONG_RANGE: int := 0x8000_0000_0000_0000

  datatype ClockState = ClockState(
    lastFrameNanoTime: int, deltaTime: real, time: real,
    fps: real, fpsMin: real, fpsMax: real)

  /** A reading `now` that `updateDeltaTime` can take from state `s`. */
  predicate LaterReading(s: ClockState, now: int)
  {
    s.lastFrameNanoTime == NO_FRAME || now > s.lastFrameNanoTime
  }

  /**
   * The state after `updateDeltaTime()` reads `now`: the first reading only
   * records the time; a later one measures the frame, and the running
   * minimum and maximum then bracket the new fps.
   */
  function Ticked(s: ClockState, now: int): (r: ClockState)
    requires LaterReading(s, now)
    ensures r.lastFrameNanoTime == now
    ensures s.lastFrameNanoTime == NO_FRAME ==> r == s.(lastFrameNanoTime := now)
    ensures s.lastFrameNanoTime != NO_FRAME ==>
      && r.deltaTime > 0.0 && r.deltaTime * NANOS_PER_SECOND == (now - s.lastFrameNanoTime) as real
      && r.time == s.time + r.deltaTime && r.time > s.time
      && r.fps * r.deltaTime == 1.0
      && r.fpsMin <= r.fps <= r.fpsMax
      && r.fpsMin <= s.fpsMin && r.fpsMax >= s.fpsMax
      && (r.fpsMin == s.fpsMin || r.fpsMin == r.fps) && (r.fpsMax == s.fpsMax || r.fpsMax == r.fps)
  {
    if s.lastFrameNanoTime == NO_FRAME then s.(lastFrameNanoTime := now)
    else
      var deltaTime := (now - s.lastFrameNanoTime) as real / NANOS_PER_SECOND;
      var fps := 1.0 / deltaTime;
      ClockState(now, deltaTime, s.time + deltaTime, fps, MinR(s.fpsMin, fps), MaxR(s.fpsMax, fps))
  }

  /** `resetStats()`: only the minimum and maximum go back to their sentinels. */
  function Reset(s: ClockState): (r: ClockState)
    ensures r.fpsMin == FLOAT_MAX && r.fpsMax == FLOAT_MIN
    ensures r.(fpsMin := s.fpsMin, fpsMax := s.fpsMax) == s
  {
    s.(fpsMin := FLOAT_MAX, fpsMax := FLOAT_MIN)
  }

  /**
   * The first measured frame after a reset sets both the minimum and the
   * maximum to its fps: a frame of at least 1 ns and less than 2^63 ns has
   * an fps between Float.MIN_VALUE and Float.MAX_VALUE.
   */
  lemma {:induction false} FirstFrameAfterReset(s: ClockState, now: int)
    requires s.lastFrameNanoTime != NO_FRAME && now > s.lastFrameNanoTime
    requires now - s.lastFrameNanoTime < LONG_RANGE
    ensures var r := Ticked(Reset(s), now);
      r.fpsMin == r.fps && r.fpsMax == r.fps && r.fps <= NANOS_PER_SECOND
  {
    var d := (now - s.lastFrameNanoTime) as real;
    var deltaTime := d / NANOS_PER_SECOND;
    assert 1.0 <= d < LONG_RANGE as real;
    assert 1.0 / NANOS_PER_SECOND <= deltaTime < 10000000000.0;
    ReciprocalAntitone(1.0 / NANOS_PER_SECOND, deltaTime);
    ReciprocalAntitone(deltaTime, 10000000000.0);
    assert 1.0 / (1.0 / NANOS_PER_SECOND) == NANOS_PER_SECOND;
    assert FLOAT_MIN < 1.0 / 10000000000.0;
  }

  class FrameClock {
    var lastFrameNanoTime: int
    var deltaTime: real
    var time: real
    var fps: real
    var fpsMin: real
    var fpsMax: real

    function State(): ClockState
      reads this
    {
      ClockState(lastFrameNanoTime, deltaTime, time, fps, fpsMin, fpsMax)
    }

    /** The static initial values: no frame yet, zeros, and the min/max sentinels. */
    constructor ()
      ensures State() == ClockState(NO_FRAME, 0.0, 0.0, 0.0, FLOAT_MAX, FLOAT_MIN)
    {
      lastFrameNanoTime := NO_FRAME;
      deltaTime := 0.0;
      time := 0.0;
      fps := 0.0;
      fpsMin := FLOAT_MAX;
      fpsMax := FLOAT_MIN;
    }

    /** `updateDeltaTime()` with System.nanoTime() supplied as `now`. */
    method UpdateDeltaTime(now: int)
      requires LaterReading(State(), now)
      modifies this
      ensures State() == Ticked(old(State()), now)
    {
      var currentTime := now;
      if lastFrameNanoTime != NO_FRAME {
        deltaTime := (currentTime - lastFrameNanoTime) as real / NANOS_PER_SECOND;
        time := time + deltaTime;
        fps := 1.0 / deltaTime;
        if fps < fpsMin {
          fpsMin := fps;
        }
        if fps > fpsMax {
          fpsMax := fps;
        }
      }
      lastFrameNanoTime := currentTime;
    }

    /** `resetStats()`. */
    method ResetStats()
      modifies this
      ensures State() == Reset(old(State()))
    {
      fpsMin := FLOAT_MAX;
      fpsMax := FLOAT_MIN;
    }
  }
}
