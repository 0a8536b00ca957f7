/** The simulation clock (src/gui/objects.py): a virtual time that a timer
    advances while the clock runs. Times are seconds on a real line; the
    timer itself is left out, so a tick is an explicit call. The signals
    the clock emits are recorded, in order, in a log. */
module Objects {
  import opened Wrappers

  /** A signal emission: `timeChanged`, `speedChanged` or `stateChanged`. */
  datatype Event = TimeChanged(time: real) | SpeedChanged(speed: real) | StateChanged(running: bool)

  /** The nominal timer period, in seconds, that every tick adds (scaled by
      the speed), whatever time really elapsed. */
  const TickSeconds: real := 0.033

  /** The clock's fields. */
  datatype Clock = Clock(currentTime: real, speed: real, running: bool)

  /** The state after one `_tick`. */
  function AfterTick(c: Clock): Clock {
    if !c.running then c else c.(currentTime := c.currentTime + c.speed * TickSeconds)
  }

  /** What one `_tick` emits: the new time, and only while running. */
  function TickEvents(c: Clock): seq<Event> {
    if c.running then [TimeChanged(AfterTick(c).currentTime)] else []
  }

  /** The state after `n` ticks. */
  function AfterTicks(c: Clock, n: nat): Clock {
    if n == 0 then c else AfterTick(AfterTicks(c, n - 1))
  }

  /** The state after `toggle`. */
  function Toggled(c: Clock): Clock {
    c.(running := !c.running)
  }

  /** A tick never changes the speed or the running flag. */
  lemma {:induction false} TicksKeepSpeedAndState(c: Clock, n: nat)
    ensures AfterTicks(c, n).speed == c.speed && AfterTicks(c, n).running == c.running
  {
    if n > 0 {
      TicksKeepSpeedAndState(c, n - 1);
    }
  }

  /** While paused, ticks change nothing and emit nothing. */
  lemma {:induction false} PausedTicks(c: Clock, n: nat)
    requires !c.running
    ensures AfterTicks(c, n) == c
    ensures TickEvents(c) == []
  {
    if n > 0 {
      PausedTicks(c, n - 1);
    }
  }

  /** While running, `n` ticks advance the time by exactly
      `n * speed * 0.033` seconds, each emitting the time it reached. */
  lemma {:induction false} RunningTicks(c: Clock, n: nat)
    requires c.running
    ensures AfterTicks(c, n) == c.(currentTime := c.currentTime + n as real * (c.speed * TickSeconds))
    ensures TickEvents(AfterTicks(c, n)) == [TimeChanged(c.currentTime + (n + 1) as real * (c.speed * TickSeconds))]
  {
    var step := c.speed * TickSeconds;
    if n > 0 {
      RunningTicks(c, n - 1);
      assert (n - 1) as real * step + step == n as real * step;
    }
    assert n as real * step + step == (n + 1) as real * step;
  }

  /** Ticks compose: `m` ticks then `n` ticks are `m + n` ticks. */
  lemma {:induction false} TicksCompose(c: Clock, m: nat, n: nat)
    ensures AfterTicks(AfterTicks(c, m), n) == AfterTicks(c, m + n)
  {
    if n > 0 {
      TicksCompose(c, m, n - 1);
    }
  }

  /** With a non-negative speed the virtual time never goes backwards. */
  lemma TicksMonotone(c: Clock, n: nat)
    requires c.speed >= 0.0
    ensures AfterTicks(c, n).currentTime >= c.currentTime
  {
    if c.running {
      RunningTicks(c, n);
      assert n as real * (c.speed * TickSeconds) >= 0.0;
    } else {
      PausedTicks(c, n);
    }
  }

  /** `toggle` flips the running flag, so toggling twice restores the
      state; it never touches the time or the speed. */
  lemma ToggleTwice(c: Clock)
    ensures Toggled(c).running != c.running
    ensures Toggled(Toggled(c)) == c
    ensures Toggled(c).currentTime == c.currentTime && Toggled(c).speed == c.speed
  {
  }

  /** `SimulationClock`. */
  class SimulationClock {
    var currentTime: real
    var speed: real
    var running: bool
    /** The signals emitted so far, oldest first. */
    var emitted: seq<Event>

    function State(): Clock
      reads this
    {
      Clock(currentTime, speed, running)
    }

    /** `SimulationClock(startTime)`: starts at `startTime`, or at `now` (the
        current UTC time, a parameter here) when none is given; speed 1 and
        paused. */
    constructor(startTime: Option<real>, now: real)
      ensures State() == Clock(if startTime.Some? then startTime.value else now, 1.0, false)
      ensures emitted == []
    {
      currentTime := if startTime.Some? then startTime.value else now;
      speed := 1.0;
      running := false;
      emitted := [];
    }

    /** `_tick()`. */
    method Tick()
      modifies this
      ensures State() == AfterTick(old(State()))
      ensures emitted == old(emitted) + TickEvents(old(State()))
    {
      if !running {
        return;
      }
      var delta := speed * 0.033;
      currentTime := currentTime + delta;
      emitted := emitted + [TimeChanged(currentTime)];
    }

    /** `play()`. */
    method Play()
      modifies this
      ensures State() == old(State()).(running := true)
      ensures emitted == old(emitted) + [StateChanged(true)]
    {
      running := true;
      emitted := emitted + [StateChanged(true)];
    }

    /** `pause()`. */
    method Pause()
      modifies this
      ensures State() == old(State()).(running := false)
      ensures emitted == old(emitted) + [StateChanged(false)]
    {
      running := false;
      emitted := emitted + [StateChanged(false)];
    }

    /** `toggle()`: `play` when paused, `pause` when running. */
    method Toggle()
      modifies this
      ensures State() == Toggled(old(State()))
      ensures emitted == old(emitted) + [StateChanged(!old(running))]
    {
      if !running {
        Play();
      } else {
        Pause();
      }
    }

    /** `setSpeed(speed)`. */
    method SetSpeed(newSpeed: real)
      modifies this
      ensures State() == old(State()).(speed := newSpeed)
      ensures emitted == old(emitted) + [SpeedChanged(newSpeed)]
    {
      speed := newSpeed;
      emitted := emitted + [SpeedChanged(newSpeed)];
    }

    /** `setTime(newTime)`: in either state. */
    method SetTime(newTime: real)
      modifies this
      ensures State() == old(State()).(currentTime := newTime)
      ensures emitted == old(emitted) + [TimeChanged(newTime)]
    {
      currentTime := newTime;
      emitted := emitted + [TimeChanged(currentTime)];
    }
  }
}
