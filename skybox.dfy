/** The day/night clock (src/skybox.rs). Times are exact: the four setter constants are
    whole seconds, which `Duration::from_secs_f32` represents without rounding, and the clock
    counts nanoseconds like `Duration`. */
module Skybox {
  const DAY_LENGTH: real := 1200.0
  const SUNRISE: real := 0.0
  const SUNSET: real := DAY_LENGTH / 2.0
  const MIDNIGHT: real := DAY_LENGTH * 0.75
  const NOON: real := DAY_LENGTH * 0.25

  const NANOS_PER_SECOND: nat := 1_000_000_000

  /** `Duration::from_secs_f32` for a non-negative time: the nearest whole number of
      nanoseconds, a tie going to the even one. */
  function SecondsToNanos(seconds: real): (nanos: nat)
    requires 0.0 <= seconds
    ensures nanos as real - 0.5 <= seconds * NANOS_PER_SECOND as real <= nanos as real + 0.5
    ensures seconds * NANOS_PER_SECOND as real - (nanos as real - 0.5) == 0.0 ==> nanos % 2 == 0
    ensures seconds * NANOS_PER_SECOND as real - (nanos as real + 0.5) == 0.0 ==> nanos % 2 == 0
  {
    var exact := seconds * NANOS_PER_SECOND as real;
    var below := exact.Floor;
    var fraction := exact - below as real;
    if fraction < 0.5 then below
    else if fraction > 0.5 then below + 1
    else if below % 2 == 0 then below
    else below + 1
  }

  /** The times of day in their order through a day, all within one day. */
  lemma TimesOfDayOrdered()
    ensures 0.0 == SUNRISE < NOON < SUNSET < MIDNIGHT < DAY_LENGTH == 1200.0
    ensures NOON == 300.0 && SUNSET == 600.0 && MIDNIGHT == 900.0
  {
  }

  /** `Clock`: the time since sunrise of day zero. */
  class Clock {
    var time: nat

    /** `Clock::default()`. */
    constructor ()
      ensures time == 0
    {
      time := 0;
    }

    method SetSunrise()
      modifies this
      ensures time == 0
    {
      time := SecondsToNanos(SUNRISE);
    }

    method SetNoon()
      modifies this
      ensures time == 300 * NANOS_PER_SECOND
    {
      time := SecondsToNanos(NOON);
    }

    method SetSunset()
      modifies this
      ensures time == 600 * NANOS_PER_SECOND
    {
      time := SecondsToNanos(SUNSET);
    }

    method SetMidnight()
      modifies this
      ensures time == 900 * NANOS_PER_SECOND
    {
      time := SecondsToNanos(MIDNIGHT);
    }

    /** The clock update of `day_night_cycle`: the frame's elapsed time is added, so the
        clock never runs backwards. */
    method Tick(delta: nat)
      modifies this
      ensures time == old(time) + delta
      ensures old(time) <= time
    {
      time := time + delta;
    }
  }
}
