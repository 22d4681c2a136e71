/** A monotone clock: readings never decrease, and a sleep lasts at least as long as asked. */
module Clock {

  class MonotonicClock {
    var time: real

    constructor ()
      ensures time == 0.0
    {
      time := 0.0;
    }

    /** Any amount of time may have passed since the last reading. */
    method Now() returns (now: real)
      modifies this
      ensures old(time) <= now == time
    {
      var passed: real := *;
      if passed > 0.0 { time := time + passed; }
      now := time;
    }

    method Sleep(seconds: real)
      requires seconds >= 0.0
      modifies this
      ensures time >= old(time) + seconds
    {
      var extra: real := *;
      time := time + seconds + (if extra > 0.0 then extra else 0.0);
    }
  }
}
