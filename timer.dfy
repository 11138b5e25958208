/** The 8-bit countdown timers (okto/src/timer.rs). */
module Timer {
  import opened Bits

  /** Ticks per second every countdown timer is driven at. */
  const TimerTickHz: nat := 60

  /** One tick of a countdown timer: down by one, resting at zero. */
  function Countdown(value: Byte): (r: Byte)
    ensures value > 0 ==> r + 1 == value
    ensures value == 0 ==> r == 0
  {
    if value > 0 then value - 1 else 0
  }

  /** The value after `n` ticks. */
  function Ticks(value: Byte, n: nat): Byte
  {
    if n == 0 then value else Countdown(Ticks(value, n - 1))
  }

  /** After `n` ticks a timer has counted `n` down, or reached zero and
      stayed there. */
  lemma {:induction false} TicksSaturate(value: Byte, n: nat)
    ensures Ticks(value, n) == if value >= n then value - n else 0
  {
    if n > 0 {
      TicksSaturate(value, n - 1);
    }
  }

  /** A timer loaded with `value` reaches zero after exactly `value` ticks. */
  lemma ExpiresAfterValueTicks(value: Byte)
    ensures Ticks(value, value) == 0
    ensures value > 0 ==> Ticks(value, value - 1) == 1
  {
    TicksSaturate(value, value);
    if value > 0 {
      TicksSaturate(value, value - 1);
    }
  }

  /** The delay timer. */
  class DelayTimer {
    var value: Byte

    /** A timer that is not counting down. */
    constructor ()
      ensures value == 0
    {
      value := 0;
    }

    method Tick()
      modifies this
      ensures value == Countdown(old(value))
    {
      if value > 0 {
        value := value - 1;
      }
    }
  }
}
