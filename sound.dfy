/** The sound subsystem: a countdown timer that sounds while it is non-zero
    (okto/src/sound.rs). */
module Sound {
  import opened Bits
  import Timer

  const SoundTimerTickHz: nat := 60

  class Sound {
    var timer: Byte

    /** A sound system that is silent. */
    constructor ()
      ensures timer == 0
    {
      timer := 0;
    }

    method Tick()
      modifies this
      ensures timer == Timer.Countdown(old(timer))
    {
      if timer > 0 {
        timer := timer - 1;
      }
    }
  }
}
