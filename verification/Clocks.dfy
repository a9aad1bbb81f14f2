/** Time as both back ends see it. */
module Clocks {
  import opened Machine

  /** The source of time.  Any function can be installed as the clock of an engine; a steady clock never
      goes back. */
  class Clock {
    const steady: bool
    var last: Time

    constructor (start: Time, steady: bool)
      ensures last == start && this.steady == steady
    {
      this.steady := steady;
      last := start;
    }

    method Now() returns (t: Time)
      modifies this
      ensures last == t && (steady ==> old(last) <= t)
    {
      var passed :| steady ==> 0 <= passed;
      last := last + passed;
      t := last;
    }

    /** The bounds of the readings taken since the clock stood at t.  For a clock that may go back they are
        out of order, which says nothing of the readings. */
    ghost function From(t: Time): Time {
      if steady then t else 1
    }

    ghost function To(): Time
      reads this
    {
      if steady then last else 0
    }
  }
}
