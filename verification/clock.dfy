/** A clock that is read at arbitrary moments and does not go back. */
module Clocks {
  class Clock {
    var now: nat

    constructor () { now := 0; }

    method Now() returns (t: nat)
      modifies this
      ensures old(now) <= now == t
    {
      var later: nat :| now <= later;
      now := later;
      t := now;
    }
  }
}
