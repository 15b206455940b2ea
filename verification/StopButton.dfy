/** The cancellation of a run. The user may press Stop at any moment; a run only knows what it has polled. */
module StopButtons {

  class StopButton {
    var pressed: bool
    ghost var seen: bool

    ghost predicate Valid()
      reads this
    {
      seen ==> pressed
    }

    constructor ()
      ensures Valid() && !seen
    {
      pressed, seen := false, false;
    }

    /** Once pressed it stays pressed. */
    method Poll() returns (stopped: bool)
      requires Valid()
      modifies this
      ensures Valid() && seen == stopped && (old(pressed) ==> stopped)
    {
      var now: bool := *;
      pressed := pressed || now;
      stopped := pressed;
      seen := stopped;
    }
  }
}
