/** A cancellation flag another thread may raise at any moment. */
module Cancellation {

  /** The flag is up when it has been raised since it was last lowered. */
  class CancelFlag {
    /** How often the flag has been raised. */
    var raises: nat
    /** How often it had been raised when it was last lowered. */
    var lowered: nat

    constructor ()
      ensures !Raised()
    {
      raises, lowered := 0, 0;
    }

    predicate Raised()
      reads this
    {
      lowered < raises
    }

    /** Loads the flag. Whether it has been raised meanwhile is not up to the reader. */
    method Poll() returns (canceled: bool)
      modifies this`raises
      ensures old(raises) <= raises
      ensures canceled == Raised()
    {
      var meanwhile: bool := *;
      raises := raises + (if meanwhile then 1 else 0);
      canceled := Raised();
    }

    /** Forgets what was raised before. */
    method Lower()
      modifies this`lowered
      ensures !Raised() && lowered <= raises
    {
      lowered := raises;
    }
  }
}
