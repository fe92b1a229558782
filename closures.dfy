/**
 * The closure exercise: a multiplying closure, and a closure that captures a
 * counter by mutable reference and increments it on each call. The captured
 * counter is modelled as an object whose field the call updates.
 */
module Closures {
  import opened RustInt

  /** The `operation` closure: the product of its two `i32` arguments (overflow would panic). */
  function Operation(a: I32, b: I32): I32
    requires IsI32(a * b)
  {
    a * b
  }

  /** `operation(10, 5)` is 50. */
  lemma OperationExample()
    ensures Operation(10, 5) == 50
  {
  }

  /** The `tracker` variable captured by the `update` closure. */
  class Tracker {
    var count: I32

    /** `let mut tracker = 0;` */
    constructor ()
      ensures count == 0
    {
      count := 0;
    }

    /** One call of `update`: `tracker += 1`. */
    method Update()
      requires count < I32_MAX
      modifies this
      ensures count == old(count) + 1
    {
      count := count + 1;
    }
  }

  /** `track_changes`: two calls of `update` leave the tracker at 2. */
  method TrackChanges() returns (tracker: I32)
    ensures tracker == 2
  {
    var t := new Tracker();
    t.Update();
    t.Update();
    tracker := t.count;
  }
}
