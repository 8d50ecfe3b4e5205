/**
 How an operation of the host may end. Every protocol below is stated against an environment that
 may refuse any operation and may let the process die just before or just after it.
*/
module Faults {

  datatype Option<+T> = None | Some(value: T)

  // How an operation ended for the process that asked for it. A refused operation throws.
  datatype Outcome = Done | Failed | Crashed {
    predicate IsFailure() {
      !Done?
    }
    function PropagateFailure(): Outcome
      requires IsFailure()
    {
      this
    }
  }

  // What surrounds the processes: it decides which operations take place.
  class Environment {
    // Whether an outside program may write the outputs.
    const hostile: bool
    // Operations refused or cut short so far.
    ghost var faults: nat

    constructor (hostile: bool)
      ensures this.hostile == hostile
    {
      this.hostile := hostile;
    }

    // How the next operation ends, and whether it takes effect first.
    method Decide() returns (o: Outcome, lands: bool)
      modifies this`faults
      ensures faults >= old(faults)
      ensures faults == old(faults) ==> o.Done?
      ensures o.Done? ==> lands
      ensures o.Failed? ==> !lands
    {
      if * {
        o, lands := Done, true;
      } else {
        faults := faults + 1;
        if * { o, lands := Failed, false; }
        else if * { o, lands := Crashed, false; }
        else { o, lands := Crashed, true; }
      }
    }
  }
}
