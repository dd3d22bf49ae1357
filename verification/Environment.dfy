/**
  Everything whose outcome the program cannot predict: malloc, FFmpeg, the file system, the network.
  Each attempt succeeds or fails freely; `faults` counts the failures.
 */
module Environment {
  class Env {
    var faults: nat

    constructor ()
      ensures faults == 0
    {
      faults := 0;
    }

    method Try() returns (ok: bool)
      modifies this
      ensures faults == old(faults) + if ok then 0 else 1
    {
      ok := *;
      if !ok {
        faults := faults + 1;
      }
    }
  }
}
