/** The shared cancellation flag: it can be set and read, never cleared. */
module Cancellation {

  class CancellationToken {
    var flag: bool

    constructor ()
      ensures !flag
    {
      flag := false;
    }

    method Cancel()
      modifies this
      ensures flag
    {
      flag := true;
    }

    method IsCancelled() returns (cancelled: bool)
      ensures cancelled == flag
    {
      cancelled := flag;
    }

    method PointsToSameFlag(other: CancellationToken) returns (same: bool)
      ensures same == (this == other)
    {
      same := this == other;
    }
  }
}
