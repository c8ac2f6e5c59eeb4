/** The two-state machine that tracks whether a capture is open. */
module CaptureStates {
  import opened Captures

  datatype CaptureState = Started(at: nat) | Ended {

    predicate IsEnded()
      ensures IsEnded() <==> !Started?
    {
      Ended?
    }

    /** Opens a capture at `index`; only allowed when no capture is open. */
    function Start(index: nat): (r: CaptureState)
      requires IsEnded()
      ensures !r.IsEnded() && r.at == index
    {
      Started(index)
    }

    /** Closes the open capture at `endIndex` and gives the range it covered.
        Forming `at..<endIndex` requires `at <= endIndex`. */
    function End(endIndex: nat): (r: (CaptureState, Range))
      requires Started? && at <= endIndex
      ensures r.0.IsEnded()
      ensures r.1.lower == at && r.1.upper == endIndex && r.1.lower <= r.1.upper
    {
      (Ended, Bounds(at, endIndex))
    }
  }

  /** Opening at `s` and closing at `e` returns to the closed state and
      yields exactly `s..<e`. */
  lemma StartEndRoundTrip(cs: CaptureState, s: nat, e: nat)
    requires cs.IsEnded() && s <= e
    ensures cs.Start(s).End(e) == (cs, Bounds(s, e))
  {
  }
}
