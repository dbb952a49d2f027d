/** The day hashes kept: the most recent ones, up to the cap. */
module Hashes {
  const HASHES_KEPT := 400

  function Capped(hashes: seq<int>): seq<int> {
    if |hashes| > HASHES_KEPT then hashes[|hashes| - HASHES_KEPT..] else hashes
  }

  /** Drops the oldest hashes beyond the cap and moves the first retained day on by as many. */
  method Trim(hashes: seq<int>, first: nat) returns (kept: seq<int>, first': nat)
    ensures kept == Capped(hashes) && first' == first + |hashes| - |kept|
  {
    kept, first' := hashes, first;
    if |hashes| > HASHES_KEPT {
      var drop := |hashes| - HASHES_KEPT;
      kept := hashes[drop..];
      first' := first + drop;
    }
  }
}
