/**
 * Timers and awaited calls that have been scheduled but have not run: they
 * may settle in any order, so settling one removes it wherever it stands.
 */
module Pending {

  /** The pending entries without the one at index `i`. */
  function Without<T>(pending: seq<T>, i: nat): (r: seq<T>)
    requires i < |pending|
    ensures |r| == |pending| - 1
    ensures multiset(r) + multiset{pending[i]} == multiset(pending)
  {
    assert pending == pending[..i] + [pending[i]] + pending[i + 1..];
    pending[..i] + pending[i + 1..]
  }
}
