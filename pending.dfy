/** Pending callbacks (outstanding requests, armed timers) are kept as a
    sequence; when one of them runs it leaves the sequence. */
module Pending {

  /** The sequence without its `i`-th element. */
  function RemoveAt<T>(s: seq<T>, i: nat): (r: seq<T>)
    requires i < |s|
    ensures |r| == |s| - 1
    ensures forall x :: x in s && x != s[i] ==> x in r
  {
    assert s == s[..i] + [s[i]] + s[i + 1..];
    s[..i] + s[i + 1..]
  }
}
