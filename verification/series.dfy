/**
 The data series behind the graph: the running maximum that normalises bar
 heights, and the conversion of a bar's value to the integer reported to
 the delegate.
 */
module Series {

  /**
   Swift's `Int(x)` on a finite value: truncation toward zero, so the
   result is the integer nearest to `x` on the side of zero.
   */
  function TruncToInt(x: real): (n: int)
    ensures 0.0 <= x ==> n as real <= x < n as real + 1.0
    ensures x < 0.0 ==> n as real - 1.0 < x <= n as real
  {
    if x >= 0.0 then x.Floor else -((-x).Floor)
  }

  /**
   The largest value seen: `largest` raised by every element of `values`,
   scanned left to right. Nothing lowers it, so a value from an earlier
   series keeps counting after new data replaces that series.
   */
  function RunningMax(largest: real, values: seq<real>): (m: real)
    ensures largest <= m
    ensures forall k :: 0 <= k < |values| ==> values[k] <= m
    ensures m == largest || exists k :: 0 <= k < |values| && values[k] == m
    decreases |values|
  {
    if |values| == 0 then largest
    else
      var next := if values[0] > largest then values[0] else largest;
      var m := RunningMax(next, values[1..]);
      assert forall k :: 1 <= k < |values| ==> values[k] == values[1..][k - 1];
      m
  }

  /**
   Ingesting two series one after the other leaves the same largest value
   as ingesting their concatenation once.
   */
  lemma {:induction false} RunningMaxConcat(largest: real, a: seq<real>, b: seq<real>)
    ensures RunningMax(RunningMax(largest, a), b) == RunningMax(largest, a + b)
    decreases |a|
  {
    if |a| == 0 {
      assert a + b == b;
    } else {
      var next := if a[0] > largest then a[0] else largest;
      assert (a + b)[1..] == a[1..] + b;
      RunningMaxConcat(next, a[1..], b);
    }
  }
}
