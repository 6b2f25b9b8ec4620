/** Invocation logs of the ports, and how often a call occurs in one. */
module Calls {

  /**
   * How many times `c` occurs in `log`. A mock verification such as
   * "getAsset(path) was called twice" is a statement about this number.
   */
  function Count<T(==)>(log: seq<T>, c: T): (n: nat)
    ensures n <= |log|
    ensures n == 0 <==> c !in log
  {
    if log == [] then 0
    else (if log[0] == c then 1 else 0) + Count(log[1..], c)
  }

  lemma {:induction false} CountAppend<T>(a: seq<T>, b: seq<T>, c: T)
    ensures Count(a + b, c) == Count(a, c) + Count(b, c)
  {
    if a == [] {
      assert a + b == b;
    } else {
      assert (a + b)[1..] == a[1..] + b;
      CountAppend(a[1..], b, c);
    }
  }
}
