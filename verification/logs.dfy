/**
 Logs that several threads write to: what one of them has written.
 */
module Logs {

  // The values of one thread.
  function Of<T>(values: seq<T>, threads: seq<nat>, t: nat): seq<T>
    requires |values| == |threads|
  {
    if values == [] then [] else (if threads[0] == t then [values[0]] else []) + Of(values[1..], threads[1..], t)
  }

  lemma OfNone<T>(t: nat)
    ensures Of<T>([], [], t) == []
  {
  }

  lemma OfNext<T>(a: seq<T>, x: seq<nat>, b: seq<T>, y: seq<nat>, t: nat)
    requires |a| == |x| <= 1 && |b| == |y|
    ensures Of(a + b, x + y, t) == Of(a, x, t) + Of(b, y, t)
  {
    if a == [] {
      assert a + b == b && x + y == y;
    } else {
      assert (a + b)[1..] == b && (x + y)[1..] == y && Of(a[1..], x[1..], t) == [];
    }
  }

  // What is carried and asked for is written or carried then: two stretches of a run after each other.
  lemma Chain<T>(was: seq<T>, one: seq<T>, more: seq<T>, mid: seq<T>, last: seq<T>, a: seq<T>, b: seq<T>)
    requires was + one == a + mid && mid + more == b + last
    ensures was + (one + more) == (a + b) + last
  {
    assert was + (one + more) == (was + one) + more == a + (mid + more) == (a + b) + last;
  }
}
