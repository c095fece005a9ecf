/**
 `_accept_` of `acceptor.h`: a new descriptor goes to the reactor whose table is smallest.
 */
module Acceptor {
  const INT32_MAX: nat := 0x7FFF_FFFF

  // The size of a table counts its null entries too.
  method LeastLoaded(sizes: seq<nat>) returns (leastIndex: nat)
    requires 0 < |sizes|
    ensures leastIndex < |sizes|
    ensures sizes[leastIndex] < INT32_MAX ==>
              && (forall i :: 0 <= i < |sizes| ==> sizes[leastIndex] <= sizes[i])
              && (forall i :: 0 <= i < leastIndex ==> sizes[leastIndex] < sizes[i])
    ensures sizes[leastIndex] >= INT32_MAX ==>
              leastIndex == 0 && forall i :: 0 <= i < |sizes| ==> sizes[i] >= INT32_MAX
  {
    var least := INT32_MAX;
    leastIndex := 0;
    for i := 0 to |sizes|
      invariant leastIndex < |sizes|
      invariant least == INT32_MAX ==> leastIndex == 0 && forall j :: 0 <= j < i ==> sizes[j] >= INT32_MAX
      invariant least < INT32_MAX ==> leastIndex < i && least == sizes[leastIndex]
      invariant least <= INT32_MAX && forall j :: 0 <= j < i ==> least <= sizes[j]
      invariant forall j :: 0 <= j < leastIndex ==> least < sizes[j]
    {
      if least > sizes[i] {
        least, leastIndex := sizes[i], i;
      }
    }
  }
}
