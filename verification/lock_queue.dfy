/**
 `lock_queue.h`: the queue under the worker pools, the close queues and the pool of connections.  Every
 method runs under one lock, so that a run of any threads is a sequence of calls.
 */
module LockQueue {
  datatype Call<T> = Push(value: T) | Pop

  // What a sequence of calls has let in and given out so far.
  datatype Log<T> = Log(pushed: seq<T>, popped: seq<T>, contents: seq<T>)

  function Called<T>(l: Log<T>, c: Call<T>): Log<T> {
    match c
    case Push(v) => Log(l.pushed + [v], l.popped, l.contents + [v])
    case Pop =>
      if l.contents == [] then l else Log(l.pushed, l.popped + [l.contents[0]], l.contents[1..])
  }

  function After<T>(l: Log<T>, calls: seq<Call<T>>): Log<T>
    decreases |calls|
  {
    if calls == [] then l else After(Called(l, calls[0]), calls[1..])
  }

  // The values of the pushes among the calls.
  function Pushes<T>(calls: seq<Call<T>>): seq<T> {
    if calls == [] then [] else (if calls[0].Push? then [calls[0].value] else []) + Pushes(calls[1..])
  }

  // How many of the pops find something, with n values there before the first call.
  function Served<T>(calls: seq<Call<T>>, n: nat): nat {
    if calls == [] then 0
    else if calls[0].Push? then Served(calls[1..], n + 1)
    else if n == 0 then Served(calls[1..], 0)
    else 1 + Served(calls[1..], n - 1)
  }

  // Whoever calls, and in whatever order: what has gone in are the values of the pushes, in their order; they
  // come out in that order, each once, one for each pop that finds something; and what has not come out is
  // still there.
  lemma {:induction false} FirstInFirstOut<T>(l: Log<T>, calls: seq<Call<T>>)
    requires l.pushed == l.popped + l.contents
    ensures After(l, calls).pushed == After(l, calls).popped + After(l, calls).contents
    ensures After(l, calls).pushed == l.pushed + Pushes(calls)
    ensures l.popped <= After(l, calls).popped && |After(l, calls).popped| == |l.popped| + Served(calls, |l.contents|)
    decreases |calls|
  {
    if calls != [] {
      var next := Called(l, calls[0]);
      assert calls[0] == Pop && l.contents != [] ==>
          l.popped + l.contents == (l.popped + [l.contents[0]]) + l.contents[1..];
      assert calls[0].Push? ==>
          (l.popped + l.contents) + [calls[0].value] == l.popped + (l.contents + [calls[0].value]);
      FirstInFirstOut(next, calls[1..]);
      assert calls[0].Push? ==>
          (l.pushed + [calls[0].value]) + Pushes(calls[1..]) == l.pushed + ([calls[0].value] + Pushes(calls[1..]));
      assert calls[0] == Pop ==> [] + Pushes(calls[1..]) == Pushes(calls[1..]);
    } else {
      assert l.pushed + [] == l.pushed;
    }
  }

  class Queue<T> {
    var q: seq<T>
    ghost var pushed: seq<T>
    ghost var popped: seq<T>

    ghost function View(): Log<T>
      reads this
    {
      Log(pushed, popped, q)
    }

    ghost predicate Valid()
      reads this
    {
      pushed == popped + q
    }

    constructor ()
      ensures Valid() && View() == Log([], [], [])
    {
      q, pushed, popped := [], [], [];
    }

    method Push(t: T)
      requires Valid()
      modifies this
      ensures Valid() && View() == Called(old(View()), Call.Push(t))
    {
      q := q + [t];
      pushed := pushed + [t];
    }

    // An empty queue gives `none`: a null pointer, or -1 for descriptors.
    method Pop(none: T) returns (ok: bool, t: T)
      requires Valid()
      modifies this
      ensures Valid() && View() == Called(old(View()), Call.Pop)
      ensures ok == (old(popped) != old(pushed))
      ensures if ok then popped == old(popped) + [t] else t == none
    {
      if q == [] {
        return false, none;
      }
      ok, t := true, q[0];
      popped := popped + [q[0]];
      q := q[1..];
    }

    // Empty: everything pushed has been popped.
    method Empty() returns (r: bool)
      requires Valid()
      ensures r <==> popped == pushed
    {
      r := q == [];
    }

    // The size: how many values have been pushed and not popped.
    method Size() returns (n: nat)
      requires Valid()
      ensures n == |pushed| - |popped|
    {
      n := |q|;
    }
  }
}
