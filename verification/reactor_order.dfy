/**
 Why a removal empties the slot before it closes the descriptor, and that this matters from states that are
 reached.
 */
module ReactorOrder {
  import opened ReactorResults
  import opened Reactors
  import opened Wrappers

  // A removal that closes the descriptor while its slot is still filled.
  function ClosedFirst(s: State, r: Rid): State
    requires r in s.pc && s.pc[r].Uncounted? && Key(r, s.pc[r].fd) in s.slots
    requires s.slots[Key(r, s.pc[r].fd)] in s.objs
  {
    var fd, o := s.pc[r].fd, s.slots[Key(r, s.pc[r].fd)];
    s.(armed := s.armed - {Key(r, fd)}, open := s.open - {fd}, place := s.place - {fd},
       objs := s.objs[o := Conn(None, 0, false)])
  }

  // Two runs one after the other are a run.
  lemma {:induction false} RunsOn(s: State, steps: seq<Step>, mid: State, more: seq<Step>, end: State)
    requires Runs(s, steps, mid) && Runs(mid, more, end)
    ensures Runs(s, steps + more, end)
    decreases steps
  {
    hide Enabled, Apply;
    if steps == [] {
      assert steps + more == more;
    } else {
      assert (steps + more)[1..] == steps[1..] + more;
      RunsOn(Apply(s, steps[0]), steps[1..], mid, more, end);
    }
  }

  // The queues between the loops and the workers are as they were.
  predicate SameQueues(s: State, t: State) {
    t.closeQ == s.closeQ && t.work == s.work && t.hands == s.hands && t.limit == s.limit
  }

  // A number that is not open can be accepted, handed to a waiting reactor and reported by its epoll.
  lemma Accepts(s: State, q: Rid, fd: Fd) returns (end: State)
    requires Known(s, q) && s.pc[q] == Poll && s.accepted == None && fd !in s.open
    ensures Runs(s, [Accept(fd), Give(q), Wait(q, [fd])], end)
    ensures Known(end, q) && end.pc == s.pc[q := Dispatch] && end.batch[q] == [fd]
    ensures end.slots == s.slots && end.pool == s.pool && end.objs == s.objs && end.spot == s.spot
    ensures SameQueues(s, end) && end.accepted == None && end.open == s.open + {fd}
  {
    var steps := [Accept(fd), Give(q), Wait(q, [fd])];
    var s1 := AcceptFd(s, fd);
    var s2 := GiveFd(s1, q);
    end := WaitEvents(s2, q, [fd]);
    assert steps[1..] == [Give(q), Wait(q, [fd])] && steps[1..][1..] == [Wait(q, [fd])] && steps[1..][1..][1..] == [];
    assert Runs(s2, [Wait(q, [fd])], end);
    assert Runs(s1, [Give(q), Wait(q, [fd])], end);
  }

  function NextObj(s: State, extra: Obj): Obj { if s.pool == [] then extra else s.pool[0] }

  // A reported descriptor without a connection is given an object.
  lemma Acquires(s: State, q: Rid, fd: Fd, extra: Obj) returns (end: State)
    requires CanFetch(s, q, extra) && s.batch[q] == [fd] && Key(q, fd) !in s.slots
    ensures Runs(s, [Fetch(q, extra)], end)
    ensures end == if s.pool == [] then NewObject(NextEvent(s, q), q, fd, extra)
                   else AcquireObject(NextEvent(s, q), q, fd)
  {
    hide NextEvent, NewObject, AcquireObject;
    end := FetchEvent(s, q, extra);
    assert [Fetch(q, extra)][1..] == [];
  }

  lemma AcquiresAnObject(s: State, q: Rid, fd: Fd, extra: Obj) returns (end: State)
    requires CanFetch(s, q, extra) && s.batch[q] == [fd] && Key(q, fd) !in s.slots
    ensures Runs(s, [Fetch(q, extra)], end)
    ensures Known(end, q) && end.pc == s.pc[q := Fresh(fd, NextObj(s, extra))] && end.batch[q] == []
    ensures end.slots == s.slots && SameQueues(s, end) && end.accepted == s.accepted && end.open == s.open
    ensures end.pool == if s.pool == [] then [] else s.pool[1..]
  {
    hide Runs;
    end := Acquires(s, q, fd, extra);
  }

  // The reactor q has put obj in its table for fd and is dispatching its event.
  predicate Entered(s: State, t: State, q: Rid, fd: Fd, obj: Obj) {
    && q in s.batch && Known(t, q) && t.pc == s.pc[q := Marking(fd)] && t.batch[q] == s.batch[q]
    && t.slots == s.slots[Key(q, fd) := obj] && obj in t.objs && t.objs[obj] == Conn(Some(fd), q, false)
    && SameQueues(s, t) && t.accepted == s.accepted && t.open == s.open && t.pool == s.pool
  }

  // An acquired object comes to stand in the table.
  lemma Fills(s: State, q: Rid, fd: Fd, obj: Obj) returns (end: State)
    requires Known(s, q) && s.pc[q] == Fresh(fd, obj)
    ensures Runs(s, [Go(q), Go(q), Go(q)], end) && Entered(s, end, q, fd, obj)
  {
    hide Runs;
    var s2 := Counts(s, q, fd, obj);
    end := FillSlot(s2, q, fd, obj);
    OneGo(s2, q);
    assert [Go(q), Go(q), Go(q)] == [Go(q), Go(q)] + [Go(q)];
    RunsOn(s, [Go(q), Go(q)], s2, [Go(q)], end);
  }

  lemma Counts(s: State, q: Rid, fd: Fd, obj: Obj) returns (end: State)
    requires Known(s, q) && s.pc[q] == Fresh(fd, obj)
    ensures Runs(s, [Go(q), Go(q)], end)
    ensures end == CountConn(InitConn(s, q, fd, obj), q, fd, obj)
  {
    hide Runs;
    var s1 := InitConn(s, q, fd, obj);
    end := CountConn(s1, q, fd, obj);
    OneGo(s, q);
    OneGo(s1, q);
    assert [Go(q), Go(q)] == [Go(q)] + [Go(q)];
    RunsOn(s, [Go(q)], s1, [Go(q)], end);
  }

  lemma OneGo(s: State, q: Rid)
    requires CanGo(s, q)
    ensures Runs(s, [Go(q)], GoOn(s, q))
  {
    assert [Go(q)][1..] == [];
  }

  lemma Enters(s: State, q: Rid, fd: Fd, extra: Obj) returns (end: State)
    requires CanFetch(s, q, extra) && s.batch[q] == [fd] && Key(q, fd) !in s.slots
    ensures Runs(s, [Fetch(q, extra), Go(q), Go(q), Go(q)], end)
    ensures Entered(s.(batch := s.batch[q := []], pool := if s.pool == [] then [] else s.pool[1..]),
                    end, q, fd, NextObj(s, extra))
  {
    hide Runs;
    var mid := AcquiresAnObject(s, q, fd, extra);
    end := Fills(mid, q, fd, NextObj(s, extra));
    assert [Fetch(q, extra), Go(q), Go(q), Go(q)] == [Fetch(q, extra)] + [Go(q), Go(q), Go(q)];
    RunsOn(s, [Fetch(q, extra)], mid, [Go(q), Go(q), Go(q)], end);
  }

  // If the acceptor holds a descriptor, it can hand it over to a reactor first.
  lemma HandsOver(s: State, q: Rid) returns (steps: seq<Step>, end: State)
    requires Known(s, q)
    ensures Runs(s, steps, end) && end.accepted == None
    ensures end.pc == s.pc && end.open == s.open && end.slots == s.slots && end.objs == s.objs && end.spot == s.spot
    ensures Known(end, q) && SameQueues(s, end) && end.pool == s.pool
  {
    if s.accepted == None {
      steps, end := [], s;
    } else {
      steps, end := [Give(q)], GiveFd(s, q);
      assert [Give(q)][1..] == [];
    }
  }

  // So a number that is not open and not in the table of a waiting reactor can come to stand there.
  lemma Admits(s: State, q: Rid, fd: Fd, extra: Obj) returns (steps: seq<Step>, end: State)
    requires Known(s, q) && s.pc[q] == Poll && fd !in s.open && Key(q, fd) !in s.slots
    requires extra !in s.objs && extra !in s.spot
    ensures Runs(s, steps, end)
    ensures Entered(s.(batch := s.batch[q := []], accepted := None, open := s.open + {fd},
                       pool := if s.pool == [] then [] else s.pool[1..]), end, q, fd, NextObj(s, extra))
  {
    hide Runs;
    var first, ready := HandsOver(s, q);
    var mid := Accepts(ready, q, fd);
    end := Enters(mid, q, fd, extra);
    RunsOn(s, first, ready, [Accept(fd), Give(q), Wait(q, [fd])], mid);
    steps := first + [Accept(fd), Give(q), Wait(q, [fd])];
    RunsOn(s, steps, mid, [Fetch(q, extra), Go(q), Go(q), Go(q)], end);
    steps := steps + [Fetch(q, extra), Go(q), Go(q), Go(q)];
  }

  // The slot has to be emptied before the descriptor is closed: the other way round, from any reachable state
  // in which a removal has begun and another reactor waits, the number can be accepted again and come to
  // stand in two tables.
  lemma ClosingFirstBreaks(s: State, r: Rid, q: Rid, extra: Obj) returns (steps: seq<Step>, end: State)
    requires Reachable(s) && r in s.pc && s.pc[r].Uncounted? && q != r && q in s.pc && s.pc[q] == Poll
    requires extra !in s.objs && extra !in s.spot
    ensures Key(r, s.pc[r].fd) in s.slots && s.slots[Key(r, s.pc[r].fd)] in s.objs
    ensures Runs(ClosedFirst(s, r), steps, end)
    ensures Key(r, s.pc[r].fd) in end.slots && Key(q, s.pc[r].fd) in end.slots
  {
    hide Reachable, NoDup, Runs;
    ReachableInv(s);
    var fd := s.pc[r].fd;
    assert Sound(s, r, fd, 0, 0) && Sound(s, q, fd, 0, 0);
    steps, end := Admits(ClosedFirst(s, r), q, fd, extra);
  }

  // A loop whose close queue is empty comes to wait.
  lemma ComesToWait(s: State, r: Rid) returns (end: State)
    requires Known(s, r) && s.pc[r] == Drain && s.closeQ[r] == []
    ensures Runs(s, [Go(r)], end) && end == At(s, r, Poll)
  {
    end := At(s, r, Poll);
    assert [Go(r)][1..] == [];
  }

  // A number above all of them.
  lemma {:induction false} Unused(keys: set<nat>) returns (n: nat)
    ensures forall k :: k in keys ==> k < n
    decreases |keys|
  {
    n := 0;
    if keys != {} {
      var k :| k in keys;
      assert forall j :: j in keys ==> j == k || j in keys - {k};
      n := Unused(keys - {k});
      n := if k < n then n else k + 1;
    }
  }

  // Such states are reached: from the start, with any two reactors, there is a run after which one has begun
  // a removal and the other waits.
  lemma RemovalMeetsWaiting(s: State, r: Rid, q: Rid, fd: Fd) returns (steps: seq<Step>, end: State)
    requires Init(s) && r in s.pc && q in s.pc && r != q
    ensures Runs(s, steps, end)
    ensures Reachable(end) && r in end.pc && q in end.pc
    ensures end.pc[r] == Uncounted(fd, ToEvents) && end.pc[q] == Poll
  {
    hide Runs, NoDup;
    var s1 := ComesToWait(s, q);
    var s2 := ComesToWait(s1, r);
    RunsOn(s, [Go(q)], s1, [Go(r)], s2);
    var extra := Unused(s2.objs.Keys + s2.spot.Keys);
    var more, s3 := Admits(s2, r, fd, extra);
    RunsOn(s, [Go(q)] + [Go(r)], s2, more, s3);
    end := Refuses(s3, r, fd);
    RunsOn(s, [Go(q)] + [Go(r)] + more, s3, [Mark(r, false)], end);
    steps := [Go(q)] + [Go(r)] + more + [Mark(r, false)];
  }

  lemma Refuses(s: State, r: Rid, fd: Fd) returns (end: State)
    requires CanMark(s, r) && s.pc[r] == Marking(fd)
    ensures Runs(s, [Mark(r, false)], end) && end.pc == s.pc[r := Uncounted(fd, ToEvents)]
  {
    end := Reap(s, r, fd);
    assert [Mark(r, false)][1..] == [];
  }
}
