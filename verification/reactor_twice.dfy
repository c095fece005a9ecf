/**
 Why a handler must ask for its connection to be closed only once.
 */
module ReactorTwice {
  import opened ReactorOrder
  import opened Reactors
  import opened Wrappers

  // An event that is marked goes through the queue of the workers to one of them.
  lemma Queues(s: State, r: Rid, fd: Fd) returns (end: State)
    requires CanMark(s, r) && Known(s, r) && s.pc[r] == Marking(fd) && |s.work[r]| < s.limit
    ensures Runs(s, [Mark(r, true), Go(r), Go(r)], end)
    ensures Known(end, r) && end.pc == s.pc[r := Dispatch]
    ensures end.work == s.work[r := s.work[r] + [s.slots[Key(r, fd)]]] && end.hands == s.hands
    ensures end.slots == s.slots && end.closeQ == s.closeQ && end.batch == s.batch
    ensures end.pool == s.pool && end.open == s.open
    ensures end.objs == s.objs[s.slots[Key(r, fd)] := s.objs[s.slots[Key(r, fd)]].(closing := false)]
  {
    var steps := [Mark(r, true), Go(r), Go(r)];
    var s1 := MarkEvent(s, r);
    var s2 := CheckLoad(s1, r, fd);
    end := PushWork(s2, r, fd);
    assert steps[1..] == [Go(r), Go(r)] && steps[1..][1..] == [Go(r)] && steps[1..][1..][1..] == [];
    assert Runs(s2, [Go(r)], end);
    assert Runs(s1, [Go(r), Go(r)], end);
  }

  lemma Takes(s: State, r: Rid, w: Wid) returns (end: State)
    requires CanTake(s, r, w) && Known(s, r) && s.pc[r] == Dispatch && s.batch[r] == []
    ensures Runs(s, [Take(r, w), Go(r)], end)
    ensures Known(end, r) && end.pc == s.pc[r := Drain] && end.hands == s.hands[Key(r, w) := s.work[r][0]]
    ensures end.slots == s.slots && end.closeQ == s.closeQ && end.pool == s.pool && end.objs == s.objs
    ensures end.open == s.open
  {
    var s1 := TakeWork(s, r, w);
    end := At(s1, r, Drain);
    assert [Take(r, w), Go(r)][1..] == [Go(r)] && [Go(r)][1..] == [];
    assert Runs(s1, [Go(r)], end);
  }

  // The removal of the only connection in the close queue, up to the closing of its descriptor.
  lemma Empties(s: State, r: Rid, fd: Fd, obj: Obj) returns (end: State)
    requires Known(s, r) && s.pc[r] == Drain && s.closeQ[r] == [fd] && Key(r, fd) in s.slots
    requires s.slots[Key(r, fd)] == obj
    ensures Runs(s, [Go(r), Go(r), Go(r)], end)
    ensures Known(end, r) && end.pc == s.pc[r := Nulled(fd, obj, ToQueue)] && end.closeQ[r] == []
    ensures end.slots == s.slots - {Key(r, fd)} && end.open == s.open && end.objs == s.objs && end.pool == s.pool
  {
    var s1 := PopClose(s, r);
    var s2 := LookUp(s1, r, fd);
    end := NullSlot(s2, r, fd, ToQueue);
    assert [Go(r), Go(r), Go(r)][1..] == [Go(r), Go(r)] && [Go(r), Go(r)][1..] == [Go(r)] && [Go(r)][1..] == [];
    assert Runs(s2, [Go(r)], end);
    assert Runs(s1, [Go(r), Go(r)], end);
  }

  // And from there until the loop waits again.
  lemma Recycles(s: State, r: Rid, fd: Fd, obj: Obj) returns (end: State)
    requires Known(s, r) && s.pc[r] == Nulled(fd, obj, ToQueue) && s.closeQ[r] == []
    requires obj in s.objs && s.objs[obj].fd == Some(fd)
    ensures Runs(s, [Go(r), Go(r), Go(r)], end)
    ensures Known(end, r) && end.pc == s.pc[r := Poll] && end.closeQ == s.closeQ
    ensures end.slots == s.slots && end.open == s.open - {fd} && end.pool == s.pool + [obj]
  {
    var s1 := CloseConn(s, r, obj, ToQueue);
    var s2 := Release(s1, r, obj, ToQueue);
    end := At(s2, r, Poll);
    assert [Go(r), Go(r), Go(r)][1..] == [Go(r), Go(r)] && [Go(r), Go(r)][1..] == [Go(r)] && [Go(r)][1..] == [];
    assert Runs(s2, [Go(r)], end);
    assert Runs(s1, [Go(r), Go(r)], end);
  }

  // From the start, a connection can come into the hands of a worker while its reactor has nothing else to do.
  lemma Serves(s: State, r: Rid, w: Wid, fd: Fd) returns (steps: seq<Step>, end: State, obj: Obj)
    requires Init(s) && r in s.pc && s.pool == [] && s.limit > 0
    ensures Runs(s, steps, end)
    ensures Known(end, r) && end.pc[r] == Drain && end.closeQ[r] == [] && end.pool == [] && end.open == {fd}
    ensures end.hands == map[Key(r, w) := obj] && end.slots == map[Key(r, fd) := obj]
    ensures obj in end.objs && end.objs[obj] == Conn(Some(fd), r, false)
  {
    hide Runs, NoDup;
    var s1 := ComesToWait(s, r);
    obj := Unused(s1.objs.Keys + s1.spot.Keys);
    var more, s2 := Admits(s1, r, fd, obj);
    RunsOn(s, [Go(r)], s1, more, s2);
    var s3 := Queues(s2, r, fd);
    RunsOn(s, [Go(r)] + more, s2, [Mark(r, true), Go(r), Go(r)], s3);
    end := Takes(s3, r, w);
    steps := [Go(r)] + more + [Mark(r, true), Go(r), Go(r)];
    RunsOn(s, steps, s3, [Take(r, w), Go(r)], end);
    steps := steps + [Take(r, w), Go(r)];
  }

  // A handler asks for a close and has not yet returned; its connection is reaped, and the object serves the
  // next client.
  lemma Reused(s: State, r: Rid, fd: Fd, obj: Obj, next: Fd) returns (steps: seq<Step>, end: State)
    requires Known(s, r) && s.pc[r] == Drain && s.closeQ[r] == [fd] && s.slots == map[Key(r, fd) := obj]
    requires obj in s.objs && s.objs[obj].fd == Some(fd) && s.pool == [] && s.open == {fd}
    ensures Runs(s, steps, end)
    ensures Known(end, r) && end.pc[r] == Marking(next) && end.closeQ[r] == []
    ensures Key(r, next) in end.slots && end.slots[Key(r, next)] == obj
    ensures obj in end.objs && end.objs[obj] == Conn(Some(next), r, false)
  {
    hide Runs;
    var s1 := Empties(s, r, fd, obj);
    var s2 := Recycles(s1, r, fd, obj);
    RunsOn(s, [Go(r), Go(r), Go(r)], s1, [Go(r), Go(r), Go(r)], s2);
    var extra := Unused(s2.objs.Keys + s2.spot.Keys);
    var more;
    more, end := Admits(s2, r, next, extra);
    RunsOn(s, [Go(r), Go(r), Go(r)] + [Go(r), Go(r), Go(r)], s2, more, end);
    steps := [Go(r), Go(r), Go(r)] + [Go(r), Go(r), Go(r)] + more;
  }

  // A handler may ask for a close once only: whatever descriptors there are, there is a run in which the
  // second `notify_close` of a handler puts the connection of another client in the close queue, which is being
  // dispatched and has not asked for it.
  lemma AskingTwiceBreaks(s: State, r: Rid, w: Wid, fd: Fd, next: Fd)
    returns (steps: seq<Step>, mid: State, more: seq<Step>, end: State)
    requires Init(s) && r in s.pc && s.pool == [] && s.limit > 0
    ensures Runs(s, steps, mid) && HoldsObject(mid, r, w)
    ensures Runs(NotifyClose(mid, r, w), more, end)
    ensures var obj := mid.hands[Key(r, w)];
            var again := end.(hands := end.hands[Key(r, w) := obj]);
            && mid.objs[obj].fd == Some(fd) && r in end.pc && end.pc[r] == Marking(next)
            && Key(r, next) in end.slots && end.slots[Key(r, next)] == obj
            && HoldsObject(again, r, w) && !end.objs[obj].closing && Known(end, r) && end.closeQ[r] == []
            && NotifyClose(again, r, w).objs[obj].closing && NotifyClose(again, r, w).closeQ[r] == [next]
  {
    hide Runs, NoDup;
    var obj;
    steps, mid, obj := Serves(s, r, w, fd);
    more, end := Reused(NotifyClose(mid, r, w), r, fd, obj, next);
  }
}
