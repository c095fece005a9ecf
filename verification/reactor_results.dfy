/**
 What holds in every state the reactors can reach.
 */
module ReactorResults {
  import opened ReactorCount
  import opened Reactors
  import opened ReactorSteps
  import opened Wrappers

  lemma InitInv(s: State)
    requires Init(s)
    ensures Inv(s) && Tallied(s)
  {
    assert Early(s.pc) == {} && Late(s.pc) == {};
    forall r, fd ensures Located(s, r, fd) {}
    forall r, fd ensures Owned(s, r, fd) {}
    forall r, o ensures Kept(s, r, o) {}
    forall r ensures Looping(s, r) {}
  }

  lemma {:induction false} RunKeepsInv(s: State, steps: seq<Step>, end: State)
    requires Inv(s) && Tallied(s) && Runs(s, steps, end)
    ensures Inv(end) && Tallied(end)
    decreases steps
  {
    hide Inv, Tallied, Apply, Enabled;
    if steps != [] {
      StepKeepsInv(s, steps[0]);
      TallyStep(s, steps[0]);
      RunKeepsInv(Apply(s, steps[0]), steps[1..], end);
    }
  }

  lemma ReachableInv(s: State)
    requires Reachable(s)
    ensures Inv(s) && Tallied(s)
  {
    hide Init, Runs, Inv, Tallied;
    var start, steps :| Init(start) && Runs(start, steps, s);
    InitInv(start);
    RunKeepsInv(start, steps, s);
  }

  // What the loops, their queues and their workers say of where a descriptor is.
  ghost predicate Busy(s: State, fd: Fd, p: Place) {
    match p
    case Accepted => s.accepted == Some(fd)
    case Armed(r) => Key(r, fd) in s.armed
    case Batch(r) => r in s.batch && fd in s.batch[r]
    case Current(r) => r in s.pc && CurrentFd(s.pc[r]) == Some(fd)
    case Queued(r) => r in s.work && exists o :: o in s.work[r] && o in s.objs && s.objs[o].fd == Some(fd)
    case Held(r, w) => Key(r, w) in s.hands && s.hands[Key(r, w)] in s.objs && s.objs[s.hands[Key(r, w)]].fd == Some(fd)
    case Asked(r) => r in s.closeQ && fd in s.closeQ[r]
    case Reaping(r) => r in s.pc && ReapedFd(s.pc[r]) == Some(fd)
    case Dormant(r) => false
  }

  // Dormant: in a table, and nowhere else.
  ghost predicate IsAt(s: State, fd: Fd, p: Place) {
    if p.Dormant? then Key(p.r, fd) in s.slots && forall q: Place :: !Busy(s, fd, q) else Busy(s, fd, p)
  }

  lemma BusyIsPlace(s: State, fd: Fd, p: Place)
    requires Inv(s) && !p.Dormant?
    ensures Busy(s, fd, p) <==> PlaceIs(s, fd, p)
  {
    hide NoDup, LoopKnows;
    if p == Accepted {
      assert Sound(s, 0, fd, 0, 0);
    } else {
      assert Sound(s, p.r, fd, 0, if p.Held? then p.w else 0);
      if Busy(s, fd, p) && p.Queued? {
        var o :| o in s.work[p.r] && o in s.objs && s.objs[o].fd == Some(fd);
        assert Sound(s, p.r, fd, o, 0);
      }
    }
  }

  lemma DormantIsPlace(s: State, fd: Fd, r: Rid)
    requires Inv(s)
    ensures IsAt(s, fd, Dormant(r)) <==> PlaceIs(s, fd, Dormant(r))
  {
    hide Busy, NoDup, LoopKnows;
    assert Sound(s, r, fd, 0, 0);
    forall q: Place ensures Busy(s, fd, q) <==> PlaceIs(s, fd, q) && !q.Dormant? {
      if q.Dormant? { NeverDormant(s, fd, q); } else { BusyIsPlace(s, fd, q); }
    }
    assert Key(r, fd) in s.slots && !s.place[fd].Dormant? ==> Busy(s, fd, s.place[fd]);
  }

  lemma NeverDormant(s: State, fd: Fd, p: Place)
    requires p.Dormant?
    ensures !Busy(s, fd, p)
  {
  }

  lemma IsAtIsPlace(s: State, fd: Fd, p: Place)
    requires Inv(s)
    ensures IsAt(s, fd, p) <==> PlaceIs(s, fd, p)
  {
    hide Inv, Busy;
    if p.Dormant? { DormantIsPlace(s, fd, p.r); } else { BusyIsPlace(s, fd, p); }
  }

  // In every reachable state an open descriptor is in exactly one place: just accepted, armed,
  // reported but not dispatched, being dispatched, queued for the workers, in the hands of one
  // worker, in a close queue, being reaped, or dormant.  A closed descriptor is in none.
  lemma OnePlace(s: State, fd: Fd, p: Place, q: Place)
    requires Reachable(s)
    ensures fd in s.open <==> exists p' :: IsAt(s, fd, p')
    ensures IsAt(s, fd, p) && IsAt(s, fd, q) ==> p == q
  {
    hide Reachable, IsAt, NoDup;
    ReachableInv(s);
    forall p' ensures IsAt(s, fd, p') <==> PlaceIs(s, fd, p') { IsAtIsPlace(s, fd, p'); }
    assert Sound(s, 0, fd, 0, 0);
    if fd in s.open { assert IsAt(s, fd, s.place[fd]); }
  }

  // A connection in the hands of a worker is open and stands in the table of the worker's reactor, and
  // nobody else has it: no other worker, no queue of any workers, no close queue, no epoll, no loop and
  // not the pool.  Its closing flag is not set.
  lemma HeldIsSafe(s: State, r: Rid, w: Wid, q: Rid, v: Wid)
    requires Reachable(s) && Key(r, w) in s.hands
    ensures HoldsObject(s, r, w) && !s.objs[s.hands[Key(r, w)]].closing
    ensures var o := s.hands[Key(r, w)];
            var fd := s.objs[o].fd.value;
            && fd in s.open && Knows(s, o, r, fd) && Key(r, fd) in s.slots && s.slots[Key(r, fd)] == o && o !in s.pool
            && IsAt(s, fd, Held(r, w))
            && (q in s.pc ==> LooseObj(s.pc[q]) != Some(o)) && (q in s.work ==> o !in s.work[q])
            && (Key(q, v) in s.hands && s.hands[Key(q, v)] == o ==> q == r && v == w)
  {
    hide Reachable, NoDup, LoopKnows;
    ReachableInv(s);
    assert Sound(s, r, 0, 0, w) && Sound(s, q, 0, 0, v);
    var o := s.hands[Key(r, w)];
    var fd := s.objs[o].fd.value;
    assert Sound(s, r, fd, o, w) && Sound(s, q, fd, o, v);
  }

  // An open descriptor has a connection in at most one table; no object stands in two entries, or in a
  // table and in the pool; the pool holds no object twice.
  lemma OneTable(s: State, r: Rid, fd: Fd, q: Rid, d: Fd)
    requires Reachable(s) && Key(r, fd) in s.slots && Key(q, d) in s.slots
    ensures fd in s.open && (fd == d ==> r == q)
    ensures s.slots[Key(r, fd)] == s.slots[Key(q, d)] ==> r == q && fd == d
    ensures s.slots[Key(r, fd)] !in s.pool && NoDup(s.pool)
  {
    hide Reachable, NoDup;
    ReachableInv(s);
    assert Sound(s, r, fd, s.slots[Key(r, fd)], 0) && Sound(s, q, d, 0, 0);
  }

  // The counter is the number of connections in the tables, but for the loops that are between
  // counting and the table.
  lemma CountIsExact(s: State)
    requires Reachable(s)
    ensures s.count == |s.slots| + |set r | r in s.pc && s.pc[r].Counted?| - |set r | r in s.pc && s.pc[r].Uncounted?|
    ensures (forall r :: r in s.pc ==> !s.pc[r].Counted? && !s.pc[r].Uncounted?) ==> s.count == |s.slots|
  {
    hide Reachable, Inv;
    ReachableInv(s);
    assert Early(s.pc) == set r | r in s.pc && s.pc[r].Counted?;
    assert Late(s.pc) == set r | r in s.pc && s.pc[r].Uncounted?;
    if forall r :: r in s.pc ==> !s.pc[r].Counted? && !s.pc[r].Uncounted? {
      assert Early(s.pc) == {} && Late(s.pc) == {};
    }
  }

  // No step goes wrong: a loop always finds the table entry it is about to use, an entry of the close
  // queue is never stale, and the object a worker takes or holds is a live connection.
  lemma NothingGoesWrong(s: State, r: Rid, w: Wid, extra: Obj)
    requires Reachable(s) && r in s.pc
    ensures Known(s, r)
    ensures match s.pc[r]
            case Poll => CanWait(s, r, [])
            case Marking(_) => CanMark(s, r)
            case Dispatch => s.batch[r] == [] || (extra !in s.objs && extra !in s.spot ==> CanFetch(s, r, extra))
            case _ => CanGo(s, r)
    ensures s.pc[r].GotFd? ==> Key(r, s.pc[r].fd) in s.slots
    ensures Key(r, w) in s.hands ==> HoldsObject(s, r, w)
    ensures s.work[r] != [] && Key(r, w) !in s.hands ==> CanTake(s, r, w)
    ensures |s.work[r]| <= s.limit
  {
    hide Reachable;
    ReachableInv(s);
    assert Sound(s, r, 0, 0, w);
    if Key(r, w) in s.hands { assert Sound(s, r, s.objs[s.hands[Key(r, w)]].fd.value, 0, w); }
    if CurrentFd(s.pc[r]).Some? { assert Sound(s, r, CurrentFd(s.pc[r]).value, 0, w); }
    if s.work[r] != [] { assert Sound(s, r, 0, s.work[r][0], w); }
  }

  // What is closed in a removal is the descriptor being removed, the same the entry was for, and it is
  // in nobody else's hands.
  lemma ReapsItsOwn(s: State, r: Rid)
    requires Reachable(s) && r in s.pc && s.pc[r].Nulled?
    ensures CanGo(s, r)
    ensures var fd, o := s.pc[r].fd, s.pc[r].obj;
            && Knows(s, o, r, fd) && fd in s.open && GoOn(s, r).open == s.open - {fd}
            && (forall q, d :: Key(q, d) in s.slots ==> s.slots[Key(q, d)] != o && d != fd)
            && (forall q, v :: Key(q, v) in s.hands ==> s.hands[Key(q, v)] != o)
            && (forall q :: q in s.work ==> o !in s.work[q])
            && (forall p :: IsAt(s, fd, p) ==> p == Reaping(r))
  {
    hide Reachable, NoDup, IsAt;
    ReachableInv(s);
    var fd, o := s.pc[r].fd, s.pc[r].obj;
    assert Sound(s, r, fd, o, 0);
    forall q, d | Key(q, d) in s.slots ensures s.slots[Key(q, d)] != o && d != fd {
      assert Sound(s, q, d, o, 0);
    }
    forall q, v | Key(q, v) in s.hands ensures s.hands[Key(q, v)] != o { assert Sound(s, q, fd, o, v); }
    forall q | q in s.work ensures o !in s.work[q] { assert Sound(s, q, fd, o, 0); }
    forall p ensures IsAt(s, fd, p) ==> p == Reaping(r) { IsAtIsPlace(s, fd, p); }
  }
}
