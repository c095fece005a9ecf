/**
 The pool of connection objects: what is in it knows no descriptor and no reactor, as if it were new.
 */
module ReactorPool {
  import opened ReactorResults
  import opened ReactorSteps
  import opened Reactors
  import opened Wrappers

  predicate IsNew(s: State, o: Obj) { o in s.objs && s.objs[o] == Conn(None, 0, false) }

  // An object in the pool, or one that loop q has just taken from it or is about to put there.
  predicate Clean(s: State, q: Rid, o: Obj) {
    && (o in s.pool ==> IsNew(s, o))
    && (q in s.pc && (s.pc[q].Fresh? || s.pc[q].Closed?) && s.pc[q].obj == o ==> IsNew(s, o))
  }

  ghost predicate AllClean(s: State) { forall q, o :: Clean(s, q, o) }

  // A step that touches neither the pool nor an object, and takes no loop to one of these points.
  lemma FrameClean(s: State, t: State, q: Rid, o: Obj)
    requires Clean(s, q, o) && t.pool == s.pool && t.objs == s.objs
    requires q in t.pc && (t.pc[q].Fresh? || t.pc[q].Closed?) ==> q in s.pc && t.pc[q] == s.pc[q]
    ensures Clean(t, q, o)
  {
  }

  lemma TurnsClean(s: State, t: State, r: Rid, l: Loop, q: Rid, o: Obj)
    requires Clean(s, q, o) && t.pool == s.pool && t.objs == s.objs && t.pc == s.pc[r := l] && !l.Fresh? && !l.Closed?
    ensures Clean(t, q, o)
  {
  }

  // An object that is in a table, or in flight with another loop, changes.
  lemma OtherClean(s: State, t: State, r: Rid, x: Obj, q: Rid, o: Obj)
    requires Kept(s, q, x) && Clean(s, q, o) && t.pool == s.pool
    requires forall y :: y != x ==> (y in t.objs <==> y in s.objs) && (y in s.objs ==> t.objs[y] == s.objs[y])
    requires x in s.spot && (s.spot[x].Slot? || s.spot[x] == InFlight(r))
    requires forall p :: p in t.pc && p != r ==> p in s.pc && t.pc[p] == s.pc[p]
    requires q == r && r in t.pc && (t.pc[r].Fresh? || t.pc[r].Closed?) ==> t.pc[r].obj == x && IsNew(t, x)
    ensures Clean(t, q, o)
  {
  }

  lemma InFlightClean(s: State, t: State, r: Rid, obj: Obj, q: Rid, o: Obj)
    requires Inv(s) && Clean(s, q, o) && r in s.pc && LooseObj(s.pc[r]) == Some(obj) && t.pool == s.pool
    requires forall y :: y != obj ==> (y in t.objs <==> y in s.objs) && (y in s.objs ==> t.objs[y] == s.objs[y])
    requires forall p :: p in t.pc && p != r ==> p in s.pc && t.pc[p] == s.pc[p]
    requires r in t.pc && (t.pc[r].Fresh? || t.pc[r].Closed?) ==> t.pc[r].obj == obj && IsNew(t, obj)
    ensures Clean(t, q, o)
  {
    hide Located, Owned, Holding, Looping, Clean;
    assert Sound(s, q, 0, obj, 0) && Sound(s, r, 0, obj, 0);
    assert Kept(s, q, obj) && s.spot[obj] == InFlight(r);
    OtherClean(s, t, r, obj, q, o);
  }

  lemma CloseClean(s: State, r: Rid, fd: Fd, obj: Obj, back: Back, q: Rid, o: Obj)
    requires Inv(s) && Clean(s, q, o) && CanGo(s, r) && s.pc[r] == Nulled(fd, obj, back)
    ensures Clean(CloseConn(s, r, obj, back), q, o)
  {
    hide Inv, Clean;
    InFlightClean(s, CloseConn(s, r, obj, back), r, obj, q, o);
  }

  lemma InitClean(s: State, r: Rid, fd: Fd, obj: Obj, q: Rid, o: Obj)
    requires Inv(s) && Clean(s, q, o) && CanGo(s, r) && s.pc[r] == Fresh(fd, obj)
    ensures Clean(InitConn(s, r, fd, obj), q, o)
  {
    hide Inv, Clean;
    InFlightClean(s, InitConn(s, r, fd, obj), r, obj, q, o);
  }

  lemma ReleaseClean(s: State, r: Rid, obj: Obj, back: Back, q: Rid, o: Obj)
    requires r in s.pc && s.pc[r] == Closed(obj, back) && Clean(s, q, o) && Clean(s, r, o)
    ensures Clean(Release(s, r, obj, back), q, o)
  {
  }

  // The other steps of a loop touch neither the pool nor an object.
  lemma PopClean(s: State, r: Rid, q: Rid, o: Obj)
    requires Clean(s, q, o) && r in s.closeQ
    ensures Clean(PopClose(s, r), q, o)
  {
    hide Clean;
    var l := if s.closeQ[r] == [] then Poll else GotFd(s.closeQ[r][0]);
    TurnsClean(s, PopClose(s, r), r, l, q, o);
  }

  lemma LookUpClean(s: State, r: Rid, fd: Fd, q: Rid, o: Obj)
    requires Clean(s, q, o)
    ensures Clean(LookUp(s, r, fd), q, o)
  {
    hide Clean;
    var l := if Key(r, fd) !in s.slots then Drain else Uncounted(fd, ToQueue);
    TurnsClean(s, LookUp(s, r, fd), r, l, q, o);
  }

  lemma TableClean(s: State, r: Rid, fd: Fd, obj: Obj, q: Rid, o: Obj)
    requires Clean(s, q, o)
    ensures Clean(CountConn(s, r, fd, obj), q, o) && Clean(FillSlot(s, r, fd, obj), q, o)
  {
    hide Clean;
    TurnsClean(s, CountConn(s, r, fd, obj), r, Counted(fd, obj), q, o);
    TurnsClean(s, FillSlot(s, r, fd, obj), r, Marking(fd), q, o);
  }

  lemma WorkClean(s: State, r: Rid, fd: Fd, q: Rid, o: Obj)
    requires Clean(s, q, o) && r in s.work && Key(r, fd) in s.slots
    ensures Clean(PushWork(s, r, fd), q, o)
  {
    hide Clean;
    TurnsClean(s, PushWork(s, r, fd), r, Dispatch, q, o);
  }

  lemma LoadClean(s: State, r: Rid, fd: Fd, q: Rid, o: Obj)
    requires Clean(s, q, o) && r in s.work
    ensures Clean(CheckLoad(s, r, fd), q, o)
  {
    hide Clean;
    var l := if |s.work[r]| >= s.limit then Uncounted(fd, ToEvents) else Checked(fd);
    TurnsClean(s, CheckLoad(s, r, fd), r, l, q, o);
  }

  lemma TurnClean(s: State, r: Rid, q: Rid, o: Obj)
    requires Clean(s, q, o)
    ensures Clean(At(s, r, Drain), q, o)
  {
    hide Clean;
    TurnsClean(s, At(s, r, Drain), r, Drain, q, o);
  }

  lemma GoClean(s: State, r: Rid, q: Rid, o: Obj)
    requires Inv(s) && CanGo(s, r) && Clean(s, q, o) && Clean(s, r, o)
    ensures Clean(GoOn(s, r), q, o)
  {
    hide Inv, Clean, PopClose, LookUp, CountConn, FillSlot, PushWork, CheckLoad;
    hide CloseConn, InitConn, Release, NullSlot, At;
    match s.pc[r]
    case Nulled(fd, obj, back) => CloseClean(s, r, fd, obj, back, q, o);
    case Fresh(fd, obj) => InitClean(s, r, fd, obj, q, o);
    case Closed(obj, back) => ReleaseClean(s, r, obj, back, q, o);
    case Uncounted(fd, back) => NullClean(s, r, fd, back, q, o);
    case Drain => PopClean(s, r, q, o);
    case GotFd(fd) => LookUpClean(s, r, fd, q, o);
    case Ready(fd, obj) => TableClean(s, r, fd, obj, q, o);
    case Counted(fd, obj) => TableClean(s, r, fd, obj, q, o);
    case Marked(fd) => LoadClean(s, r, fd, q, o);
    case Checked(fd) => WorkClean(s, r, fd, q, o);
    case Dispatch => TurnClean(s, r, q, o);
  }

  lemma NullClean(s: State, r: Rid, fd: Fd, back: Back, q: Rid, o: Obj)
    requires Key(r, fd) in s.slots && Clean(s, q, o)
    ensures Clean(NullSlot(s, r, fd, back), q, o)
  {
  }

  lemma FetchClean(s: State, r: Rid, extra: Obj, q: Rid, o: Obj)
    requires Inv(s) && CanFetch(s, r, extra) && Clean(s, q, o)
    ensures Clean(FetchEvent(s, r, extra), q, o)
  {
    hide NoDup, LoopKnows, Looping, Located, Owned, Holding;
    var s1 := NextEvent(s, r);
    if Key(r, s.batch[r][0]) in s.slots {
      FrameClean(s, FetchEvent(s, r, extra), q, o);
    } else if s.pool == [] {
      assert Sound(s, q, 0, extra, 0);
      NewClean(s1, r, s.batch[r][0], extra, q, o);
    } else {
      PooledClean(s1, r, s.batch[r][0], q, o);
    }
  }

  lemma NewClean(s: State, r: Rid, fd: Fd, extra: Obj, q: Rid, o: Obj)
    requires Clean(s, q, o) && s.pool == []
    ensures Clean(NewObject(s, r, fd, extra), q, o)
  {
  }

  lemma PooledClean(s: State, r: Rid, fd: Fd, q: Rid, o: Obj)
    requires Clean(s, q, o) && s.pool != []
    ensures Clean(AcquireObject(s, r, fd), q, o)
  {
  }

  lemma MarkClean(s: State, r: Rid, q: Rid, o: Obj)
    requires Inv(s) && CanMark(s, r) && Clean(s, q, o)
    ensures Clean(MarkEvent(s, r), q, o)
  {
    hide NoDup, LoopKnows;
    var x := s.slots[Key(r, s.pc[r].fd)];
    assert Sound(s, r, s.pc[r].fd, x, 0) && Sound(s, q, 0, x, 0);
    OtherClean(s, MarkEvent(s, r), r, x, q, o);
  }

  lemma AskClean(s: State, r: Rid, w: Wid, q: Rid, o: Obj)
    requires Inv(s) && HoldsObject(s, r, w) && Clean(s, q, o)
    ensures Clean(NotifyClose(s, r, w), q, o)
  {
    hide NoDup, LoopKnows;
    var x := s.hands[Key(r, w)];
    assert Sound(s, r, 0, x, w) && Sound(s, q, 0, x, w);
  }

  lemma StepClean(s: State, step: Step)
    requires Inv(s) && Enabled(s, step) && AllClean(s)
    ensures AllClean(Apply(s, step))
  {
    hide Inv, GoOn, FetchEvent, MarkEvent, NotifyClose, Clean, CanGo, CanWait;
    forall q, o ensures Clean(Apply(s, step), q, o) {
      assert Clean(s, q, o);
      match step
      case Go(r) => assert Clean(s, r, o); GoClean(s, r, q, o);
      case Fetch(r, extra) => FetchClean(s, r, extra, q, o);
      case Mark(r, known) => if known { MarkClean(s, r, q, o); } else { FrameClean(s, Apply(s, step), q, o); }
      case AskClose(r, w) => AskClean(s, r, w, q, o);
      case _ => FrameClean(s, Apply(s, step), q, o);
    }
  }

  lemma {:induction false} RunClean(s: State, steps: seq<Step>, end: State)
    requires Inv(s) && AllClean(s) && Runs(s, steps, end)
    ensures AllClean(end)
    decreases steps
  {
    hide Inv, AllClean, Apply, Enabled;
    if steps != [] {
      StepKeepsInv(s, steps[0]);
      StepClean(s, steps[0]);
      RunClean(Apply(s, steps[0]), steps[1..], end);
    }
  }

  // In every reachable state an object in the pool is as a new one: it has no descriptor, no reactor and its
  // closing flag is not set.  So is one that a loop has taken and not initialised yet.
  lemma PoolIsClean(s: State, r: Rid, o: Obj)
    requires Reachable(s)
    ensures o in s.pool || (r in s.pc && s.pc[r].Fresh? && s.pc[r].obj == o) ==>
              o in s.objs && s.objs[o] == Conn(None, 0, false)
  {
    hide Inv, Runs;
    var start, steps :| Init(start) && Runs(start, steps, s);
    InitInv(start);
    RunClean(start, steps, s);
    assert Clean(s, r, o);
  }
}
