/**
 The counter that all reactors share.
 */
module ReactorCount {
  import opened Reactors
  import opened ReactorSteps

  // The loops that have counted a connection and not yet filled its slot, and those that have
  // stopped counting one and not yet emptied its slot.
  function Early(pc: map<Rid, Loop>): set<Rid> { set r | r in pc && pc[r].Counted? }

  function Late(pc: map<Rid, Loop>): set<Rid> { set r | r in pc && pc[r].Uncounted? }

  ghost predicate Tallied(s: State) { s.count == |s.slots| + |Early(s.pc)| - |Late(s.pc)| }

  // What moving one loop to another point does to the two sets.
  lemma EarlyMove(pc: map<Rid, Loop>, r: Rid, l: Loop)
    requires r in pc
    ensures |Early(pc[r := l])| == |Early(pc)| + (if l.Counted? then 1 else 0) - (if pc[r].Counted? then 1 else 0)
  {
    var rest := Early(pc) - {r};
    assert Early(pc[r := l]) == if l.Counted? then rest + {r} else rest;
    assert Early(pc) == if pc[r].Counted? then rest + {r} else rest;
  }

  lemma LateMove(pc: map<Rid, Loop>, r: Rid, l: Loop)
    requires r in pc
    ensures |Late(pc[r := l])| == |Late(pc)| + (if l.Uncounted? then 1 else 0) - (if pc[r].Uncounted? then 1 else 0)
  {
    var rest := Late(pc) - {r};
    assert Late(pc[r := l]) == if l.Uncounted? then rest + {r} else rest;
    assert Late(pc) == if pc[r].Uncounted? then rest + {r} else rest;
  }

  lemma TallySame(s: State, t: State)
    requires Tallied(s) && t.count == s.count && t.slots == s.slots && t.pc == s.pc
    ensures Tallied(t)
  {
  }

  function Ahead(l: Loop): int { if l.Counted? then 1 else if l.Uncounted? then -1 else 0 }

  // A step of one loop that changes the counter as it should.
  lemma TallyLoop(s: State, t: State, r: Rid, l: Loop)
    requires Tallied(s) && r in s.pc && t.pc == s.pc[r := l]
    requires t.count - |t.slots| - Ahead(l) == s.count - |s.slots| - Ahead(s.pc[r])
    ensures Tallied(t)
  {
    hide Early, Late;
    EarlyMove(s.pc, r, l);
    LateMove(s.pc, r, l);
  }

  lemma TallyNull(s: State, r: Rid, fd: Fd, back: Back)
    requires Inv(s) && Tallied(s) && Known(s, r) && s.pc[r] == Uncounted(fd, back) && Key(r, fd) in s.slots
    ensures Tallied(NullSlot(s, r, fd, back))
  {
    hide Inv, Tallied;
    var t := NullSlot(s, r, fd, back);
    assert s.slots.Keys == t.slots.Keys + {Key(r, fd)};
    TallyLoop(s, t, r, t.pc[r]);
  }

  lemma SlotAdded(m: map<Key, Obj>, k: Key, o: Obj)
    requires k !in m
    ensures |m[k := o]| == |m| + 1
  {
    assert m[k := o].Keys == m.Keys + {k};
  }

  lemma TallyFill(s: State, r: Rid, fd: Fd, obj: Obj)
    requires Inv(s) && Tallied(s) && Known(s, r) && s.pc[r] == Counted(fd, obj)
    ensures Tallied(FillSlot(s, r, fd, obj))
  {
    hide Tallied, Inv, Early, Late;
    var t := FillSlot(s, r, fd, obj);
    LoopIsSound(s, r);
    SlotAdded(s.slots, Key(r, fd), obj);
    TallyLoop(s, t, r, t.pc[r]);
  }

  lemma TallyDrain(s: State, r: Rid)
    requires Tallied(s) && CanGo(s, r) && s.pc[r].Drain?
    ensures Tallied(PopClose(s, r))
  {
    hide Tallied, Early, Late;
    if s.closeQ[r] == [] { TallyLoop(s, PopClose(s, r), r, Poll); }
    else { TallyLoop(s, PopClose(s, r), r, GotFd(s.closeQ[r][0])); }
  }

  lemma TallyLookUp(s: State, r: Rid, fd: Fd)
    requires Tallied(s) && Known(s, r) && s.pc[r] == GotFd(fd)
    ensures Tallied(LookUp(s, r, fd))
  {
    hide Tallied, Early, Late;
    if Key(r, fd) in s.slots { TallyLoop(s, LookUp(s, r, fd), r, Uncounted(fd, ToQueue)); }
    else { TallyLoop(s, LookUp(s, r, fd), r, Drain); }
  }

  lemma TallyReap(s: State, r: Rid, fd: Fd)
    requires Tallied(s) && Known(s, r) && Ahead(s.pc[r]) == 0
    ensures Tallied(Reap(s, r, fd))
  {
    hide Tallied, Early, Late;
    TallyLoop(s, Reap(s, r, fd), r, Uncounted(fd, ToEvents));
  }

  lemma TallyGo(s: State, r: Rid)
    requires Inv(s) && Tallied(s) && CanGo(s, r)
    ensures Tallied(GoOn(s, r))
  {
    hide Inv, Tallied, Early, Late, NullSlot, FillSlot, PopClose, LookUp, Reap, CloseConn, Release, InitConn, PushWork;
    match s.pc[r]
    case Drain => TallyDrain(s, r);
    case GotFd(fd) => TallyLookUp(s, r, fd);
    case Uncounted(fd, back) => TallyNull(s, r, fd, back);
    case Ready(fd, obj) => TallyLoop(s, CountConn(s, r, fd, obj), r, Counted(fd, obj));
    case Counted(fd, obj) => TallyFill(s, r, fd, obj);
    case Marked(fd) =>
      if |s.work[r]| >= s.limit { TallyReap(s, r, fd); }
      else { TallyLoop(s, CheckLoad(s, r, fd), r, Checked(fd)); }
    case _ => TallyQuiet(s, r);
  }

  lemma TallyClose(s: State, r: Rid, obj: Obj, back: Back)
    requires Tallied(s) && r in s.pc && s.pc[r].Nulled? && obj in s.objs && s.objs[obj].fd.Some?
    ensures Tallied(CloseConn(s, r, obj, back))
  {
    hide Tallied, Early, Late;
    TallyLoop(s, CloseConn(s, r, obj, back), r, Closed(obj, back));
  }

  lemma TallyRelease(s: State, r: Rid, obj: Obj, back: Back)
    requires Tallied(s) && r in s.pc && s.pc[r].Closed?
    ensures Tallied(Release(s, r, obj, back))
  {
    hide Tallied, Early, Late;
    TallyLoop(s, Release(s, r, obj, back), r, if back == ToQueue then Drain else Dispatch);
  }

  // The steps that have nothing to do with the counter.
  lemma TallyQuiet(s: State, r: Rid)
    requires Tallied(s) && CanGo(s, r)
    requires s.pc[r].Nulled? || s.pc[r].Closed? || s.pc[r].Dispatch? || s.pc[r].Fresh? || s.pc[r].Checked?
    ensures Tallied(GoOn(s, r))
  {
    hide Tallied, Early, Late, CloseConn, Release;
    match s.pc[r]
    case Nulled(_, obj, back) => TallyClose(s, r, obj, back);
    case Closed(obj, back) => TallyRelease(s, r, obj, back);
    case Dispatch => TallyLoop(s, At(s, r, Drain), r, Drain);
    case Fresh(fd, obj) => TallyLoop(s, InitConn(s, r, fd, obj), r, Ready(fd, obj));
    case Checked(fd) => TallyLoop(s, PushWork(s, r, fd), r, Dispatch);
  }

  lemma TallyFetch(s: State, r: Rid, extra: Obj)
    requires Tallied(s) && CanFetch(s, r, extra)
    ensures Tallied(FetchEvent(s, r, extra))
  {
    hide Tallied, Early, Late;
    var fd := s.batch[r][0];
    if Key(r, fd) in s.slots { TallyLoop(s, FetchEvent(s, r, extra), r, Marking(fd)); }
    else if s.pool == [] { TallyLoop(s, FetchEvent(s, r, extra), r, Fresh(fd, extra)); }
    else { TallyLoop(s, FetchEvent(s, r, extra), r, Fresh(fd, s.pool[0])); }
  }

  lemma TallyMark(s: State, r: Rid)
    requires Tallied(s) && CanMark(s, r)
    ensures Tallied(MarkEvent(s, r))
  {
    hide Tallied, Early, Late;
    TallyLoop(s, MarkEvent(s, r), r, Marked(s.pc[r].fd));
  }

  lemma TallyStep(s: State, step: Step)
    requires Inv(s) && Tallied(s) && Enabled(s, step)
    ensures Tallied(Apply(s, step))
  {
    hide Inv, CanGo, Tallied, Early, Late, GoOn, FetchEvent, MarkEvent, Reap, TakeWork, RearmFd, NotifyClose, RestFd;
    match step
    case Go(r) => TallyGo(s, r);
    case Mark(r, known) =>
      if known { TallyMark(s, r); } else { TallyUnknown(s, r); }
    case Wait(r, fds) => TallyLoop(s, WaitEvents(s, r, fds), r, if fds == [] then Drain else Dispatch);
    case Fetch(r, extra) => TallyFetch(s, r, extra);
    case Accept(fd) => TallySame(s, AcceptFd(s, fd));
    case Give(r) => TallySame(s, GiveFd(s, r));
    case Take(r, w) => TallyTake(s, r, w);
    case Rearm(r, w) => TallyHeld(s, r, w);
    case AskClose(r, w) => TallyHeld(s, r, w);
    case Rest(r, w) => TallyHeld(s, r, w);
  }

  // The workers have nothing to do with the counter.
  lemma TallyTake(s: State, r: Rid, w: Wid)
    requires Tallied(s) && CanTake(s, r, w)
    ensures Tallied(TakeWork(s, r, w))
  {
    hide Tallied;
    TallySame(s, TakeWork(s, r, w));
  }

  lemma TallyHeld(s: State, r: Rid, w: Wid)
    requires Tallied(s) && HoldsObject(s, r, w)
    ensures Tallied(RearmFd(s, r, w)) && Tallied(NotifyClose(s, r, w)) && Tallied(RestFd(s, r, w))
  {
    hide Tallied;
    TallySame(s, RearmFd(s, r, w));
    TallySame(s, NotifyClose(s, r, w));
    TallySame(s, RestFd(s, r, w));
  }

  lemma TallyUnknown(s: State, r: Rid)
    requires Inv(s) && Tallied(s) && CanMark(s, r)
    ensures Tallied(Reap(s, r, s.pc[r].fd))
  {
    hide Tallied, Inv;
    LoopIsSound(s, r);
    TallyReap(s, r, s.pc[r].fd);
  }
}
