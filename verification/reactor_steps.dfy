/**
 Every step of the reactors keeps their invariant.  Each step is followed by what it leaves as it is and by one
 lemma for each part of the invariant that it touches.
 */
module ReactorSteps {
  import opened Reactors
  import opened Wrappers

  lemma DropFacts(q: seq<nat>)
    requires NoDup(q) && q != []
    ensures NoDup(q[1..]) && q[0] !in q[1..]
    ensures forall x :: x in q <==> x == q[0] || x in q[1..]
  {
    assert q == [q[0]] + q[1..];
  }

  lemma AppendFacts(q: seq<nat>, x: nat)
    requires NoDup(q) && x !in q
    ensures NoDup(q + [x])
    ensures forall y :: y in q + [x] <==> y in q || y == x
  {
  }

  // What a step of one loop leaves as it is, as far as the places of descriptors go.
  lemma LocatedFrame(s: State, t: State, r: Rid, q: Rid, d: Fd)
    requires r in s.pc && r in t.pc && t.pc == s.pc[r := t.pc[r]]
    requires CurrentFd(t.pc[r]) == CurrentFd(s.pc[r]) && ReapedFd(t.pc[r]) == ReapedFd(s.pc[r])
    requires t.place == s.place && t.open == s.open && t.accepted == s.accepted && t.armed == s.armed
    requires t.batch == s.batch && t.closeQ == s.closeQ
    requires Located(s, q, d)
    ensures Located(t, q, d)
  {
    hide CurrentFd, ReapedFd;
  }

  // Taking the next event of a batch.
  lemma NextLocated(s: State, r: Rid, fd: Fd, l: Loop, q: Rid, d: Fd)
    requires Known(s, r) && s.pc[r] == Dispatch && s.batch[r] != [] && fd == s.batch[r][0]
    requires CurrentFd(l) == Some(fd) && ReapedFd(l) == None
    requires Looping(s, r) && Located(s, r, fd) && Located(s, q, fd) && Located(s, q, d)
    ensures Located(At(NextEvent(s, r), r, l), q, d)
  {
    hide NoDup;
    DropFacts(s.batch[r]);
  }

  // A worker's object, on its way into the close queue.
  ghost predicate HeldHere(s: State, r: Rid, w: Wid, fd: Fd) {
    && Known(s, r) && NoDup(s.closeQ[r]) && PlaceIs(s, fd, Held(r, w)) && HoldsObject(s, r, w)
    && s.objs[s.hands[Key(r, w)]] == Conn(Some(fd), r, false)
  }

  lemma HeldFacts(s: State, r: Rid, w: Wid, fd: Fd)
    requires HoldsObject(s, r, w) && s.objs[s.hands[Key(r, w)]].fd == Some(fd)
    requires Holding(s, r, w) && Looping(s, r) && Owned(s, r, fd)
    ensures HeldHere(s, r, w, fd)
  {
    hide NoDup;
  }

  lemma OwnedFrame(s: State, t: State, q: Rid, d: Fd)
    requires t.slots == s.slots && t.objs == s.objs && t.spot == s.spot && t.place == s.place
    requires t.work == s.work && t.hands == s.hands
    requires Owned(s, q, d)
    ensures Owned(t, q, d)
  {
  }

  lemma KeptFrame(s: State, t: State, r: Rid, q: Rid, o: Obj, v: Wid)
    requires r in s.pc && r in t.pc && t.pc == s.pc[r := t.pc[r]] && LooseObj(t.pc[r]) == LooseObj(s.pc[r])
    requires t.slots == s.slots && t.objs == s.objs && t.spot == s.spot && t.place == s.place
    requires t.work == s.work && t.hands == s.hands && t.pool == s.pool
    requires Kept(s, q, o) && Holding(s, q, v)
    ensures Kept(t, q, o) && Holding(t, q, v)
  {
    hide LooseObj;
  }

  lemma AcceptLocated(s: State, fd: Fd, q: Rid, d: Fd)
    requires fd !in s.open && s.accepted == None
    requires Located(s, q, fd) && Located(s, q, d)
    ensures Located(AcceptFd(s, fd), q, d)
  {
    hide NoDup;
  }

  lemma AcceptOwned(s: State, fd: Fd, q: Rid, d: Fd)
    requires fd !in s.open && s.accepted == None
    requires Located(s, q, fd) && Owned(s, q, d)
    ensures Owned(AcceptFd(s, fd), q, d)
  {
    hide NoDup;
  }

  lemma AcceptObjects(s: State, fd: Fd, q: Rid, o: Obj, v: Wid)
    requires fd !in s.open && s.accepted == None
    requires Located(s, q, fd) && Kept(s, q, o) && Holding(s, q, v) && Looping(s, q)
    ensures Kept(AcceptFd(s, fd), q, o) && Holding(AcceptFd(s, fd), q, v) && Looping(AcceptFd(s, fd), q)
  {
    hide NoDup;
  }

  lemma AcceptStep(s: State, fd: Fd, q: Rid, d: Fd, o: Obj, v: Wid)
    requires fd !in s.open && s.accepted == None
    requires Sound(s, q, fd, o, v) && Sound(s, q, d, o, v)
    ensures Sound(AcceptFd(s, fd), q, d, o, v)
  {
    hide Located, Owned, Kept, Holding, Looping;
    AcceptLocated(s, fd, q, d);
    AcceptOwned(s, fd, q, d);
    AcceptObjects(s, fd, q, o, v);
  }

  lemma GiveLocated(s: State, r: Rid, fd: Fd, q: Rid, d: Fd)
    requires s.accepted == Some(fd) && Known(s, r)
    requires Located(s, r, fd) && Located(s, q, fd) && Located(s, q, d)
    ensures Located(GiveFd(s, r), q, d)
  {
    hide NoDup;
  }

  lemma GiveOwned(s: State, r: Rid, fd: Fd, q: Rid, d: Fd)
    requires s.accepted == Some(fd) && Known(s, r)
    requires Located(s, r, fd) && Owned(s, q, d)
    ensures Owned(GiveFd(s, r), q, d)
  {
    hide NoDup;
  }

  lemma GiveObjects(s: State, r: Rid, fd: Fd, q: Rid, o: Obj, v: Wid)
    requires s.accepted == Some(fd) && Known(s, r)
    requires Located(s, r, fd) && Kept(s, q, o) && Holding(s, q, v) && Looping(s, q)
    ensures Kept(GiveFd(s, r), q, o) && Holding(GiveFd(s, r), q, v) && Looping(GiveFd(s, r), q)
  {
    hide NoDup;
  }

  lemma GiveStep(s: State, r: Rid, fd: Fd, q: Rid, d: Fd, o: Obj, v: Wid)
    requires s.accepted == Some(fd) && Known(s, r)
    requires Sound(s, r, fd, o, v) && Sound(s, q, fd, o, v) && Sound(s, q, d, o, v)
    ensures Sound(GiveFd(s, r), q, d, o, v)
  {
    hide Located, Owned, Kept, Holding, Looping;
    GiveLocated(s, r, fd, q, d);
    GiveOwned(s, r, fd, q, d);
    GiveObjects(s, r, fd, q, o, v);
  }

  lemma WaitLocated(s: State, r: Rid, fds: seq<Fd>, q: Rid, d: Fd)
    requires CanWait(s, r, fds) && (forall fd :: fd in fds ==> PlaceIs(s, fd, Armed(r)))
    requires Looping(s, r) && Located(s, r, d) && Located(s, q, d)
    ensures Located(WaitEvents(s, r, fds), q, d)
  {
    hide NoDup;
  }

  lemma WaitOwned(s: State, r: Rid, fds: seq<Fd>, q: Rid, d: Fd)
    requires CanWait(s, r, fds) && (forall fd :: fd in fds ==> PlaceIs(s, fd, Armed(r)))
    requires Located(s, r, d) && Owned(s, q, d)
    ensures Owned(WaitEvents(s, r, fds), q, d)
  {
    hide NoDup;
  }

  lemma WaitObjects(s: State, r: Rid, fds: seq<Fd>, q: Rid, o: Obj, v: Wid)
    requires CanWait(s, r, fds) && (forall fd :: fd in fds ==> PlaceIs(s, fd, Armed(r)))
    requires Kept(s, q, o) && Holding(s, q, v) && Looping(s, q)
    ensures Kept(WaitEvents(s, r, fds), q, o) && Holding(WaitEvents(s, r, fds), q, v)
    ensures Looping(WaitEvents(s, r, fds), q)
  {
    hide NoDup;
  }

  lemma WaitStep(s: State, r: Rid, fds: seq<Fd>, q: Rid, d: Fd, o: Obj, v: Wid)
    requires CanWait(s, r, fds) && (forall fd :: fd in fds ==> PlaceIs(s, fd, Armed(r)))
    requires Sound(s, r, d, o, v) && Sound(s, q, d, o, v)
    ensures Sound(WaitEvents(s, r, fds), q, d, o, v)
  {
    hide Located, Owned, Kept, Holding, Looping;
    WaitLocated(s, r, fds, q, d);
    WaitOwned(s, r, fds, q, d);
    WaitObjects(s, r, fds, q, o, v);
  }

  lemma FetchKnownOwned(s: State, r: Rid, extra: Obj, fd: Fd, q: Rid, d: Fd)
    requires CanFetch(s, r, extra) && fd == s.batch[r][0] && Key(r, fd) in s.slots
    requires Located(s, r, fd) && Owned(s, q, d)
    ensures Owned(At(NextEvent(s, r), r, Marking(fd)), q, d)
  {
    hide NoDup;
  }

  lemma FetchKnownObjects(s: State, r: Rid, extra: Obj, fd: Fd, q: Rid, o: Obj, v: Wid)
    requires CanFetch(s, r, extra) && fd == s.batch[r][0] && Key(r, fd) in s.slots
    requires Located(s, r, fd) && Kept(s, q, o) && Holding(s, q, v) && Looping(s, r) && Looping(s, q)
    ensures Kept(At(NextEvent(s, r), r, Marking(fd)), q, o) && Holding(At(NextEvent(s, r), r, Marking(fd)), q, v)
    ensures Looping(At(NextEvent(s, r), r, Marking(fd)), q)
  {
    hide NoDup;
    DropFacts(s.batch[r]);
  }

  lemma FetchKnownStep(s: State, r: Rid, extra: Obj, fd: Fd, q: Rid, d: Fd, o: Obj, v: Wid)
    requires CanFetch(s, r, extra) && fd == s.batch[r][0] && Key(r, fd) in s.slots
    requires Sound(s, r, fd, o, v) && Sound(s, q, fd, o, v) && Sound(s, q, d, o, v)
    ensures Sound(FetchEvent(s, r, extra), q, d, o, v)
  {
    hide Located, Owned, Kept, Holding, Looping, At, Move;
    NextLocated(s, r, fd, Marking(fd), q, d);
    FetchKnownOwned(s, r, extra, fd, q, d);
    FetchKnownObjects(s, r, extra, fd, q, o, v);
  }

  lemma FetchNewOwned(s: State, r: Rid, extra: Obj, fd: Fd, q: Rid, d: Fd)
    requires CanFetch(s, r, extra) && fd == s.batch[r][0] && Key(r, fd) !in s.slots && s.pool == []
    requires Located(s, r, fd) && Owned(s, q, d)
    ensures Owned(NewObject(NextEvent(s, r), r, fd, extra), q, d)
  {
    hide NoDup;
  }

  lemma FetchNewObjects(s: State, r: Rid, extra: Obj, fd: Fd, q: Rid, o: Obj, v: Wid)
    requires CanFetch(s, r, extra) && fd == s.batch[r][0] && Key(r, fd) !in s.slots && s.pool == []
    requires Located(s, r, fd) && Kept(s, q, o) && Holding(s, q, v) && Looping(s, r)
    ensures Kept(NewObject(NextEvent(s, r), r, fd, extra), q, o)
    ensures Holding(NewObject(NextEvent(s, r), r, fd, extra), q, v)
  {
    hide NoDup;
    DropFacts(s.batch[r]);
  }

  lemma FetchNewLooping(s: State, r: Rid, extra: Obj, fd: Fd, q: Rid)
    requires CanFetch(s, r, extra) && fd == s.batch[r][0] && Key(r, fd) !in s.slots && s.pool == []
    requires Located(s, r, fd) && Looping(s, r) && Looping(s, q)
    ensures Looping(NewObject(NextEvent(s, r), r, fd, extra), q)
  {
    hide NoDup;
    DropFacts(s.batch[r]);
  }

  lemma FetchNewStep(s: State, r: Rid, extra: Obj, fd: Fd, q: Rid, d: Fd, o: Obj, v: Wid)
    requires CanFetch(s, r, extra) && fd == s.batch[r][0] && Key(r, fd) !in s.slots && s.pool == []
    requires Sound(s, r, fd, extra, v) && Sound(s, q, fd, extra, v) && Sound(s, q, d, o, v)
    ensures Sound(FetchEvent(s, r, extra), q, d, o, v)
  {
    hide Located, Owned, Kept, Holding, Looping;
    NextLocated(s, r, fd, Fresh(fd, extra), q, d);
    LocatedFrame(At(NextEvent(s, r), r, Fresh(fd, extra)), NewObject(NextEvent(s, r), r, fd, extra), r, q, d);
    FetchNewOwned(s, r, extra, fd, q, d);
    FetchNewObjects(s, r, extra, fd, q, o, v);
    FetchNewLooping(s, r, extra, fd, q);
  }

  lemma FetchPooledOwned(s: State, r: Rid, extra: Obj, fd: Fd, q: Rid, d: Fd)
    requires CanFetch(s, r, extra) && fd == s.batch[r][0] && Key(r, fd) !in s.slots && s.pool != []
    requires Located(s, r, fd) && Owned(s, q, d) && Kept(s, r, s.pool[0])
    ensures Owned(AcquireObject(NextEvent(s, r), r, fd), q, d)
  {
    hide NoDup;
  }

  lemma FetchPooledObjects(s: State, r: Rid, extra: Obj, fd: Fd, q: Rid, o: Obj, v: Wid)
    requires CanFetch(s, r, extra) && fd == s.batch[r][0] && Key(r, fd) !in s.slots && s.pool != []
    requires Located(s, r, fd) && Kept(s, q, s.pool[0]) && Kept(s, r, s.pool[0]) && Kept(s, q, o)
    requires Holding(s, q, v) && Looping(s, r)
    ensures Kept(AcquireObject(NextEvent(s, r), r, fd), q, o)
    ensures Holding(AcquireObject(NextEvent(s, r), r, fd), q, v)
  {
    hide NoDup;
    DropFacts(s.batch[r]);
    DropFacts(s.pool);
  }

  lemma FetchPooledLooping(s: State, r: Rid, extra: Obj, fd: Fd, q: Rid)
    requires CanFetch(s, r, extra) && fd == s.batch[r][0] && Key(r, fd) !in s.slots && s.pool != []
    requires Located(s, r, fd) && Kept(s, q, s.pool[0]) && Kept(s, r, s.pool[0]) && Looping(s, r)
    requires Looping(s, q)
    ensures Looping(AcquireObject(NextEvent(s, r), r, fd), q)
  {
    hide NoDup;
    DropFacts(s.batch[r]);
    DropFacts(s.pool);
  }

  lemma FetchPooledStep(s: State, r: Rid, extra: Obj, fd: Fd, q: Rid, d: Fd, o: Obj, v: Wid)
    requires CanFetch(s, r, extra) && fd == s.batch[r][0] && Key(r, fd) !in s.slots && s.pool != []
    requires Sound(s, r, fd, s.pool[0], v) && Sound(s, q, fd, s.pool[0], v) && Sound(s, q, d, o, v)
    ensures Sound(FetchEvent(s, r, extra), q, d, o, v)
  {
    hide Located, Owned, Kept, Holding, Looping;
    NextLocated(s, r, fd, Fresh(fd, s.pool[0]), q, d);
    LocatedFrame(At(NextEvent(s, r), r, Fresh(fd, s.pool[0])), AcquireObject(NextEvent(s, r), r, fd), r, q, d);
    FetchPooledOwned(s, r, extra, fd, q, d);
    FetchPooledObjects(s, r, extra, fd, q, o, v);
    FetchPooledLooping(s, r, extra, fd, q);
  }

  lemma MarkOwned(s: State, r: Rid, q: Rid, d: Fd)
    requires CanMark(s, r)
    requires Owned(s, r, s.pc[r].fd) && Owned(s, q, d)
    ensures Owned(MarkEvent(s, r), q, d)
  {
    hide NoDup;
  }

  lemma MarkObjects(s: State, r: Rid, q: Rid, o: Obj, v: Wid)
    requires CanMark(s, r)
    requires Owned(s, r, s.pc[r].fd) && Kept(s, q, o) && Holding(s, q, v) && Looping(s, q)
    ensures Kept(MarkEvent(s, r), q, o) && Holding(MarkEvent(s, r), q, v) && Looping(MarkEvent(s, r), q)
  {
    hide NoDup;
  }

  lemma MarkStep(s: State, r: Rid, q: Rid, d: Fd, o: Obj, v: Wid)
    requires CanMark(s, r)
    requires Sound(s, r, s.pc[r].fd, o, v) && Sound(s, q, d, o, v)
    ensures Sound(MarkEvent(s, r), q, d, o, v)
  {
    hide Located, Owned, Kept, Holding, Looping;
    LocatedFrame(s, MarkEvent(s, r), r, q, d);
    MarkOwned(s, r, q, d);
    MarkObjects(s, r, q, o, v);
  }

  lemma ReapLocated(s: State, r: Rid, fd: Fd, q: Rid, d: Fd)
    requires r in s.pc && (s.pc[r] == Marking(fd) || s.pc[r] == Marked(fd))
    requires Located(s, r, fd) && Located(s, q, fd) && Located(s, q, d)
    ensures Located(Reap(s, r, fd), q, d)
  {
    hide NoDup;
  }

  lemma ReapOwned(s: State, r: Rid, fd: Fd, q: Rid, d: Fd)
    requires r in s.pc && (s.pc[r] == Marking(fd) || s.pc[r] == Marked(fd))
    requires Located(s, r, fd) && Looping(s, r) && Owned(s, q, d)
    ensures Owned(Reap(s, r, fd), q, d)
  {
    hide NoDup;
  }

  lemma ReapObjects(s: State, r: Rid, fd: Fd, q: Rid, o: Obj, v: Wid)
    requires r in s.pc && (s.pc[r] == Marking(fd) || s.pc[r] == Marked(fd))
    requires Located(s, r, fd) && Kept(s, q, o) && Holding(s, q, v) && Looping(s, r) && Looping(s, q)
    ensures Kept(Reap(s, r, fd), q, o) && Holding(Reap(s, r, fd), q, v) && Looping(Reap(s, r, fd), q)
  {
    hide NoDup;
  }

  lemma ReapStep(s: State, r: Rid, fd: Fd, q: Rid, d: Fd, o: Obj, v: Wid)
    requires r in s.pc && (s.pc[r] == Marking(fd) || s.pc[r] == Marked(fd))
    requires Sound(s, r, fd, o, v) && Sound(s, q, fd, o, v) && Sound(s, q, d, o, v)
    ensures Sound(Reap(s, r, fd), q, d, o, v)
  {
    hide Located, Owned, Kept, Holding, Looping;
    ReapLocated(s, r, fd, q, d);
    ReapOwned(s, r, fd, q, d);
    ReapObjects(s, r, fd, q, o, v);
  }

  lemma TakeLocated(s: State, r: Rid, w: Wid, fd: Fd, q: Rid, d: Fd)
    requires CanTake(s, r, w) && s.objs[s.work[r][0]].fd == Some(fd)
    requires Kept(s, r, s.work[r][0]) && Located(s, q, fd) && Located(s, q, d)
    ensures Located(TakeWork(s, r, w), q, d)
  {
    hide NoDup;
  }

  lemma TakeOwned(s: State, r: Rid, w: Wid, fd: Fd, q: Rid, d: Fd)
    requires CanTake(s, r, w) && s.objs[s.work[r][0]].fd == Some(fd)
    requires Looping(s, r) && Kept(s, r, s.work[r][0]) && Owned(s, r, fd) && Owned(s, q, d)
    ensures Owned(TakeWork(s, r, w), q, d)
  {
    hide NoDup;
    DropFacts(s.work[r]);
  }

  lemma TakeObjects(s: State, r: Rid, w: Wid, fd: Fd, q: Rid, o: Obj, v: Wid)
    requires CanTake(s, r, w) && s.objs[s.work[r][0]].fd == Some(fd)
    requires Looping(s, r) && Kept(s, r, s.work[r][0]) && Owned(s, r, fd) && Kept(s, q, o) && Holding(s, q, v)
    requires Looping(s, q)
    ensures Kept(TakeWork(s, r, w), q, o) && Holding(TakeWork(s, r, w), q, v) && Looping(TakeWork(s, r, w), q)
  {
    hide NoDup;
    DropFacts(s.work[r]);
  }

  lemma TakeStep(s: State, r: Rid, w: Wid, fd: Fd, q: Rid, d: Fd, o: Obj, v: Wid)
    requires CanTake(s, r, w) && s.objs[s.work[r][0]].fd == Some(fd)
    requires Sound(s, r, fd, s.work[r][0], w) && Sound(s, q, fd, o, v) && Sound(s, q, d, o, v)
    ensures Sound(TakeWork(s, r, w), q, d, o, v)
  {
    hide Located, Owned, Kept, Holding, Looping;
    TakeLocated(s, r, w, fd, q, d);
    TakeOwned(s, r, w, fd, q, d);
    TakeObjects(s, r, w, fd, q, o, v);
  }

  lemma RearmStep(s: State, r: Rid, w: Wid, fd: Fd, q: Rid, d: Fd, o: Obj, v: Wid)
    requires HoldsObject(s, r, w) && s.objs[s.hands[Key(r, w)]].fd == Some(fd)
    requires Sound(s, r, fd, o, w) && Sound(s, r, d, o, w) && Sound(s, q, fd, o, v) && Sound(s, q, d, o, v)
    ensures Sound(RearmFd(s, r, w), q, d, o, v)
  {
    hide NoDup;
  }

  lemma AskLocated(s: State, r: Rid, w: Wid, fd: Fd, q: Rid, d: Fd)
    requires HoldsObject(s, r, w) && s.objs[s.hands[Key(r, w)]].fd == Some(fd)
    requires HeldHere(s, r, w, fd) && Located(s, r, fd) && Located(s, q, fd) && Located(s, q, d)
    ensures Located(NotifyClose(s, r, w), q, d)
  {
    hide NoDup;
    AppendFacts(s.closeQ[r], fd);
  }

  lemma AskOwned(s: State, r: Rid, w: Wid, fd: Fd, q: Rid, d: Fd)
    requires HoldsObject(s, r, w) && s.objs[s.hands[Key(r, w)]].fd == Some(fd)
    requires Holding(s, r, w) && Owned(s, r, fd) && Owned(s, r, d) && Owned(s, q, d)
    ensures Owned(NotifyClose(s, r, w), q, d)
  {
    hide NoDup;
  }

  lemma AskObjects(s: State, r: Rid, w: Wid, fd: Fd, q: Rid, o: Obj, v: Wid)
    requires HoldsObject(s, r, w) && s.objs[s.hands[Key(r, w)]].fd == Some(fd)
    requires Holding(s, r, w) && Looping(s, r) && Located(s, r, fd) && Owned(s, r, fd) && Kept(s, q, o)
    requires Holding(s, q, v) && Looping(s, q)
    ensures Kept(NotifyClose(s, r, w), q, o) && Holding(NotifyClose(s, r, w), q, v)
    ensures Looping(NotifyClose(s, r, w), q)
  {
    hide NoDup;
    AppendFacts(s.closeQ[r], fd);
  }

  lemma AskStep(s: State, r: Rid, w: Wid, fd: Fd, q: Rid, d: Fd, o: Obj, v: Wid)
    requires HoldsObject(s, r, w) && s.objs[s.hands[Key(r, w)]].fd == Some(fd)
    requires Sound(s, r, fd, o, w) && Sound(s, r, d, o, w) && Sound(s, q, fd, o, v) && Sound(s, q, d, o, v)
    ensures Sound(NotifyClose(s, r, w), q, d, o, v)
  {
    hide Located, Owned, Kept, Holding, Looping;
    HeldFacts(s, r, w, fd);
    AskLocated(s, r, w, fd, q, d);
    AskOwned(s, r, w, fd, q, d);
    AskObjects(s, r, w, fd, q, o, v);
  }

  lemma RestStep(s: State, r: Rid, w: Wid, fd: Fd, q: Rid, d: Fd, o: Obj, v: Wid)
    requires HoldsObject(s, r, w) && s.objs[s.hands[Key(r, w)]].fd == Some(fd)
    requires Sound(s, r, fd, o, w) && Sound(s, r, d, o, w) && Sound(s, q, fd, o, v) && Sound(s, q, d, o, v)
    ensures Sound(RestFd(s, r, w), q, d, o, v)
  {
    hide NoDup;
  }

  lemma PopNoneLooping(s: State, r: Rid, q: Rid)
    requires Known(s, r) && s.pc[r] == Drain && s.closeQ[r] == []
    requires Looping(s, r) && Looping(s, q)
    ensures Looping(PopClose(s, r), q)
  {
    hide NoDup;
  }

  lemma PopNoneStep(s: State, r: Rid, q: Rid, d: Fd, o: Obj, v: Wid)
    requires Known(s, r) && s.pc[r] == Drain && s.closeQ[r] == []
    requires Sound(s, r, d, o, v) && Sound(s, q, d, o, v)
    ensures Sound(PopClose(s, r), q, d, o, v)
  {
    hide Located, Owned, Kept, Holding, Looping;
    LocatedFrame(s, PopClose(s, r), r, q, d);
    OwnedFrame(s, PopClose(s, r), q, d);
    KeptFrame(s, PopClose(s, r), r, q, o, v);
    PopNoneLooping(s, r, q);
  }

  lemma PopOneLocated(s: State, r: Rid, fd: Fd, q: Rid, d: Fd)
    requires Known(s, r) && s.pc[r] == Drain && s.closeQ[r] != [] && fd == s.closeQ[r][0]
    requires Looping(s, r) && Located(s, r, fd) && Located(s, q, fd) && Located(s, q, d)
    ensures Located(PopClose(s, r), q, d)
  {
    hide NoDup;
    DropFacts(s.closeQ[r]);
  }

  lemma PopOneOwned(s: State, r: Rid, fd: Fd, q: Rid, d: Fd)
    requires Known(s, r) && s.pc[r] == Drain && s.closeQ[r] != [] && fd == s.closeQ[r][0]
    requires Located(s, r, fd) && Owned(s, r, fd) && Owned(s, q, d)
    ensures Owned(PopClose(s, r), q, d)
  {
    hide NoDup;
  }

  lemma PopOneObjects(s: State, r: Rid, fd: Fd, q: Rid, o: Obj, v: Wid)
    requires Known(s, r) && s.pc[r] == Drain && s.closeQ[r] != [] && fd == s.closeQ[r][0]
    requires Looping(s, r) && Located(s, r, fd) && Owned(s, r, fd) && Kept(s, q, o) && Holding(s, q, v)
    requires Looping(s, q)
    ensures Kept(PopClose(s, r), q, o) && Holding(PopClose(s, r), q, v) && Looping(PopClose(s, r), q)
  {
    hide NoDup;
    DropFacts(s.closeQ[r]);
  }

  lemma PopOneStep(s: State, r: Rid, fd: Fd, q: Rid, d: Fd, o: Obj, v: Wid)
    requires Known(s, r) && s.pc[r] == Drain && s.closeQ[r] != [] && fd == s.closeQ[r][0]
    requires Sound(s, r, fd, o, v) && Sound(s, q, fd, o, v) && Sound(s, q, d, o, v)
    ensures Sound(PopClose(s, r), q, d, o, v)
  {
    hide Located, Owned, Kept, Holding, Looping;
    PopOneLocated(s, r, fd, q, d);
    PopOneOwned(s, r, fd, q, d);
    PopOneObjects(s, r, fd, q, o, v);
  }

  lemma LookUpLooping(s: State, r: Rid, fd: Fd, q: Rid)
    requires Known(s, r) && s.pc[r] == GotFd(fd) && Key(r, fd) in s.slots
    requires Looping(s, r) && Looping(s, q)
    ensures Looping(LookUp(s, r, fd), q)
  {
    hide NoDup;
  }

  lemma LookUpStep(s: State, r: Rid, fd: Fd, q: Rid, d: Fd, o: Obj, v: Wid)
    requires Known(s, r) && s.pc[r] == GotFd(fd) && Key(r, fd) in s.slots
    requires Sound(s, r, fd, o, v) && Sound(s, q, d, o, v)
    ensures Sound(LookUp(s, r, fd), q, d, o, v)
  {
    hide Located, Owned, Kept, Holding, Looping;
    LocatedFrame(s, LookUp(s, r, fd), r, q, d);
    OwnedFrame(s, LookUp(s, r, fd), q, d);
    KeptFrame(s, LookUp(s, r, fd), r, q, o, v);
    LookUpLooping(s, r, fd, q);
  }

  lemma NullOwned(s: State, r: Rid, fd: Fd, back: Back, q: Rid, d: Fd)
    requires Known(s, r) && s.pc[r] == Uncounted(fd, back) && Key(r, fd) in s.slots
    requires Looping(s, r) && Located(s, r, fd) && Owned(s, r, fd) && Kept(s, r, s.slots[Key(r, fd)])
    requires Owned(s, q, d)
    ensures Owned(NullSlot(s, r, fd, back), q, d)
  {
    hide NoDup;
  }

  lemma NullObjects(s: State, r: Rid, fd: Fd, back: Back, q: Rid, o: Obj, v: Wid)
    requires Known(s, r) && s.pc[r] == Uncounted(fd, back) && Key(r, fd) in s.slots
    requires Looping(s, r) && Located(s, r, fd) && Owned(s, r, fd) && Kept(s, r, s.slots[Key(r, fd)])
    requires Kept(s, q, s.slots[Key(r, fd)]) && Kept(s, q, o) && Holding(s, q, v)
    ensures Kept(NullSlot(s, r, fd, back), q, o) && Holding(NullSlot(s, r, fd, back), q, v)
  {
    hide NoDup;
  }

  lemma NullLooping(s: State, r: Rid, fd: Fd, back: Back, q: Rid)
    requires Known(s, r) && s.pc[r] == Uncounted(fd, back) && Key(r, fd) in s.slots
    requires Looping(s, r) && Located(s, r, fd) && Owned(s, r, fd) && Kept(s, r, s.slots[Key(r, fd)])
    requires Kept(s, q, s.slots[Key(r, fd)]) && Looping(s, q)
    ensures Looping(NullSlot(s, r, fd, back), q)
  {
    hide NoDup;
  }

  lemma NullStep(s: State, r: Rid, fd: Fd, back: Back, q: Rid, d: Fd, o: Obj, v: Wid)
    requires Known(s, r) && s.pc[r] == Uncounted(fd, back) && Key(r, fd) in s.slots
    requires Sound(s, r, fd, s.slots[Key(r, fd)], v) && Sound(s, q, fd, s.slots[Key(r, fd)], v)
    requires Sound(s, q, d, o, v)
    ensures Sound(NullSlot(s, r, fd, back), q, d, o, v)
  {
    hide Located, Owned, Kept, Holding, Looping;
    LocatedFrame(s, NullSlot(s, r, fd, back), r, q, d);
    NullOwned(s, r, fd, back, q, d);
    NullObjects(s, r, fd, back, q, o, v);
    NullLooping(s, r, fd, back, q);
  }

  lemma CloseLocated(s: State, r: Rid, fd: Fd, obj: Obj, back: Back, q: Rid, d: Fd)
    requires Known(s, r) && s.pc[r] == Nulled(fd, obj, back) && obj in s.objs && s.objs[obj].fd == Some(fd)
    requires Located(s, r, fd) && Located(s, q, fd) && Located(s, q, d) && Looping(s, r)
    ensures Located(CloseConn(s, r, obj, back), q, d)
  {
    hide NoDup;
  }

  lemma CloseOwned(s: State, r: Rid, fd: Fd, obj: Obj, back: Back, q: Rid, d: Fd)
    requires Known(s, r) && s.pc[r] == Nulled(fd, obj, back) && obj in s.objs && s.objs[obj].fd == Some(fd)
    requires Located(s, r, fd) && Looping(s, r) && Kept(s, r, obj) && Owned(s, q, d)
    ensures Owned(CloseConn(s, r, obj, back), q, d)
  {
    hide NoDup;
  }

  lemma CloseObjects(s: State, r: Rid, fd: Fd, obj: Obj, back: Back, q: Rid, o: Obj, v: Wid)
    requires Known(s, r) && s.pc[r] == Nulled(fd, obj, back) && obj in s.objs && s.objs[obj].fd == Some(fd)
    requires Located(s, r, fd) && Kept(s, r, obj) && Kept(s, q, obj) && Kept(s, q, o) && Holding(s, q, v)
    requires Looping(s, r) && Looping(s, q)
    ensures Kept(CloseConn(s, r, obj, back), q, o) && Holding(CloseConn(s, r, obj, back), q, v)
    ensures Looping(CloseConn(s, r, obj, back), q)
  {
    hide NoDup;
  }

  lemma CloseStep(s: State, r: Rid, fd: Fd, obj: Obj, back: Back, q: Rid, d: Fd, o: Obj, v: Wid)
    requires Known(s, r) && s.pc[r] == Nulled(fd, obj, back) && obj in s.objs && s.objs[obj].fd == Some(fd)
    requires Sound(s, r, fd, obj, v) && Sound(s, q, fd, obj, v) && Sound(s, q, d, o, v)
    ensures Sound(CloseConn(s, r, obj, back), q, d, o, v)
  {
    hide Located, Owned, Kept, Holding, Looping;
    CloseLocated(s, r, fd, obj, back, q, d);
    CloseOwned(s, r, fd, obj, back, q, d);
    CloseObjects(s, r, fd, obj, back, q, o, v);
  }

  lemma ReleaseOwned(s: State, r: Rid, obj: Obj, back: Back, q: Rid, d: Fd)
    requires Known(s, r) && s.pc[r] == Closed(obj, back)
    requires Kept(s, r, obj) && Owned(s, q, d)
    ensures Owned(Release(s, r, obj, back), q, d)
  {
    hide NoDup;
  }

  lemma ReleaseObjects(s: State, r: Rid, obj: Obj, back: Back, q: Rid, o: Obj, v: Wid)
    requires Known(s, r) && s.pc[r] == Closed(obj, back)
    requires Kept(s, r, obj) && Kept(s, q, obj) && Kept(s, q, o) && Holding(s, q, v) && Looping(s, r)
    ensures Kept(Release(s, r, obj, back), q, o) && Holding(Release(s, r, obj, back), q, v)
  {
    hide NoDup;
    AppendFacts(s.pool, obj);
  }

  lemma ReleaseLooping(s: State, r: Rid, obj: Obj, back: Back, q: Rid)
    requires Known(s, r) && s.pc[r] == Closed(obj, back)
    requires Kept(s, r, obj) && Kept(s, q, obj) && Looping(s, r) && Looping(s, q)
    ensures Looping(Release(s, r, obj, back), q)
  {
    hide NoDup;
    AppendFacts(s.pool, obj);
  }

  lemma ReleaseStep(s: State, r: Rid, obj: Obj, back: Back, q: Rid, d: Fd, o: Obj, v: Wid)
    requires Known(s, r) && s.pc[r] == Closed(obj, back)
    requires Sound(s, r, d, obj, v) && Sound(s, q, d, obj, v) && Sound(s, q, d, o, v)
    ensures Sound(Release(s, r, obj, back), q, d, o, v)
  {
    hide Located, Owned, Kept, Holding, Looping;
    LocatedFrame(s, Release(s, r, obj, back), r, q, d);
    ReleaseOwned(s, r, obj, back, q, d);
    ReleaseObjects(s, r, obj, back, q, o, v);
    ReleaseLooping(s, r, obj, back, q);
  }

  lemma TurnLooping(s: State, r: Rid, q: Rid)
    requires Known(s, r) && s.pc[r] == Dispatch && s.batch[r] == []
    requires Looping(s, r) && Looping(s, q)
    ensures Looping(At(s, r, Drain), q)
  {
    hide NoDup;
  }

  lemma TurnStep(s: State, r: Rid, q: Rid, d: Fd, o: Obj, v: Wid)
    requires Known(s, r) && s.pc[r] == Dispatch && s.batch[r] == []
    requires Sound(s, r, d, o, v) && Sound(s, q, d, o, v)
    ensures Sound(At(s, r, Drain), q, d, o, v)
  {
    hide Located, Owned, Kept, Holding, Looping;
    LocatedFrame(s, At(s, r, Drain), r, q, d);
    OwnedFrame(s, At(s, r, Drain), q, d);
    KeptFrame(s, At(s, r, Drain), r, q, o, v);
    TurnLooping(s, r, q);
  }

  lemma InitOwned(s: State, r: Rid, fd: Fd, obj: Obj, q: Rid, d: Fd)
    requires Known(s, r) && s.pc[r] == Fresh(fd, obj)
    requires Looping(s, r) && Kept(s, r, obj) && Owned(s, q, d)
    ensures Owned(InitConn(s, r, fd, obj), q, d)
  {
    hide NoDup;
  }

  lemma InitObjects(s: State, r: Rid, fd: Fd, obj: Obj, q: Rid, o: Obj, v: Wid)
    requires Known(s, r) && s.pc[r] == Fresh(fd, obj)
    requires Looping(s, r) && Kept(s, r, obj) && Kept(s, q, obj) && Kept(s, q, o) && Holding(s, q, v) && Looping(s, q)
    ensures Kept(InitConn(s, r, fd, obj), q, o) && Holding(InitConn(s, r, fd, obj), q, v)
    ensures Looping(InitConn(s, r, fd, obj), q)
  {
    hide NoDup;
  }

  lemma InitStep(s: State, r: Rid, fd: Fd, obj: Obj, q: Rid, d: Fd, o: Obj, v: Wid)
    requires Known(s, r) && s.pc[r] == Fresh(fd, obj)
    requires Sound(s, r, fd, obj, v) && Sound(s, q, fd, obj, v) && Sound(s, q, d, o, v)
    ensures Sound(InitConn(s, r, fd, obj), q, d, o, v)
  {
    hide Located, Owned, Kept, Holding, Looping;
    LocatedFrame(s, InitConn(s, r, fd, obj), r, q, d);
    InitOwned(s, r, fd, obj, q, d);
    InitObjects(s, r, fd, obj, q, o, v);
  }

  lemma CountLooping(s: State, r: Rid, fd: Fd, obj: Obj, q: Rid)
    requires Known(s, r) && s.pc[r] == Ready(fd, obj)
    requires Looping(s, r) && Looping(s, q)
    ensures Looping(CountConn(s, r, fd, obj), q)
  {
    hide NoDup;
  }

  lemma CountStep(s: State, r: Rid, fd: Fd, obj: Obj, q: Rid, d: Fd, o: Obj, v: Wid)
    requires Known(s, r) && s.pc[r] == Ready(fd, obj)
    requires Sound(s, r, fd, obj, v) && Sound(s, q, d, o, v)
    ensures Sound(CountConn(s, r, fd, obj), q, d, o, v)
  {
    hide Located, Owned, Kept, Holding, Looping;
    LocatedFrame(s, CountConn(s, r, fd, obj), r, q, d);
    OwnedFrame(s, CountConn(s, r, fd, obj), q, d);
    KeptFrame(s, CountConn(s, r, fd, obj), r, q, o, v);
    CountLooping(s, r, fd, obj, q);
  }

  lemma FillOwned(s: State, r: Rid, fd: Fd, obj: Obj, q: Rid, d: Fd)
    requires Known(s, r) && s.pc[r] == Counted(fd, obj)
    requires Located(s, r, fd) && Looping(s, r) && Kept(s, r, obj) && Owned(s, r, fd) && Owned(s, q, d)
    ensures Owned(FillSlot(s, r, fd, obj), q, d)
  {
    hide NoDup;
  }

  lemma FillObjects(s: State, r: Rid, fd: Fd, obj: Obj, q: Rid, o: Obj, v: Wid)
    requires Known(s, r) && s.pc[r] == Counted(fd, obj)
    requires Located(s, r, fd) && Kept(s, r, obj) && Kept(s, q, obj) && Kept(s, q, o) && Holding(s, q, v)
    requires Looping(s, r)
    ensures Kept(FillSlot(s, r, fd, obj), q, o) && Holding(FillSlot(s, r, fd, obj), q, v)
  {
    hide NoDup;
  }

  lemma FillLooping(s: State, r: Rid, fd: Fd, obj: Obj, q: Rid)
    requires Known(s, r) && s.pc[r] == Counted(fd, obj)
    requires Located(s, r, fd) && Kept(s, r, obj) && Kept(s, q, obj) && Looping(s, r) && Looping(s, q)
    ensures Looping(FillSlot(s, r, fd, obj), q)
  {
    hide NoDup;
  }

  lemma FillStep(s: State, r: Rid, fd: Fd, obj: Obj, q: Rid, d: Fd, o: Obj, v: Wid)
    requires Known(s, r) && s.pc[r] == Counted(fd, obj)
    requires Sound(s, r, fd, obj, v) && Sound(s, q, fd, obj, v) && Sound(s, q, d, o, v)
    ensures Sound(FillSlot(s, r, fd, obj), q, d, o, v)
  {
    hide Located, Owned, Kept, Holding, Looping;
    LocatedFrame(s, FillSlot(s, r, fd, obj), r, q, d);
    FillOwned(s, r, fd, obj, q, d);
    FillObjects(s, r, fd, obj, q, o, v);
    FillLooping(s, r, fd, obj, q);
  }

  lemma LoadLooping(s: State, r: Rid, fd: Fd, q: Rid)
    requires Known(s, r) && s.pc[r] == Marked(fd) && |s.work[r]| < s.limit
    requires Looping(s, r) && Looping(s, q)
    ensures Looping(At(s, r, Checked(fd)), q)
  {
    hide NoDup;
  }

  lemma LoadStep(s: State, r: Rid, fd: Fd, q: Rid, d: Fd, o: Obj, v: Wid)
    requires Known(s, r) && s.pc[r] == Marked(fd) && |s.work[r]| < s.limit
    requires Sound(s, r, fd, o, v) && Sound(s, q, d, o, v)
    ensures Sound(At(s, r, Checked(fd)), q, d, o, v)
  {
    hide Located, Owned, Kept, Holding, Looping;
    LocatedFrame(s, At(s, r, Checked(fd)), r, q, d);
    OwnedFrame(s, At(s, r, Checked(fd)), q, d);
    KeptFrame(s, At(s, r, Checked(fd)), r, q, o, v);
    LoadLooping(s, r, fd, q);
  }

  lemma PushLocated(s: State, r: Rid, fd: Fd, q: Rid, d: Fd)
    requires Known(s, r) && s.pc[r] == Checked(fd) && Key(r, fd) in s.slots
    requires Looping(s, r) && Located(s, r, fd) && Located(s, q, fd) && Located(s, q, d)
    ensures Located(PushWork(s, r, fd), q, d)
  {
    hide NoDup;
  }

  lemma PushOwned(s: State, r: Rid, fd: Fd, q: Rid, d: Fd)
    requires Known(s, r) && s.pc[r] == Checked(fd) && Key(r, fd) in s.slots
    requires Looping(s, r) && Located(s, r, fd) && Owned(s, r, fd) && Kept(s, r, s.slots[Key(r, fd)])
    requires Owned(s, q, d)
    ensures Owned(PushWork(s, r, fd), q, d)
  {
    hide NoDup;
    AppendFacts(s.work[r], s.slots[Key(r, fd)]);
  }

  lemma PushObjects(s: State, r: Rid, fd: Fd, q: Rid, o: Obj, v: Wid)
    requires Known(s, r) && s.pc[r] == Checked(fd) && Key(r, fd) in s.slots
    requires Looping(s, r) && Looping(s, q) && Located(s, r, fd) && Owned(s, r, fd)
    requires Kept(s, r, s.slots[Key(r, fd)]) && Kept(s, q, o) && Holding(s, q, v)
    ensures Kept(PushWork(s, r, fd), q, o) && Holding(PushWork(s, r, fd), q, v) && Looping(PushWork(s, r, fd), q)
  {
    hide NoDup;
    AppendFacts(s.work[r], s.slots[Key(r, fd)]);
  }

  lemma PushStep(s: State, r: Rid, fd: Fd, q: Rid, d: Fd, o: Obj, v: Wid)
    requires Known(s, r) && s.pc[r] == Checked(fd) && Key(r, fd) in s.slots
    requires Sound(s, r, fd, s.slots[Key(r, fd)], v) && Sound(s, q, fd, o, v) && Sound(s, q, d, o, v)
    ensures Sound(PushWork(s, r, fd), q, d, o, v)
  {
    hide Located, Owned, Kept, Holding, Looping;
    PushLocated(s, r, fd, q, d);
    PushOwned(s, r, fd, q, d);
    PushObjects(s, r, fd, q, o, v);
  }

  lemma GoStep(s: State, r: Rid, q: Rid, d: Fd, o: Obj, v: Wid)
    requires Inv(s) && CanGo(s, r)
    ensures Sound(GoOn(s, r), q, d, o, v)
  {
    hide Sound, At, PopClose, LookUp, NullSlot, CloseConn, Release, InitConn, CountConn, FillSlot, PushWork, Reap;
    match s.pc[r]
    case Drain =>
      if s.closeQ[r] == [] { PopNoneStep(s, r, q, d, o, v); } else { PopOneStep(s, r, s.closeQ[r][0], q, d, o, v); }
    case GotFd(fd) =>
      LoopIsSound(s, r);
      LookUpStep(s, r, fd, q, d, o, v);
    case Uncounted(fd, back) => NullStep(s, r, fd, back, q, d, o, v);
    case Nulled(fd, obj, back) =>
      LoopIsSound(s, r);
      CloseStep(s, r, fd, obj, back, q, d, o, v);
    case Closed(obj, back) => ReleaseStep(s, r, obj, back, q, d, o, v);
    case Dispatch => TurnStep(s, r, q, d, o, v);
    case Fresh(fd, obj) => InitStep(s, r, fd, obj, q, d, o, v);
    case Ready(fd, obj) => CountStep(s, r, fd, obj, q, d, o, v);
    case Counted(fd, obj) => FillStep(s, r, fd, obj, q, d, o, v);
    case Marked(fd) =>
      if |s.work[r]| >= s.limit { ReapStep(s, r, fd, q, d, o, v); } else { LoadStep(s, r, fd, q, d, o, v); }
    case Checked(fd) => PushStep(s, r, fd, q, d, o, v);
  }

  lemma LoopIsSound(s: State, r: Rid)
    requires Inv(s)
    ensures Looping(s, r)
  {
    assert Sound(s, r, 0, 0, 0);
  }

  lemma FetchStep(s: State, r: Rid, extra: Obj, q: Rid, d: Fd, o: Obj, v: Wid)
    requires Inv(s) && CanFetch(s, r, extra)
    ensures Sound(FetchEvent(s, r, extra), q, d, o, v)
  {
    hide Sound, FetchEvent;
    var fd := s.batch[r][0];
    if Key(r, fd) in s.slots { FetchKnownStep(s, r, extra, fd, q, d, o, v); }
    else if s.pool == [] { FetchNewStep(s, r, extra, fd, q, d, o, v); }
    else { FetchPooledStep(s, r, extra, fd, q, d, o, v); }
  }

  lemma StepKeepsSound(s: State, step: Step, q: Rid, d: Fd, o: Obj, v: Wid)
    requires Inv(s) && Enabled(s, step)
    ensures Sound(Apply(s, step), q, d, o, v)
  {
    hide Sound, CanGo, GoOn, WaitEvents, FetchEvent, TakeWork, NotifyClose, RearmFd, RestFd, MarkEvent, Reap;
    match step
    case Accept(fd) => AcceptStep(s, fd, q, d, o, v);
    case Give(r) => GiveStep(s, r, s.accepted.value, q, d, o, v);
    case Go(r) => GoStep(s, r, q, d, o, v);
    case Wait(r, fds) =>
      forall fd | fd in fds ensures PlaceIs(s, fd, Armed(r)) { ArmedIsSound(s, r, fd); }
      WaitStep(s, r, fds, q, d, o, v);
    case Fetch(r, extra) => FetchStep(s, r, extra, q, d, o, v);
    case Mark(r, known) =>
      if known { MarkStep(s, r, q, d, o, v); } else { ReapStep(s, r, s.pc[r].fd, q, d, o, v); }
    case Take(r, w) => TakeStep(s, r, w, s.objs[s.work[r][0]].fd.value, q, d, o, v);
    case Rearm(r, w) => RearmStep(s, r, w, s.objs[s.hands[Key(r, w)]].fd.value, q, d, o, v);
    case AskClose(r, w) => AskStep(s, r, w, s.objs[s.hands[Key(r, w)]].fd.value, q, d, o, v);
    case Rest(r, w) => RestStep(s, r, w, s.objs[s.hands[Key(r, w)]].fd.value, q, d, o, v);
  }

  lemma ArmedIsSound(s: State, r: Rid, fd: Fd)
    requires Inv(s) && Key(r, fd) in s.armed
    ensures PlaceIs(s, fd, Armed(r))
  {
    assert Sound(s, r, fd, 0, 0);
  }

  lemma StepKeepsInv(s: State, step: Step)
    requires Inv(s) && Enabled(s, step)
    ensures Inv(Apply(s, step))
  {
    hide Sound, Apply, Enabled;
    forall q, d, o, v ensures Sound(Apply(s, step), q, d, o, v) { StepKeepsSound(s, step, q, d, o, v); }
  }
}
