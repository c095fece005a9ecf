/**
 How descriptors move from place to place.
 */
module ReactorMoves {
  import opened ReactorResults
  import opened ReactorSteps
  import opened Reactors
  import opened Wrappers

  // Where a descriptor that is at p, or closed, is after a step.
  function Next(s: State, step: Step, fd: Fd, p: Option<Place>): Option<Place> {
    match step
    case Accept(d) => if d == fd then Some(Accepted) else p
    case Give(r) => if p == Some(Accepted) then Some(Armed(r)) else p
    case Wait(r, fds) => if p == Some(Armed(r)) && fd in fds then Some(Batch(r)) else p
    case Fetch(r, _) => if p == Some(Batch(r)) && r in s.batch && [fd] <= s.batch[r] then Some(Current(r)) else p
    case Mark(r, known) => if p == Some(Current(r)) && !known then Some(Reaping(r)) else p
    case Take(r, w) => if p == Some(Queued(r)) && IsFirst(s, r, fd) then Some(Held(r, w)) else p
    case Rearm(r, w) => if p == Some(Held(r, w)) then Some(Armed(r)) else p
    case AskClose(r, w) => if p == Some(Held(r, w)) then Some(Asked(r)) else p
    case Rest(r, w) => if p == Some(Held(r, w)) then Some(Dormant(r)) else p
    case Go(r) => if r in s.pc then NextGo(s, r, s.pc[r], fd, p) else p
  }

  predicate IsFirst(s: State, r: Rid, fd: Fd) {
    r in s.work && s.work[r] != [] && s.work[r][0] in s.objs && s.objs[s.work[r][0]].fd == Some(fd)
  }

  function NextGo(s: State, r: Rid, l: Loop, fd: Fd, p: Option<Place>): Option<Place> {
    match l
    case Drain => if p == Some(Asked(r)) && r in s.closeQ && [fd] <= s.closeQ[r] then Some(Reaping(r)) else p
    case Nulled(_, _, _) => if p == Some(Reaping(r)) then None else p
    case Marked(_) =>
      if p == Some(Current(r)) && r in s.work && |s.work[r]| >= s.limit then Some(Reaping(r)) else p
    case Checked(_) => if p == Some(Current(r)) then Some(Queued(r)) else p
    case _ => p
  }

  function PlaceOf(s: State, fd: Fd): Option<Place> { if fd in s.place then Some(s.place[fd]) else None }

  lemma PopMoves(s: State, r: Rid, fd: Fd)
    requires Inv(s) && CanGo(s, r) && s.pc[r] == Drain
    ensures PlaceOf(GoOn(s, r), fd) == NextGo(s, r, s.pc[r], fd, PlaceOf(s, fd))
  {
    hide NoDup, LoopKnows;
    assert Sound(s, r, fd, 0, 0);
    if s.closeQ[r] != [] { assert Sound(s, r, s.closeQ[r][0], 0, 0); }
  }

  lemma CloseMoves(s: State, r: Rid, fd: Fd)
    requires Inv(s) && CanGo(s, r) && s.pc[r].Nulled?
    ensures PlaceOf(GoOn(s, r), fd) == NextGo(s, r, s.pc[r], fd, PlaceOf(s, fd))
  {
    hide NoDup;
    assert Sound(s, r, fd, 0, 0) && Sound(s, r, s.pc[r].fd, 0, 0);
  }

  lemma QueueMoves(s: State, r: Rid, fd: Fd)
    requires Inv(s) && CanGo(s, r) && (s.pc[r].Marked? || s.pc[r].Checked?)
    ensures PlaceOf(GoOn(s, r), fd) == NextGo(s, r, s.pc[r], fd, PlaceOf(s, fd))
  {
    hide NoDup, LoopKnows;
    assert Sound(s, r, fd, 0, 0) && Sound(s, r, s.pc[r].fd, 0, 0);
  }

  lemma GoMoves(s: State, r: Rid, fd: Fd)
    requires Inv(s) && CanGo(s, r)
    ensures PlaceOf(GoOn(s, r), fd) == NextGo(s, r, s.pc[r], fd, PlaceOf(s, fd))
  {
    hide Inv;
    match s.pc[r]
    case Drain => PopMoves(s, r, fd);
    case Nulled(_, _, _) => CloseMoves(s, r, fd);
    case Marked(_) => QueueMoves(s, r, fd);
    case Checked(_) => QueueMoves(s, r, fd);
    case _ =>
  }

  lemma HandlerMoves(s: State, r: Rid, w: Wid, fd: Fd)
    requires Inv(s) && HoldsObject(s, r, w)
    ensures PlaceOf(RearmFd(s, r, w), fd) == Next(s, Rearm(r, w), fd, PlaceOf(s, fd))
    ensures PlaceOf(NotifyClose(s, r, w), fd) == Next(s, AskClose(r, w), fd, PlaceOf(s, fd))
    ensures PlaceOf(RestFd(s, r, w), fd) == Next(s, Rest(r, w), fd, PlaceOf(s, fd))
  {
    hide NoDup, LoopKnows;
    var held := s.objs[s.hands[Key(r, w)]].fd.value;
    assert Sound(s, r, fd, 0, w) && Sound(s, r, held, 0, w);
  }

  lemma GiveMoves(s: State, r: Rid, fd: Fd)
    requires Inv(s) && Enabled(s, Give(r))
    ensures PlaceOf(GiveFd(s, r), fd) == Next(s, Give(r), fd, PlaceOf(s, fd))
  {
    hide NoDup, LoopKnows;
    assert Sound(s, r, fd, 0, 0) && Sound(s, r, s.accepted.value, 0, 0);
  }

  lemma WaitMoves(s: State, r: Rid, fds: seq<Fd>, fd: Fd)
    requires Inv(s) && CanWait(s, r, fds)
    ensures PlaceOf(WaitEvents(s, r, fds), fd) == Next(s, Wait(r, fds), fd, PlaceOf(s, fd))
  {
    hide NoDup, LoopKnows;
    assert Sound(s, r, fd, 0, 0);
  }

  lemma FetchMoves(s: State, r: Rid, extra: Obj, fd: Fd)
    requires Inv(s) && CanFetch(s, r, extra)
    ensures PlaceOf(FetchEvent(s, r, extra), fd) == Next(s, Fetch(r, extra), fd, PlaceOf(s, fd))
  {
    hide NoDup, LoopKnows;
    assert Sound(s, r, fd, 0, 0) && Sound(s, r, s.batch[r][0], 0, 0);
  }

  lemma MarkMoves(s: State, r: Rid, known: bool, fd: Fd)
    requires Inv(s) && CanMark(s, r)
    ensures PlaceOf(Apply(s, Mark(r, known)), fd) == Next(s, Mark(r, known), fd, PlaceOf(s, fd))
  {
    hide NoDup, LoopKnows;
    assert Sound(s, r, fd, 0, 0) && Sound(s, r, s.pc[r].fd, 0, 0);
  }

  lemma TakeMoves(s: State, r: Rid, w: Wid, fd: Fd)
    requires Inv(s) && CanTake(s, r, w)
    ensures PlaceOf(TakeWork(s, r, w), fd) == Next(s, Take(r, w), fd, PlaceOf(s, fd))
  {
    hide NoDup, LoopKnows;
    var o := s.work[r][0];
    assert Sound(s, r, fd, o, w) && Sound(s, r, s.objs[o].fd.value, o, w);
  }

  lemma StepMoves(s: State, step: Step, fd: Fd)
    requires Inv(s) && Enabled(s, step)
    ensures PlaceOf(Apply(s, step), fd) == Next(s, step, fd, PlaceOf(s, fd))
  {
    hide Inv, NoDup, GoOn, NextGo, GiveFd, WaitEvents, FetchEvent, TakeWork, RearmFd, NotifyClose, RestFd, Move;
    match step
    case Accept(d) => AcceptMoves(s, d, fd);
    case Give(r) => GiveMoves(s, r, fd);
    case Go(r) => GoMoves(s, r, fd);
    case Wait(r, fds) => WaitMoves(s, r, fds, fd);
    case Fetch(r, extra) => FetchMoves(s, r, extra, fd);
    case Mark(r, known) => MarkMoves(s, r, known, fd);
    case Take(r, w) => TakeMoves(s, r, w, fd);
    case Rearm(r, w) => HandlerMoves(s, r, w, fd);
    case AskClose(r, w) => HandlerMoves(s, r, w, fd);
    case Rest(r, w) => HandlerMoves(s, r, w, fd);
  }

  lemma AcceptMoves(s: State, d: Fd, fd: Fd)
    ensures PlaceOf(AcceptFd(s, d), fd) == Next(s, Accept(d), fd, PlaceOf(s, fd))
  {
  }

  // At a place, or closed.
  ghost predicate Stands(s: State, fd: Fd, p: Option<Place>) {
    match p
    case None => fd !in s.open
    case Some(q) => IsAt(s, fd, q)
  }

  lemma StandsIsPlace(s: State, fd: Fd, p: Option<Place>)
    requires Inv(s)
    ensures Stands(s, fd, p) <==> PlaceOf(s, fd) == p
  {
    hide IsAt, NoDup, LoopKnows;
    assert Sound(s, 0, fd, 0, 0);
    match p
    case Some(q) => IsAtIsPlace(s, fd, q);
    case None =>
  }

  // In every reachable state every step takes a descriptor to the place it should: what is accepted is armed at
  // the reactor chosen, reported, dispatched, and reaped or queued, held by the worker that takes it, and from
  // there armed again, put in the close queue of its reactor or left alone; what is in a close queue is reaped,
  // and closed.  All others stay where they are.
  lemma StepTakesThere(s: State, step: Step, fd: Fd, p: Option<Place>)
    requires Reachable(s) && Enabled(s, step) && Stands(s, fd, p)
    ensures Stands(Apply(s, step), fd, Next(s, step, fd, p))
  {
    hide Reachable, Inv, Stands, Next, Enabled, Apply;
    ReachableInv(s);
    StandsIsPlace(s, fd, p);
    StepMoves(s, step, fd);
    StepKeepsInv(s, step);
    StandsIsPlace(Apply(s, step), fd, Next(s, step, fd, p));
  }
}
