/**
 The reactors of `conv_multi` with worker pools and one-shot events: an acceptor hands
 descriptors to any number of event loops, each with its own table of connections, close queue and
 workers, all sharing one pool of connection objects.  A step is one access to something shared.

 The handlers are of the kind the framework asks for: as their last act, and at most once, they
 re-arm their descriptor or ask for it to be closed; a handler that does neither leaves its
 connection dormant.

 `place` and `spot` are not looked at by any step: they say of every open descriptor and of every
 connection object where it is, and the invariant says that this is the only place it is in.
 */
module Reactors {
  import opened Wrappers

  type Fd = nat
  type Obj = nat
  type Rid = nat
  type Wid = nat

  // A descriptor or a worker of one reactor.
  datatype Key = Key(r: Rid, n: nat)

  // The fields of a connection object.
  datatype Conn = Conn(fd: Option<Fd>, home: Rid, closing: bool)

  // Where a reactor goes after a removal: back to its close queue or on to the next event.
  datatype Back = ToQueue | ToEvents

  datatype Loop =
    | Drain
    | GotFd(fd: Fd)                           // popped from the close queue
    | Uncounted(fd: Fd, back: Back)           // current_connect_count--, slot not yet null
    | Nulled(fd: Fd, obj: Obj, back: Back)    // slot null, descriptor not yet closed
    | Closed(obj: Obj, back: Back)            // descriptor closed, object not yet released
    | Poll
    | Dispatch
    | Fresh(fd: Fd, obj: Obj)                 // object acquired for an empty slot
    | Ready(fd: Fd, obj: Obj)                 // object initialised
    | Counted(fd: Fd, obj: Obj)               // current_connect_count++, slot not yet filled
    | Marking(fd: Fd)
    | Marked(fd: Fd)                          // status set, in front of the check in add
    | Checked(fd: Fd)                         // in front of the push in add

  datatype Place =
    | Accepted
    | Armed(r: Rid)
    | Batch(r: Rid)              // reported by epoll_wait, not dispatched yet
    | Current(r: Rid)            // being dispatched
    | Queued(r: Rid)             // in the queue of the workers
    | Held(r: Rid, w: Wid)       // in the hands of a worker
    | Asked(r: Rid)              // in the close queue
    | Reaping(r: Rid)
    | Dormant(r: Rid)

  datatype Spot = Slot(r: Rid, fd: Fd) | InPool | InFlight(r: Rid)

  datatype State = State(
    slots: map<Key, Obj>,               // the tables `connects`, without their null entries
    armed: set<Key>,                    // the interest of each epoll, without what is disarmed
    batch: map<Rid, seq<Fd>>,
    closeQ: map<Rid, seq<Fd>>,
    work: map<Rid, seq<Obj>>,
    hands: map<Key, Obj>,               // the workers that hold an object
    pc: map<Rid, Loop>,
    objs: map<Obj, Conn>,
    pool: seq<Obj>,
    open: set<Fd>,
    accepted: Option<Fd>,
    count: int,
    limit: nat,
    place: map<Fd, Place>,
    spot: map<Obj, Spot>)

  datatype Step =
    | Accept(fd: Fd)                 // any descriptor that is not open
    | Give(r: Rid)                   // epoll_add to the reactor chosen
    | Go(r: Rid)                     // the next step of a reactor
    | Wait(r: Rid, fds: seq<Fd>)     // epoll_wait: any armed descriptors, each once
    | Fetch(r: Rid, extra: Obj)      // take the next event; a new object if the pool is empty
    | Mark(r: Rid, known: bool)      // is any of the four event flags set?
    | Take(r: Rid, w: Wid)           // a worker pops an object
    | Rearm(r: Rid, w: Wid)
    | AskClose(r: Rid, w: Wid)
    | Rest(r: Rid, w: Wid)

  ghost predicate NoDup<T(!new)>(q: seq<T>) { forall i, j :: 0 <= i < j < |q| ==> q[i] != q[j] }

  predicate Known(s: State, r: Rid) { r in s.pc && r in s.batch && r in s.closeQ && r in s.work }

  // What a step needs in order not to go wrong; that it is always there is part of what is proved.
  predicate CanGo(s: State, r: Rid) {
    && Known(s, r)
    && match s.pc[r]
       case Uncounted(fd, _) => Key(r, fd) in s.slots
       case Nulled(_, obj, _) => obj in s.objs && s.objs[obj].fd.Some?
       case Checked(fd) => Key(r, fd) in s.slots
       case Dispatch => s.batch[r] == []
       case Poll => false
       case Marking(_) => false
       case _ => true
  }

  predicate HoldsObject(s: State, r: Rid, w: Wid) {
    && Key(r, w) in s.hands && s.hands[Key(r, w)] in s.objs
    && s.objs[s.hands[Key(r, w)]].fd.Some? && s.objs[s.hands[Key(r, w)]].home in s.closeQ
  }

  predicate CanMark(s: State, r: Rid) {
    && r in s.pc && s.pc[r].Marking? && Key(r, s.pc[r].fd) in s.slots
    && s.slots[Key(r, s.pc[r].fd)] in s.objs
  }

  predicate CanTake(s: State, r: Rid, w: Wid) {
    && r in s.work && Key(r, w) !in s.hands && s.work[r] != []
    && s.work[r][0] in s.objs && s.objs[s.work[r][0]].fd.Some?
  }

  predicate CanFetch(s: State, r: Rid, extra: Obj) {
    Known(s, r) && s.pc[r] == Dispatch && s.batch[r] != [] && extra !in s.objs && extra !in s.spot
  }

  ghost predicate CanWait(s: State, r: Rid, fds: seq<Fd>) {
    && Known(s, r) && s.pc[r] == Poll && NoDup(fds)
    && forall fd :: fd in fds ==> Key(r, fd) in s.armed
  }

  ghost predicate Enabled(s: State, step: Step) {
    match step
    case Accept(fd) => s.accepted == None && fd !in s.open
    case Give(r) => s.accepted.Some? && Known(s, r)
    case Go(r) => CanGo(s, r)
    case Wait(r, fds) => CanWait(s, r, fds)
    case Fetch(r, extra) => CanFetch(s, r, extra)
    case Mark(r, _) => CanMark(s, r)
    case Take(r, w) => CanTake(s, r, w)
    case Rearm(r, w) => HoldsObject(s, r, w)
    case AskClose(r, w) => HoldsObject(s, r, w)
    case Rest(r, w) => HoldsObject(s, r, w)
  }

  function Apply(s: State, step: Step): State
    requires Enabled(s, step)
  {
    match step
    case Accept(fd) => AcceptFd(s, fd)
    case Give(r) => GiveFd(s, r)
    case Go(r) => GoOn(s, r)
    case Wait(r, fds) => WaitEvents(s, r, fds)
    case Fetch(r, extra) => FetchEvent(s, r, extra)
    case Mark(r, known) => if known then MarkEvent(s, r) else Reap(s, r, s.pc[r].fd)
    case Take(r, w) => TakeWork(s, r, w)
    case Rearm(r, w) => RearmFd(s, r, w)
    case AskClose(r, w) => NotifyClose(s, r, w)
    case Rest(r, w) => RestFd(s, r, w)
  }

  function GoOn(s: State, r: Rid): State
    requires CanGo(s, r)
  {
    match s.pc[r]
    case Drain => PopClose(s, r)
    case GotFd(fd) => LookUp(s, r, fd)
    case Uncounted(fd, back) => NullSlot(s, r, fd, back)
    case Nulled(_, obj, back) => CloseConn(s, r, obj, back)
    case Closed(obj, back) => Release(s, r, obj, back)
    case Dispatch => At(s, r, Drain)
    case Fresh(fd, obj) => InitConn(s, r, fd, obj)
    case Ready(fd, obj) => CountConn(s, r, fd, obj)
    case Counted(fd, obj) => FillSlot(s, r, fd, obj)
    case Marked(fd) => CheckLoad(s, r, fd)
    case Checked(fd) => PushWork(s, r, fd)
    case _ => s
  }

  function At(s: State, r: Rid, l: Loop): State { s.(pc := s.pc[r := l]) }

  function Move(s: State, fd: Fd, p: Place): State { s.(place := s.place[fd := p]) }

  function AcceptFd(s: State, fd: Fd): State {
    Move(s.(open := s.open + {fd}, accepted := Some(fd)), fd, Accepted)
  }

  function GiveFd(s: State, r: Rid): State
    requires s.accepted.Some?
  {
    var fd := s.accepted.value;
    Move(s.(accepted := None, armed := s.armed + {Key(r, fd)}), fd, Armed(r))
  }

  function PopClose(s: State, r: Rid): State
    requires r in s.closeQ
  {
    if s.closeQ[r] == [] then At(s, r, Poll)
    else
      var fd := s.closeQ[r][0];
      At(Move(s.(closeQ := s.closeQ[r := s.closeQ[r][1..]]), fd, Reaping(r)), r, GotFd(fd))
  }

  // A null entry of the table is skipped.
  function LookUp(s: State, r: Rid, fd: Fd): State {
    if Key(r, fd) !in s.slots then At(s, r, Drain)
    else At(s.(count := s.count - 1), r, Uncounted(fd, ToQueue))
  }

  function NullSlot(s: State, r: Rid, fd: Fd, back: Back): State
    requires Key(r, fd) in s.slots
  {
    var obj := s.slots[Key(r, fd)];
    At(s.(slots := s.slots - {Key(r, fd)}, spot := s.spot[obj := InFlight(r)]), r, Nulled(fd, obj, back))
  }

  // The object closes the descriptor it knows, wherever that is registered.
  function CloseConn(s: State, r: Rid, obj: Obj, back: Back): State
    requires obj in s.objs && s.objs[obj].fd.Some?
  {
    var fd := s.objs[obj].fd.value;
    At(s.(armed := s.armed - {Key(s.objs[obj].home, fd)}, open := s.open - {fd}, place := s.place - {fd},
          objs := s.objs[obj := Conn(None, 0, false)]),
       r, Closed(obj, back))
  }

  function Release(s: State, r: Rid, obj: Obj, back: Back): State {
    At(s.(pool := s.pool + [obj], spot := s.spot[obj := InPool]), r, if back == ToQueue then Drain else Dispatch)
  }

  function WaitEvents(s: State, r: Rid, fds: seq<Fd>): State {
    At(s.(batch := s.batch[r := fds],
          armed := s.armed - (set fd | fd in fds :: Key(r, fd)),
          place := map fd | fd in s.place :: if fd in fds then Batch(r) else s.place[fd]),
       r, if fds == [] then Drain else Dispatch)
  }

  function NextEvent(s: State, r: Rid): State
    requires r in s.batch && s.batch[r] != []
  {
    Move(s.(batch := s.batch[r := s.batch[r][1..]]), s.batch[r][0], Current(r))
  }

  function FetchEvent(s: State, r: Rid, extra: Obj): State
    requires r in s.batch && s.batch[r] != []
  {
    var fd := s.batch[r][0];
    var s1 := NextEvent(s, r);
    if Key(r, fd) in s.slots then At(s1, r, Marking(fd))
    else if s.pool == [] then NewObject(s1, r, fd, extra)
    else AcquireObject(s1, r, fd)
  }

  function NewObject(s: State, r: Rid, fd: Fd, obj: Obj): State {
    At(s.(objs := s.objs[obj := Conn(None, 0, false)], spot := s.spot[obj := InFlight(r)]), r, Fresh(fd, obj))
  }

  function AcquireObject(s: State, r: Rid, fd: Fd): State
    requires s.pool != []
  {
    At(s.(pool := s.pool[1..], spot := s.spot[s.pool[0] := InFlight(r)]), r, Fresh(fd, s.pool[0]))
  }

  function InitConn(s: State, r: Rid, fd: Fd, obj: Obj): State {
    At(s.(objs := s.objs[obj := Conn(Some(fd), r, false)]), r, Ready(fd, obj))
  }

  function CountConn(s: State, r: Rid, fd: Fd, obj: Obj): State {
    At(s.(count := s.count + 1), r, Counted(fd, obj))
  }

  function FillSlot(s: State, r: Rid, fd: Fd, obj: Obj): State {
    At(s.(slots := s.slots[Key(r, fd) := obj], spot := s.spot[obj := Slot(r, fd)]), r, Marking(fd))
  }

  // The status becomes that of the event.
  function MarkEvent(s: State, r: Rid): State
    requires CanMark(s, r)
  {
    var obj := s.slots[Key(r, s.pc[r].fd)];
    At(s.(objs := s.objs[obj := s.objs[obj].(closing := false)]), r, Marked(s.pc[r].fd))
  }

  // The removal of a connection whose event is unknown or finds the workers overloaded.
  function Reap(s: State, r: Rid, fd: Fd): State {
    At(Move(s.(count := s.count - 1), fd, Reaping(r)), r, Uncounted(fd, ToEvents))
  }

  function CheckLoad(s: State, r: Rid, fd: Fd): State
    requires r in s.work
  {
    if |s.work[r]| >= s.limit then Reap(s, r, fd) else At(s, r, Checked(fd))
  }

  function PushWork(s: State, r: Rid, fd: Fd): State
    requires r in s.work && Key(r, fd) in s.slots
  {
    At(Move(s.(work := s.work[r := s.work[r] + [s.slots[Key(r, fd)]]]), fd, Queued(r)), r, Dispatch)
  }

  function TakeWork(s: State, r: Rid, w: Wid): State
    requires CanTake(s, r, w)
  {
    var obj := s.work[r][0];
    Move(s.(work := s.work[r := s.work[r][1..]], hands := s.hands[Key(r, w) := obj]),
         s.objs[obj].fd.value, Held(r, w))
  }

  function RearmFd(s: State, r: Rid, w: Wid): State
    requires HoldsObject(s, r, w)
  {
    var c := s.objs[s.hands[Key(r, w)]];
    Move(s.(hands := s.hands - {Key(r, w)}, armed := s.armed + {Key(c.home, c.fd.value)}), c.fd.value, Armed(c.home))
  }

  // Does nothing for a connection that is closing already.
  function NotifyClose(s: State, r: Rid, w: Wid): State
    requires HoldsObject(s, r, w)
  {
    var obj := s.hands[Key(r, w)];
    var c := s.objs[obj];
    if c.closing then s.(hands := s.hands - {Key(r, w)})
    else
      Move(s.(hands := s.hands - {Key(r, w)}, objs := s.objs[obj := c.(closing := true)],
              closeQ := s.closeQ[c.home := s.closeQ[c.home] + [c.fd.value]]),
           c.fd.value, Asked(c.home))
  }

  function RestFd(s: State, r: Rid, w: Wid): State
    requires HoldsObject(s, r, w)
  {
    var c := s.objs[s.hands[Key(r, w)]];
    Move(s.(hands := s.hands - {Key(r, w)}), c.fd.value, Dormant(c.home))
  }

  // Before any client has connected.
  ghost predicate Init(s: State) {
    && s.slots == map[] && s.armed == {} && s.hands == map[] && s.open == {} && s.accepted == None
    && s.count == 0 && s.place == map[]
    && (forall r :: r in s.pc <==> r in s.batch) && (forall r :: r in s.pc <==> r in s.closeQ)
    && (forall r :: r in s.pc <==> r in s.work)
    && (forall r :: r in s.pc ==>
          s.pc[r] == Drain && s.batch[r] == [] && s.closeQ[r] == [] && s.work[r] == [])
    && NoDup(s.pool) && (forall o :: o in s.pool <==> o in s.objs) && (forall o :: o in s.objs <==> o in s.spot)
    && (forall o :: o in s.spot ==> s.spot[o] == InPool)
    && (forall o :: o in s.objs ==> s.objs[o] == Conn(None, 0, false))
  }

  function CurrentFd(l: Loop): Option<Fd> {
    match l
    case Fresh(fd, _) => Some(fd)
    case Ready(fd, _) => Some(fd)
    case Counted(fd, _) => Some(fd)
    case Marking(fd) => Some(fd)
    case Marked(fd) => Some(fd)
    case Checked(fd) => Some(fd)
    case _ => None
  }

  function ReapedFd(l: Loop): Option<Fd> {
    match l
    case GotFd(fd) => Some(fd)
    case Uncounted(fd, _) => Some(fd)
    case Nulled(fd, _, _) => Some(fd)
    case _ => None
  }

  // An object that is in no slot and not in the pool.
  function LooseObj(l: Loop): Option<Obj> {
    match l
    case Fresh(_, obj) => Some(obj)
    case Ready(_, obj) => Some(obj)
    case Counted(_, obj) => Some(obj)
    case Nulled(_, obj, _) => Some(obj)
    case Closed(obj, _) => Some(obj)
    case _ => None
  }

  predicate PlaceIs(s: State, fd: Fd, p: Place) { fd in s.place && s.place[fd] == p }

  predicate SpotIs(s: State, o: Obj, p: Spot) { o in s.spot && s.spot[o] == p }

  // The places of a descriptor, as seen from one reactor: what the queues and sets hold is what
  // `place` says.
  ghost predicate Located(s: State, r: Rid, fd: Fd) {
    && (fd in s.place <==> fd in s.open)
    && (fd in s.place && s.place[fd] != Accepted ==> s.place[fd].r in s.pc)
    && (s.accepted == Some(fd) <==> PlaceIs(s, fd, Accepted))
    && (Key(r, fd) in s.armed <==> PlaceIs(s, fd, Armed(r)))
    && (r in s.batch && fd in s.batch[r] <==> PlaceIs(s, fd, Batch(r)))
    && (r in s.closeQ && fd in s.closeQ[r] <==> PlaceIs(s, fd, Asked(r)))
    && (r in s.pc && CurrentFd(s.pc[r]) == Some(fd) <==> PlaceIs(s, fd, Current(r)))
    && (r in s.pc && ReapedFd(s.pc[r]) == Some(fd) <==> PlaceIs(s, fd, Reaping(r)))
  }

  predicate Knows(s: State, o: Obj, r: Rid, fd: Fd) {
    o in s.objs && s.objs[o].fd == Some(fd) && s.objs[o].home == r
  }

  // An entry of a table: its object knows the descriptor, which is open and belongs to the reactor
  // of that table; a connection whose closing flag is set is on its way out.
  ghost predicate Owned(s: State, r: Rid, fd: Fd) {
    && (Key(r, fd) in s.slots ==>
          && Knows(s, s.slots[Key(r, fd)], r, fd) && SpotIs(s, s.slots[Key(r, fd)], Slot(r, fd))
          && fd in s.place && s.place[fd] != Accepted && s.place[fd].r == r
          && (s.objs[s.slots[Key(r, fd)]].closing ==> s.place[fd] == Asked(r) || s.place[fd] == Reaping(r)))
    && (PlaceIs(s, fd, Queued(r)) ==> r in s.work && Key(r, fd) in s.slots && s.slots[Key(r, fd)] in s.work[r])
    && (PlaceIs(s, fd, Asked(r)) || PlaceIs(s, fd, Dormant(r)) ==> Key(r, fd) in s.slots)
    && (fd in s.place && s.place[fd].Held? ==>
          var p := s.place[fd];
          Key(p.r, p.w) in s.hands && Key(p.r, fd) in s.slots && s.hands[Key(p.r, p.w)] == s.slots[Key(p.r, fd)])
  }

  // The object stands in r's table and its descriptor is at the given place.
  predicate WithWorkers(s: State, o: Obj, r: Rid, p: Place) {
    && o in s.objs && s.objs[o].fd.Some? && Key(r, s.objs[o].fd.value) in s.slots
    && s.slots[Key(r, s.objs[o].fd.value)] == o && SpotIs(s, o, Slot(r, s.objs[o].fd.value))
    && PlaceIs(s, s.objs[o].fd.value, p)
  }

  // Where an object is, as seen from one reactor: in one slot, in the pool, or in the hands of a loop.
  ghost predicate Kept(s: State, r: Rid, o: Obj) {
    && (o in s.spot <==> o in s.objs)
    && (o in s.pool <==> SpotIs(s, o, InPool))
    && (r in s.pc && LooseObj(s.pc[r]) == Some(o) <==> SpotIs(s, o, InFlight(r)))
    && (o in s.spot && s.spot[o].InFlight? ==> s.spot[o].r in s.pc)
    && (o in s.spot && s.spot[o].Slot? ==>
          Key(s.spot[o].r, s.spot[o].fd) in s.slots && s.slots[Key(s.spot[o].r, s.spot[o].fd)] == o)
    && (r in s.work && o in s.work[r] ==> WithWorkers(s, o, r, Queued(r)))
  }

  ghost predicate Holding(s: State, r: Rid, w: Wid) {
    Key(r, w) in s.hands ==> r in s.pc && WithWorkers(s, s.hands[Key(r, w)], r, Held(r, w))
  }

  predicate LoopKnows(s: State, r: Rid, l: Loop) {
    match l
    case GotFd(fd) => Key(r, fd) in s.slots
    case Uncounted(fd, _) => Key(r, fd) in s.slots
    case Nulled(fd, obj, _) => Key(r, fd) !in s.slots && Knows(s, obj, r, fd)
    case Fresh(fd, _) => Key(r, fd) !in s.slots
    case Ready(fd, obj) => Key(r, fd) !in s.slots && Knows(s, obj, r, fd) && !s.objs[obj].closing
    case Counted(fd, obj) => Key(r, fd) !in s.slots && Knows(s, obj, r, fd) && !s.objs[obj].closing
    case Marking(fd) => Key(r, fd) in s.slots
    case Marked(fd) => Key(r, fd) in s.slots
    case Checked(fd) => Key(r, fd) in s.slots && r in s.work && |s.work[r]| < s.limit
    case _ => true
  }

  // The loop is between two calls of epoll_wait that returned events.
  predicate Serving(l: Loop) {
    CurrentFd(l).Some? || l.Dispatch? || ((l.Uncounted? || l.Nulled? || l.Closed?) && l.back == ToEvents)
  }

  // One reactor: nothing is queued twice, the workers' queue is within its limit, and no event is
  // left over when the loop waits again.
  ghost predicate Looping(s: State, r: Rid) {
    && NoDup(s.pool)
    && (r in s.pc <==> r in s.batch) && (r in s.pc <==> r in s.closeQ) && (r in s.pc <==> r in s.work)
    && (r in s.pc ==>
          && NoDup(s.batch[r]) && NoDup(s.closeQ[r]) && NoDup(s.work[r]) && |s.work[r]| <= s.limit
          && LoopKnows(s, r, s.pc[r]) && (s.batch[r] == [] || Serving(s.pc[r])))
  }

  // All of this for one reactor, one of its workers, one descriptor and one object.
  ghost predicate Sound(s: State, r: Rid, fd: Fd, o: Obj, w: Wid) {
    Located(s, r, fd) && Owned(s, r, fd) && Kept(s, r, o) && Holding(s, r, w) && Looping(s, r)
  }

  ghost predicate Inv(s: State) { forall r, fd, o, w :: Sound(s, r, fd, o, w) }

  // A schedule: any steps of the environment, the loops and the workers, in any order.
  ghost predicate Runs(s: State, steps: seq<Step>, end: State)
    decreases steps
  {
    if steps == [] then s == end
    else Enabled(s, steps[0]) && Runs(Apply(s, steps[0]), steps[1..], end)
  }

  ghost predicate Reachable(s: State) { exists start, steps :: Init(start) && Runs(start, steps, s) }
}
