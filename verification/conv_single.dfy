/**
 `wait` of `conv_single.h` without a worker pool: one loop that accepts connections, dispatches their
 events and closes them.  Unlike the reactors it accepts in the middle of a batch.
 */
module ConvSingle {
  import opened EventLoop

  datatype Incoming =
    | Accept(fd: Fd)        // the listening descriptor is ready, and this is what accept returns
    | Client(event: Event)

  // interest: the descriptors registered with epoll.
  datatype Server = Server(loop: Loop, count: int, limit: int, interest: set<Fd>, listen: Fd)

  // CONNECTS_REMOVE_FD
  function Taken(s: Server, fd: Fd): Server {
    s.(loop := Removed(s.loop, fd), count := s.count - 1, interest := s.interest - {fd})
  }

  // Over the limit, or if its slot is taken, the new descriptor is closed again.  A failed accept gives
  // -1, which is not tested for; epoll refuses it.
  function Accepted(s: Server, fd: Fd): Server {
    if s.count >= s.limit || fd in s.loop.table then s
    else
      s.(loop := Opened(s.loop, fd), count := s.count + 1,
         interest := if fd < 0 then s.interest else s.interest + {fd})
  }

  function ClientServed(s: Server, e: Event): Server
    requires e.fd in s.loop.table
  {
    var s1 := s.(loop := Processed(s.loop, e));
    if Removes(e) then Taken(s1, e.fd) else s1
  }

  // An event without a connection would be dispatched through a null pointer; this never happens.
  function Dispatched(s: Server, i: Incoming): Server {
    match i
    case Accept(fd) => Accepted(s, fd)
    case Client(e) => if e.fd in s.loop.table then ClientServed(s, e) else s
  }

  function AllDispatched(s: Server, batch: seq<Incoming>): Server
    decreases |batch|
  {
    if batch == [] then s else AllDispatched(Dispatched(s, batch[0]), batch[1..])
  }

  function Pop(s: Server): Server
    requires s.loop.queue != []
  {
    var fd := s.loop.queue[0].fd;
    var s1 := s.(loop := s.loop.(queue := s.loop.queue[1..]));
    if fd == -1 || fd !in s.loop.table then s1 else Taken(s1, fd)
  }

  function Emptied(s: Server): Server
    decreases |s.loop.queue|
  {
    if s.loop.queue == [] then s else Emptied(Pop(s))
  }

  function Round(s: Server, batch: seq<Incoming>): Server { AllDispatched(Emptied(s), batch) }

  predicate Same(i: Incoming, j: Incoming) {
    (i.Accept? && j.Accept?) || (i.Client? && j.Client? && i.event.fd == j.event.fd)
  }

  // What epoll_wait returns: descriptors of the interest set, none of them twice.
  ghost predicate Returned(s: Server, batch: seq<Incoming>) {
    && (forall i :: i in batch && i.Client? ==> i.event.fd in s.interest && i.event.fd != s.listen)
    && (forall i, j :: 0 <= i < j < |batch| ==> !Same(batch[i], batch[j]))
  }

  // Every accept of the batch fails, or returns a descriptor that is not open at that moment.
  ghost predicate AcceptsRight(s: Server, batch: seq<Incoming>)
    decreases |batch|
  {
    batch == [] ||
    ((batch[0].Accept? ==> batch[0].fd == -1 || (batch[0].fd >= 0 && batch[0].fd !in s.interest))
     && AcceptsRight(Dispatched(s, batch[0]), batch[1..]))
  }

  // No event of the batch finds a null slot, and no accept that has succeeded finds its slot taken.
  ghost predicate NothingMissing(s: Server, batch: seq<Incoming>)
    decreases |batch|
  {
    batch == [] ||
    ((match batch[0] case Accept(fd) => fd == -1 || fd !in s.loop.table case Client(e) => e.fd in s.loop.table)
     && NothingMissing(Dispatched(s, batch[0]), batch[1..]))
  }

  // An accept of the batch is given the number of a descriptor that is waiting in the close queue.
  ghost predicate Reuses(s: Server, batch: seq<Incoming>)
    decreases |batch|
  {
    batch != [] &&
    ((batch[0].Accept? && s.count < s.limit && exists x :: x in s.loop.queue && x.fd == batch[0].fd)
     || Reuses(Dispatched(s, batch[0]), batch[1..]))
  }

  // An accept of the batch fails while there is room for its connection.
  predicate Fails(s: Server, batch: seq<Incoming>)
    decreases |batch|
  {
    batch != [] &&
    ((batch[0] == Accept(-1) && s.count < s.limit) || Fails(Dispatched(s, batch[0]), batch[1..]))
  }

  // What epoll watches: the listening descriptor and those of the table.  A failed accept has put a
  // connection with the number -1 in the table; nobody watches that one or asks for it to be closed.
  ghost predicate Watched(s: Server) {
    && s.listen !in s.loop.table && s.listen >= 0
    && (forall fd :: fd in s.interest <==> fd == s.listen || (fd in s.loop.table && fd != -1))
    && (forall fd :: fd in s.loop.table ==> fd >= -1) && Proper(s.loop)
  }

  ghost predicate Balanced(s: Server) {
    s.count == |s.loop.table| && 0 <= s.count <= s.limit && Watched(s)
  }

  lemma TakenBalanced(s: Server, fd: Fd)
    requires Balanced(s) && fd in s.loop.table
    ensures Balanced(Taken(s, fd)) && (fd != -1 && -1 in s.loop.table ==> -1 in Taken(s, fd).loop.table)
  {
    var t := Taken(s, fd);
    assert s.loop.table.Keys == t.loop.table.Keys + {fd};
  }

  lemma AcceptedBalanced(s: Server, fd: Fd)
    requires Balanced(s) && (fd == -1 || (fd >= 0 && fd !in s.interest))
    ensures Balanced(Accepted(s, fd))
    ensures -1 in Accepted(s, fd).loop.table <==> -1 in s.loop.table || (fd == -1 && s.count < s.limit)
  {
    var t := Accepted(s, fd);
    if fd !in s.loop.table && s.count < s.limit {
      assert t.loop.table.Keys == s.loop.table.Keys + {fd};
    }
  }

  lemma ProcessedBalanced(s: Server, e: Event)
    requires Balanced(s) && e.fd in s.loop.table && e.fd != -1
    ensures Balanced(s.(loop := Processed(s.loop, e)))
    ensures Processed(s.loop, e).table.Keys == s.loop.table.Keys
  {
    assert Processed(s.loop, e).table.Keys == s.loop.table.Keys;
    assert |Processed(s.loop, e).table.Keys| == |s.loop.table|;
  }

  lemma DispatchedBalanced(s: Server, i: Incoming)
    requires Balanced(s) && (i.Accept? ==> i.fd == -1 || (i.fd >= 0 && i.fd !in s.interest))
    requires i.Client? ==> i.event.fd in s.interest && i.event.fd != s.listen
    ensures Balanced(Dispatched(s, i)) && Dispatched(s, i).limit == s.limit && Dispatched(s, i).listen == s.listen
    ensures -1 in Dispatched(s, i).loop.table <==>
              -1 in s.loop.table || (i == Accept(-1) && s.count < s.limit)
  {
    hide Balanced;
    match i
    case Accept(fd) => AcceptedBalanced(s, fd);
    case Client(e) =>
      assert e.fd in s.loop.table && e.fd != -1 by { Registered(s, e.fd); }
      ProcessedBalanced(s, e);
      assert -1 in Processed(s.loop, e).table.Keys <==> -1 in s.loop.table.Keys;
      if Removes(e) { TakenBalanced(s.(loop := Processed(s.loop, e)), e.fd); }
  }

  lemma Registered(s: Server, fd: Fd)
    requires Balanced(s) && fd in s.interest && fd != s.listen
    ensures fd in s.loop.table && fd != -1
  {
  }

  // The other descriptors of a batch stay registered.
  lemma DispatchedReturned(s: Server, batch: seq<Incoming>)
    requires Balanced(s) && batch != [] && Returned(s, batch)
    ensures Returned(Dispatched(s, batch[0]), batch[1..])
  {
    var i, rest := batch[0], batch[1..];
    forall j | j in rest && j.Client? ensures j.event.fd in Dispatched(s, i).interest {
      assert j in batch;
      var k :| 0 <= k < |rest| && rest[k] == j;
      assert !Same(batch[0], batch[k + 1]);
    }
  }

  lemma {:induction false} BatchBalanced(s: Server, batch: seq<Incoming>)
    requires Balanced(s) && Returned(s, batch) && AcceptsRight(s, batch)
    ensures Balanced(AllDispatched(s, batch)) && NothingMissing(s, batch)
    ensures AllDispatched(s, batch).limit == s.limit && AllDispatched(s, batch).listen == s.listen
    ensures -1 in AllDispatched(s, batch).loop.table <==> -1 in s.loop.table || Fails(s, batch)
    decreases |batch|
  {
    if batch != [] {
      assert batch[0] in batch;
      DispatchedBalanced(s, batch[0]);
      DispatchedReturned(s, batch);
      BatchBalanced(Dispatched(s, batch[0]), batch[1..]);
    }
  }

  lemma PopBalanced(s: Server)
    requires Balanced(s) && s.loop.queue != []
    ensures Balanced(Pop(s)) && Pop(s).limit == s.limit && Pop(s).listen == s.listen
    ensures Pop(s).loop == Popped(s.loop) && (-1 in Pop(s).loop.table <==> -1 in s.loop.table)
  {
    var fd := s.loop.queue[0].fd;
    var s1 := s.(loop := s.loop.(queue := s.loop.queue[1..]));
    if fd in s.loop.table { TakenBalanced(s1, fd); }
    assert Popped(s.loop).table == Pop(s).loop.table;
  }

  lemma {:induction false} EmptiedBalanced(s: Server)
    requires Balanced(s)
    ensures Balanced(Emptied(s)) && Emptied(s).limit == s.limit && Emptied(s).listen == s.listen
    ensures Emptied(s).loop == Drained(s.loop) && (-1 in Emptied(s).loop.table <==> -1 in s.loop.table)
    decreases |s.loop.queue|
  {
    if s.loop.queue != [] {
      PopBalanced(s);
      EmptiedBalanced(Pop(s));
    }
  }

  function Start(limit: nat, listen: nat): Server { Server(Loop(map[], [], 0), 0, limit, {listen}, listen) }

  // The rounds a server goes through, as far as the environment keeps its side.
  ghost predicate Runs(s: Server, batches: seq<seq<Incoming>>, end: Server)
    decreases |batches|
  {
    if batches == [] then end == s
    else
      && Returned(Emptied(s), batches[0]) && AcceptsRight(Emptied(s), batches[0])
      && Runs(Round(s, batches[0]), batches[1..], end)
  }

  // An accept of the run has failed while there was room for its connection.
  predicate RunFails(s: Server, batches: seq<seq<Incoming>>)
    decreases |batches|
  {
    batches != [] && (Fails(Emptied(s), batches[0]) || RunFails(Round(s, batches[0]), batches[1..]))
  }

  lemma {:induction false} RunBalanced(s: Server, batches: seq<seq<Incoming>>, end: Server)
    requires Balanced(s) && Runs(s, batches, end)
    ensures Balanced(end) && end.limit == s.limit && end.listen == s.listen
    ensures -1 in end.loop.table <==> -1 in s.loop.table || RunFails(s, batches)
    decreases |batches|
  {
    if batches != [] {
      EmptiedBalanced(s);
      BatchBalanced(Emptied(s), batches[0]);
      RunBalanced(Round(s, batches[0]), batches[1..], end);
    }
  }

  // Over all runs, with accepts that fail and accepts that do not, the counter is the number of connections in
  // the table and stays within the limit, and in no further round is an event dispatched without a
  // connection or a slot found taken.  What epoll watches is the listening descriptor and the connections
  // of the table, but for the one of a failed accept; it is all of them exactly if no accept of the run has
  // failed below the limit.
  lemma CountAndInterest(limit: nat, listen: nat, batches: seq<seq<Incoming>>, end: Server, batch: seq<Incoming>)
    requires Runs(Start(limit, listen), batches, end)
    ensures end.count == |end.loop.table| && 0 <= end.count <= limit
    ensures end.interest == end.loop.table.Keys - {-1} + {listen} && listen !in end.loop.table
    ensures end.interest == end.loop.table.Keys + {listen} <==> !RunFails(Start(limit, listen), batches)
    ensures Returned(Emptied(end), batch) && AcceptsRight(Emptied(end), batch) ==> NothingMissing(Emptied(end), batch)
  {
    hide Emptied, Returned, AcceptsRight, NothingMissing, RunFails, Runs, Watched;
    assert Balanced(Start(limit, listen)) by { StartBalanced(limit, listen); }
    RunBalanced(Start(limit, listen), batches, end);
    WatchedSet(end);
    EmptiedBalanced(end);
    if Returned(Emptied(end), batch) && AcceptsRight(Emptied(end), batch) { BatchBalanced(Emptied(end), batch); }
  }

  lemma StartBalanced(limit: nat, listen: nat)
    ensures Balanced(Start(limit, listen))
  {
  }

  lemma WatchedSet(s: Server)
    requires Watched(s)
    ensures s.listen !in s.loop.table && s.interest == s.loop.table.Keys - {-1} + {s.listen}
    ensures s.interest == s.loop.table.Keys + {s.listen} <==> -1 !in s.loop.table
  {
    var all := s.loop.table.Keys + {s.listen};
    var some := s.loop.table.Keys - {-1} + {s.listen};
    forall fd ensures fd in s.interest <==> fd in some {
      assert fd in s.loop.table.Keys <==> fd in s.loop.table;
    }
    assert s.interest == some;
    assert -1 !in s.interest && (-1 in all <==> -1 in s.loop.table);
    if -1 !in s.loop.table {
      assert s.interest == all;
    }
  }

  // In front of the rest of a batch, none of its connections is closing or has an entry in the queue.
  ghost predicate Untouched(s: Server, batch: seq<Incoming>) {
    forall i :: i in batch && i.Client? ==>
      && (forall x :: x in s.loop.queue ==> x.fd != i.event.fd)
      && (i.event.fd in s.loop.table ==> !s.loop.table[i.event.fd].closing)
  }

  // An entry whose number is now that of another connection, one that has not asked for anything.
  ghost predicate Stale(l: Loop, x: Entry) {
    x in l.queue && x.fd in l.table && l.table[x.fd].id != x.id && !l.table[x.fd].closing
  }

  // What holds between any two events.
  ghost predicate Ready(s: Server, batch: seq<Incoming>) {
    && Balanced(s) && Numbered(s.loop) && Announced(s.loop) && Untouched(s, batch)
    && Returned(s, batch) && AcceptsRight(s, batch)
  }

  lemma AcceptedKeeps(s: Server, fd: Fd)
    requires Numbered(s.loop) && Announced(s.loop)
    ensures Numbered(Accepted(s, fd).loop) && Announced(Accepted(s, fd).loop)
  {
  }

  lemma DispatchedUntouched(s: Server, batch: seq<Incoming>)
    requires batch != [] && Ready(s, batch)
    ensures Untouched(Dispatched(s, batch[0]), batch[1..])
  {
    hide Numbered, Announced;
    var i, rest := batch[0], batch[1..];
    assert batch == [i] + rest;
    assert i in batch;
    forall j | j in rest && j.Client?
      ensures forall x :: x in Dispatched(s, i).loop.queue ==> x.fd != j.event.fd
      ensures j.event.fd in Dispatched(s, i).loop.table ==> !Dispatched(s, i).loop.table[j.event.fd].closing
    {
      assert j in batch;
      var k :| 0 <= k < |rest| && rest[k] == j;
      assert !Same(batch[0], batch[k + 1]);
      if i.Client? { ServedFrame(s.loop, i.event, j.event.fd); }
    }
  }

  lemma DispatchedReady(s: Server, batch: seq<Incoming>)
    requires batch != [] && Ready(s, batch)
    ensures Ready(Dispatched(s, batch[0]), batch[1..])
  {
    hide Untouched, Balanced, Numbered, Announced;
    DispatchedBalanced(s, batch[0]);
    DispatchedReturned(s, batch);
    DispatchedUntouched(s, batch);
    match batch[0]
    case Accept(fd) => AcceptedKeeps(s, fd);
    case Client(e) =>
      assert e.fd in s.loop.table && !s.loop.table[e.fd].closing by { FirstIsKnown(s, batch); }
      ServedKeeps(s.loop, e);
  }

  lemma FirstIsKnown(s: Server, batch: seq<Incoming>)
    requires batch != [] && batch[0].Client? && Balanced(s) && Returned(s, batch) && Untouched(s, batch)
    ensures batch[0].event.fd in s.loop.table && !s.loop.table[batch[0].event.fd].closing
    ensures forall x :: x in s.loop.queue ==> x.fd != batch[0].event.fd
  {
    assert batch[0] in batch;
  }

  lemma StaleStaysOne(s: Server, batch: seq<Incoming>, x: Entry)
    requires batch != [] && Ready(s, batch) && Stale(s.loop, x)
    ensures Stale(Dispatched(s, batch[0]).loop, x)
  {
    hide Numbered, Announced;
    match batch[0]
    case Accept(fd) =>
    case Client(e) =>
      FirstIsKnown(s, batch);
      ServedFrame(s.loop, e, x.fd);
  }

  lemma {:induction false} StaleStays(s: Server, batch: seq<Incoming>, x: Entry)
    requires Ready(s, batch) && Stale(s.loop, x)
    ensures Stale(AllDispatched(s, batch).loop, x)
    decreases |batch|
  {
    hide Ready, Stale, Dispatched;
    if batch != [] {
      StaleStaysOne(s, batch, x);
      DispatchedReady(s, batch);
      StaleStays(Dispatched(s, batch[0]), batch[1..], x);
    }
  }

  lemma {:induction false} BatchReady(s: Server, batch: seq<Incoming>)
    requires Ready(s, batch)
    ensures Ready(AllDispatched(s, batch), [])
    decreases |batch|
  {
    hide Ready, Dispatched;
    if batch == [] {
    } else {
      DispatchedReady(s, batch);
      BatchReady(Dispatched(s, batch[0]), batch[1..]);
    }
  }

  // One accept, or one event of a client, where no number has been reused so far.
  lemma CurrentUnless(s: Server, batch: seq<Incoming>)
    requires batch != [] && Ready(s, batch) && Current(s.loop)
    requires !(batch[0].Accept? && s.count < s.limit && exists x :: x in s.loop.queue && x.fd == batch[0].fd)
    ensures Current(Dispatched(s, batch[0]).loop)
  {
    hide Announced;
    match batch[0]
    case Accept(fd) =>
    case Client(e) =>
      FirstIsKnown(s, batch);
      ServedKeeps(s.loop, e);
  }

  lemma ReuseIsStale(s: Server, batch: seq<Incoming>, x: Entry)
    requires batch != [] && Ready(s, batch) && batch[0].Accept? && s.count < s.limit
    requires x in s.loop.queue && x.fd == batch[0].fd
    ensures Stale(Dispatched(s, batch[0]).loop, x)
  {
  }

  // After a batch either the queue is right, or a number has been reused and an entry is stale.
  lemma {:induction false} StaleIffReused(s: Server, batch: seq<Incoming>) returns (x: Entry)
    requires Ready(s, batch) && Current(s.loop)
    ensures !Reuses(s, batch) ==> Current(AllDispatched(s, batch).loop)
    ensures Reuses(s, batch) ==> Stale(AllDispatched(s, batch).loop, x)
    decreases |batch|
  {
    hide Ready, Dispatched, Current, Stale;
    x := Entry(0, 0);
    if batch != [] {
      DispatchedReady(s, batch);
      if batch[0].Accept? && s.count < s.limit && exists y :: y in s.loop.queue && y.fd == batch[0].fd {
        x :| x in s.loop.queue && x.fd == batch[0].fd;
        ReuseIsStale(s, batch, x);
        StaleStays(Dispatched(s, batch[0]), batch[1..], x);
      } else {
        CurrentUnless(s, batch);
        x := StaleIffReused(Dispatched(s, batch[0]), batch[1..]);
      }
    }
  }

  lemma EmptiedReady(s: Server, batch: seq<Incoming>)
    requires Balanced(s) && Numbered(s.loop) && Announced(s.loop)
    requires Returned(Emptied(s), batch) && AcceptsRight(Emptied(s), batch)
    ensures Ready(Emptied(s), batch) && Current(Emptied(s).loop)
  {
    EmptiedBalanced(s);
    DrainedNumbered(s.loop);
    DrainedIsQuiet(s.loop);
  }

  lemma {:induction false} RunReady(s: Server, batches: seq<seq<Incoming>>, end: Server)
    requires Balanced(s) && Numbered(s.loop) && Announced(s.loop) && Runs(s, batches, end)
    ensures Balanced(end) && Numbered(end.loop) && Announced(end.loop)
    decreases |batches|
  {
    hide Balanced, Numbered, Announced, Returned, AcceptsRight, Emptied;
    if batches != [] {
      EmptiedReady(s, batches[0]);
      BatchReady(Emptied(s), batches[0]);
      RunReady(Round(s, batches[0]), batches[1..], end);
    }
  }

  // The counter and the interest set do not matter for which connections are closed.
  lemma {:induction false} EmptiedDrains(s: Server)
    ensures Emptied(s).loop == Drained(s.loop)
    decreases |s.loop.queue|
  {
    if s.loop.queue != [] {
      assert Pop(s).loop.table == Popped(s.loop).table;
      EmptiedDrains(Pop(s));
    }
  }

  // An event does to the table what it does in any loop, and counter and interest follow.
  lemma ClientOutcome(s: Server, e: Event)
    requires e.fd in s.loop.table
    ensures ClientServed(s, e).loop == Served(s.loop, e)
    ensures e.fd in ClientServed(s, e).loop.table <==> Succeeds(e)
    ensures ClientServed(s, e).count == s.count - if Succeeds(e) then 0 else 1
    ensures ClientServed(s, e).interest == if Succeeds(e) then s.interest else s.interest - {e.fd}
  {
    ServedOutcome(s.loop, e);
  }

  // An accept makes a connection exactly if there is room for it and its slot is free.
  lemma AcceptOutcome(s: Server, fd: Fd)
    ensures var a := Accepted(s, fd);
            && (Has(a.loop, fd, s.loop.next) <==>
                  Has(s.loop, fd, s.loop.next) || (s.count < s.limit && fd !in s.loop.table))
            && (forall d :: d != fd || d in s.loop.table ==>
                  (d in a.loop.table <==> d in s.loop.table)
                  && (d in s.loop.table ==> a.loop.table[d] == s.loop.table[d]))
            && a.loop.queue == s.loop.queue
  {
  }

  // A batch, accepts included, leaves exactly those connections that have no event in it whose handler has
  // failed, no hang-up, no error and no unknown event.
  lemma {:induction false} BatchOutcome(s: Server, batch: seq<Incoming>, fd: Fd, id: nat)
    requires id < s.loop.next
    ensures Has(AllDispatched(s, batch).loop, fd, id) <==>
              Has(s.loop, fd, id) && forall i :: i in batch && i.Client? && i.event.fd == fd ==> Succeeds(i.event)
    decreases |batch|
  {
    hide ClientServed, Succeeds;
    if batch != [] {
      match batch[0] {
        case Accept(d) =>
        case Client(e) => if e.fd in s.loop.table { ClientOutcome(s, e); ServedOutcome(s.loop, e); }
      }
      BatchOutcome(Dispatched(s, batch[0]), batch[1..], fd, id);
      assert batch == [batch[0]] + batch[1..];
    }
  }

  // After any run, and one more round: a connection is still there exactly if no entry of the close queue had
  // its number, be it an entry of its own or a stale one, and every event for it in the batch was an ordinary
  // one whose handler has succeeded.
  lemma RoundOutcome(limit: nat, listen: nat, batches: seq<seq<Incoming>>, end: Server, batch: seq<Incoming>, fd: Fd)
    requires Runs(Start(limit, listen), batches, end) && fd in end.loop.table
    ensures var id := end.loop.table[fd].id;
            Has(Round(end, batch).loop, fd, id) <==>
              && (fd == -1 || forall x :: x in end.loop.queue ==> x.fd != fd)
              && (forall i :: i in batch && i.Client? && i.event.fd == fd ==> Succeeds(i.event))
  {
    hide Succeeds, Runs, Emptied;
    StartBalanced(limit, listen);
    RunReady(Start(limit, listen), batches, end);
    var id := end.loop.table[fd].id;
    EmptiedDrains(end);
    DrainedOutcome(end.loop, fd, id);
    BatchOutcome(Emptied(end), batch, fd, id);
  }

  // After any run and one more batch, emptying the close queue removes exactly the connections that have asked
  // for it, if and only if no accept of that batch was given a number that was waiting in the queue.
  lemma CloseIsRightIff(limit: nat, listen: nat, batches: seq<seq<Incoming>>, end: Server, batch: seq<Incoming>)
    requires Runs(Start(limit, listen), batches, end)
    requires Returned(Emptied(end), batch) && AcceptsRight(Emptied(end), batch)
    ensures var r := Round(end, batch);
            Emptied(r).loop.table == Staying(r.loop) <==> !Reuses(Emptied(end), batch)
  {
    hide Returned, AcceptsRight, Emptied, Reuses, Current, Runs;
    var r := Round(end, batch);
    RunReady(Start(limit, listen), batches, end);
    EmptiedReady(end, batch);
    BatchReady(Emptied(end), batch);
    EmptiedBalanced(r);
    var x := StaleIffReused(Emptied(end), batch);
    if Reuses(Emptied(end), batch) {
      DrainedIsQuiet(r.loop);
      assert x.fd in Staying(r.loop);
    } else {
      DrainedIsStaying(r.loop);
    }
  }

  // Such a run: descriptor 7 hangs up and is closed, accept is given 7 again in the same batch, and the next
  // round closes the new connection, which has not asked for it.
  lemma NewConnectionIsClosed() returns (r: Server)
    ensures Runs(Start(10, 3),
                 [[Accept(7)], [Client(Event(7, RdHup, Handler(true, true))), Accept(7)]], r)
    ensures 7 in r.loop.table && r.loop.table[7] == Conn(1, false)
    ensures 7 !in Emptied(r).loop.table
  {
    var b0 := [Accept(7)];
    var hang := Client(Event(7, RdHup, Handler(true, true)));
    var b1 := [hang, Accept(7)];
    var s0 := Start(10, 3);
    var s1 := Accepted(s0, 7);
    assert AllDispatched(s0, b0) == s1 by { assert b0[1..] == []; }
    assert s1.loop.table == map[7 := Conn(0, false)] && s1.interest == {3, 7};
    var s2 := Dispatched(s1, hang);
    assert s2.loop.table == map[] && s2.loop.queue == [Entry(7, 0)] && s2.interest == {3} && s2.count == 0;
    r := Accepted(s2, 7);
    assert b1[1..] == b0 && b0[1..] == [];
    assert AllDispatched(s2, b0) == r;
    assert AllDispatched(s1, b1) == r;
    assert Emptied(Pop(r)) == Pop(r);
  }

  // Once an accept has failed below the limit its connection is in the table for good, counted and not
  // watched, whatever happens afterwards.
  lemma FailedAcceptStays(limit: nat, listen: nat, batches: seq<seq<Incoming>>, mid: Server,
                          more: seq<seq<Incoming>>, end: Server)
    requires Runs(Start(limit, listen), batches, mid) && Runs(mid, more, end)
    ensures RunFails(Start(limit, listen), batches) ==>
              && -1 in mid.loop.table && -1 in end.loop.table && -1 !in end.interest
              && end.count == |end.loop.table|
  {
    RunBalanced(Start(limit, listen), batches, mid);
    RunBalanced(mid, more, end);
  }

  class Single {
    const table: Table
    var currentConnectCount: int
    var maxConnectCount: int
    var interest: set<Fd>
    const socketFd: Fd

    ghost predicate Valid()
      reads this, table
    {
      table.Valid()
    }

    ghost function View(): Server
      reads this, table
      requires Valid()
    {
      Server(table.View(), currentConnectCount, maxConnectCount, interest, socketFd)
    }

    constructor (limit: nat, listen: nat)
      ensures Valid() && View() == Start(limit, listen) && fresh(table)
    {
      table := new Table();
      currentConnectCount, maxConnectCount, interest, socketFd := 0, limit, {listen}, listen;
    }

    // CONNECTS_REMOVE_FD
    method Remove(fd: Fd)
      requires Valid() && fd in table.connects
      modifies this, table
      ensures Valid() && View() == Taken(old(View()), fd)
    {
      interest := interest - {fd};
      currentConnectCount := currentConnectCount - 1;
      table.Erase(fd);
    }

    method Drain()
      requires Valid()
      modifies this, table
      ensures Valid() && View() == Emptied(old(View()))
    {
      while table.closeQueue != []
        invariant Valid() && Emptied(View()) == Emptied(old(View()))
        decreases |table.closeQueue|
      {
        ghost var before := View();
        var fd := table.Pop();
        if fd != -1 && fd in table.connects {
          Remove(fd);
        }
        assert View() == Pop(before);
      }
    }

    method AcceptClient(fd: Fd)
      requires Valid()
      modifies this, table
      ensures Valid() && View() == Accepted(old(View()), fd)
    {
      if currentConnectCount >= maxConnectCount {
        return;
      }
      if fd in table.connects {
        return;
      }
      table.Open(fd);
      if fd >= 0 {
        interest := interest + {fd};
      }
      currentConnectCount := currentConnectCount + 1;
    }

    method Serve(e: Event)
      requires Valid() && e.fd in table.connects
      modifies this, table
      ensures Valid() && View() == ClientServed(old(View()), e)
    {
      match e.kind {
        case RdHup =>
          var _ := table.Process(e);
          Remove(e.fd);
        case Error =>
          var _ := table.Process(e);
          Remove(e.fd);
        case Out =>
          var ok := table.Process(e);
          if !ok { Remove(e.fd); }
        case In =>
          var ok := table.Process(e);
          if !ok { Remove(e.fd); }
        case Other =>
          Remove(e.fd);
      }
    }

    // One round of `wait`: as long as the environment keeps its side, no event is dispatched through a
    // null pointer.
    method Wait(batch: seq<Incoming>)
      requires Valid() && Balanced(View())
      requires Returned(Emptied(View()), batch) && AcceptsRight(Emptied(View()), batch)
      modifies this, table
      ensures Valid() && Balanced(View()) && View() == Round(old(View()), batch)
    {
      EmptiedBalanced(View());
      Drain();
      BatchBalanced(View(), batch);
      for i := 0 to |batch|
        invariant Valid() && NothingMissing(View(), batch[i..])
        invariant AllDispatched(View(), batch[i..]) == Round(old(View()), batch)
      {
        assert batch[i..][0] == batch[i] && batch[i..][1..] == batch[i + 1..];
        match batch[i] {
          case Accept(fd) => AcceptClient(fd);
          case Client(e) => Serve(e);
        }
      }
    }
  }
}
