/**
 One reactor whose handlers run inside the loop: `work` of `reactor.h` without a worker pool.  The
 acceptor only ever adds descriptors to its epoll, so that the table and the close queue are
 touched by this loop alone; what epoll_wait returns, which descriptors at that moment, is up to
 the environment, except that no descriptor is reported twice at once.
 */
module InlineReactor {
  import opened EventLoop

  // A connection is made for the first event of a descriptor without one.
  function Dispatched(l: Loop, e: Event): Loop { Served(Opened(l, e.fd), e) }

  function AllDispatched(l: Loop, batch: seq<Event>): Loop
    decreases |batch|
  {
    if batch == [] then l else AllDispatched(Dispatched(l, batch[0]), batch[1..])
  }

  // One round of the loop: empty the close queue, wait, dispatch.
  function Round(l: Loop, batch: seq<Event>): Loop { AllDispatched(Drained(l), batch) }

  function Rounds(l: Loop, batches: seq<seq<Event>>): Loop
    decreases |batches|
  {
    if batches == [] then l else Rounds(Round(l, batches[0]), batches[1..])
  }

  // What epoll_wait returns: no descriptor twice, and descriptors are not negative.
  ghost predicate Returned(batch: seq<Event>) {
    && (forall e :: e in batch ==> e.fd >= 0)
    && (forall i, j :: 0 <= i < j < |batch| ==> batch[i].fd != batch[j].fd)
  }

  ghost predicate Inv(l: Loop) {
    Numbered(l) && Current(l) && Announced(l) && Proper(l)
  }

  // In front of the rest of a batch, nothing in the queue is about its descriptors and none of their
  // connections is closing.
  ghost predicate Untouched(l: Loop, batch: seq<Event>) {
    forall e :: e in batch ==>
      (forall x :: x in l.queue ==> x.fd != e.fd) && (e.fd in l.table ==> !l.table[e.fd].closing)
  }

  lemma OpenedKeeps(l: Loop, e: Event)
    requires Inv(l) && Untouched(l, [e]) && e.fd >= 0
    ensures Inv(Opened(l, e.fd)) && Untouched(Opened(l, e.fd), [e])
  {
    assert e in [e];
  }

  lemma DispatchedKeeps(l: Loop, e: Event)
    requires Inv(l) && Untouched(l, [e]) && e.fd >= 0
    ensures Inv(Dispatched(l, e))
  {
    assert e in [e];
    OpenedKeeps(l, e);
    var l1 := Opened(l, e.fd);
    ServedKeeps(l1, e);
    ServedAt(l1, e);
  }

  lemma DispatchedFrame(l: Loop, e: Event, rest: seq<Event>)
    requires Untouched(l, rest) && forall x :: x in rest ==> x.fd != e.fd
    ensures Untouched(Dispatched(l, e), rest)
  {
    var l1 := Opened(l, e.fd);
    forall x | x in rest
      ensures forall y :: y in Dispatched(l, e).queue ==> y.fd != x.fd
      ensures x.fd in Dispatched(l, e).table ==> !Dispatched(l, e).table[x.fd].closing
    {
      ServedFrame(l1, e, x.fd);
    }
  }

  lemma {:induction false} BatchKeeps(l: Loop, batch: seq<Event>)
    requires Inv(l) && Untouched(l, batch) && Returned(batch)
    ensures Inv(AllDispatched(l, batch))
    decreases |batch|
  {
    hide Inv, Dispatched;
    if batch != [] {
      var e, rest := batch[0], batch[1..];
      assert batch == [e] + rest;
      assert Untouched(l, [e]) && Untouched(l, rest) && Returned(rest);
      DispatchedKeeps(l, e);
      DispatchedFrame(l, e, rest);
      BatchKeeps(Dispatched(l, e), rest);
    }
  }

  lemma RoundKeeps(l: Loop, batch: seq<Event>)
    requires Inv(l) && Returned(batch)
    ensures Inv(Round(l, batch))
  {
    DrainedNumbered(l);
    DrainedIsStaying(l);
    BatchKeeps(Drained(l), batch);
  }

  lemma {:induction false} RoundsKeep(l: Loop, batches: seq<seq<Event>>)
    requires Inv(l) && forall b :: b in batches ==> Returned(b)
    ensures Inv(Rounds(l, batches))
    decreases |batches|
  {
    hide Inv;
    if batches != [] {
      RoundKeeps(l, batches[0]);
      RoundsKeep(Round(l, batches[0]), batches[1..]);
    }
  }

  const START := Loop(map[], [], 0)

  // After any rounds with any events and any handlers: every entry of the close queue finds a null slot or
  // the very connection that has put it there, although failed handlers and hang-ups remove their
  // connection at once and the number may be in use again; and emptying the queue removes exactly the
  // connections that have asked for it and are still there.
  lemma CloseIsNeverStale(batches: seq<seq<Event>>)
    requires forall b :: b in batches ==> Returned(b)
    ensures var l := Rounds(START, batches);
            NeverStale(l) && Drained(l).table == Staying(l) && Numbered(l)
  {
    RoundsKeep(START, batches);
    CurrentNeverStale(Rounds(START, batches));
    DrainedIsStaying(Rounds(START, batches));
  }

  // One event, with or without a connection before it.
  lemma DispatchedOutcome(l: Loop, e: Event)
    ensures var d := Dispatched(l, e);
            var id := if e.fd in l.table then l.table[e.fd].id else l.next;
            && (e.fd in d.table <==> Succeeds(e)) && (e.fd in d.table ==> d.table[e.fd] == Conn(id, e.handler.asks))
            && (forall fd :: fd != e.fd ==>
                  (fd in d.table <==> fd in l.table) && (fd in l.table ==> d.table[fd] == l.table[fd]))
            && d.queue == l.queue + (if Announces(e) then [Entry(e.fd, id)] else [])
            && d.next == l.next + if e.fd in l.table then 0 else 1
  {
    ServedOutcome(Opened(l, e.fd), e);
  }

  // A batch leaves exactly those connections that have no event in it whose handler has failed, no hang-up,
  // no error and no unknown event.
  lemma {:induction false} BatchOutcome(l: Loop, batch: seq<Event>, fd: Fd, id: nat)
    requires id < l.next
    ensures Has(AllDispatched(l, batch), fd, id) <==>
              Has(l, fd, id) && forall e :: e in batch && e.fd == fd ==> Succeeds(e)
    decreases |batch|
  {
    hide Dispatched, Succeeds;
    if batch != [] {
      DispatchedOutcome(l, batch[0]);
      BatchOutcome(Dispatched(l, batch[0]), batch[1..], fd, id);
      assert batch == [batch[0]] + batch[1..];
    }
  }

  // The descriptors of the close queue.
  function Queued(queue: seq<Entry>): seq<Fd> { if queue == [] then [] else [queue[0].fd] + Queued(queue[1..]) }

  // The descriptors for which a close is asked in a batch.
  function AskedFor(batch: seq<Event>): seq<Fd> {
    if batch == [] then [] else (if Announces(batch[0]) then [batch[0].fd] else []) + AskedFor(batch[1..])
  }

  lemma {:induction false} QueuedAppend(a: seq<Entry>, x: Entry)
    ensures Queued(a + [x]) == Queued(a) + [x.fd]
  {
    if a != [] {
      assert (a + [x])[1..] == a[1..] + [x];
      QueuedAppend(a[1..], x);
    } else {
      assert ([] + [x])[1..] == [];
    }
  }

  // What is in the close queue after a batch is what was there before and what has been asked for, in order.
  lemma {:induction false} BatchQueues(l: Loop, batch: seq<Event>)
    ensures Queued(AllDispatched(l, batch).queue) == Queued(l.queue) + AskedFor(batch)
    decreases |batch|
  {
    hide Dispatched, Announces, Queued;
    if batch == [] {
      assert Queued(l.queue) + [] == Queued(l.queue);
    } else {
      var e := batch[0];
      DispatchedOutcome(l, e);
      BatchQueues(Dispatched(l, e), batch[1..]);
      if Announces(e) {
        QueuedAppend(l.queue, Entry(e.fd, if e.fd in l.table then l.table[e.fd].id else l.next));
        assert (Queued(l.queue) + [e.fd]) + AskedFor(batch[1..]) == Queued(l.queue) + ([e.fd] + AskedFor(batch[1..]));
      } else {
        assert [] + AskedFor(batch[1..]) == AskedFor(batch[1..]);
        assert l.queue + [] == l.queue;
      }
    }
  }

  lemma {:induction false} OneMoreRound(l: Loop, batches: seq<seq<Event>>, batch: seq<Event>)
    ensures Rounds(l, batches + [batch]) == Round(Rounds(l, batches), batch)
    decreases |batches|
  {
    if batches == [] {
      assert [] + [batch] == [batch] && [batch][1..] == [];
    } else {
      assert (batches + [batch])[1..] == batches[1..] + [batch];
      OneMoreRound(Round(l, batches[0]), batches[1..], batch);
    }
  }

  // After any rounds, and one more: a connection that was there is still there exactly if it had no entry in the
  // close queue and every event for it in the batch was an ordinary one whose handler has succeeded; and the
  // close queue holds what has been asked for in that round.
  lemma RoundOutcome(batches: seq<seq<Event>>, batch: seq<Event>, fd: Fd)
    requires (forall b :: b in batches ==> Returned(b)) && fd in Rounds(START, batches).table
    ensures var l := Rounds(START, batches);
            var next := Rounds(START, batches + [batch]);
            var id := l.table[fd].id;
            && (Has(next, fd, id) <==>
                  Entry(fd, id) !in l.queue && forall e :: e in batch && e.fd == fd ==> Succeeds(e))
            && Queued(next.queue) == AskedFor(batch)
  {
    hide Succeeds, Returned;
    OneMoreRound(START, batches, batch);
    RoundsKeep(START, batches);
    var l := Rounds(START, batches);
    var id := l.table[fd].id;
    DrainedOutcome(l, fd, id);
    BatchOutcome(Drained(l), batch, fd, id);
    BatchQueues(Drained(l), batch);
    forall x | x in l.queue && x.fd == fd ensures x == Entry(fd, id) {
      assert l.table[x.fd] == Conn(x.id, true);
    }
  }

  // The reactor, with the counter of a server that has no other.
  class Reactor {
    const table: Table
    var currentConnectCount: int

    ghost predicate Valid()
      reads this, table
    {
      table.Valid() && currentConnectCount == |table.connects|
    }

    ghost function View(): Loop
      reads this, table
      requires Valid()
    {
      table.View()
    }

    constructor ()
      ensures Valid() && View() == START && fresh(table)
    {
      table := new Table();
      currentConnectCount := 0;
    }

    // CONNECTS_REMOVE_FD_REACTOR
    method Remove(fd: Fd)
      requires Valid() && fd in table.connects
      modifies this, table
      ensures Valid() && View() == Removed(old(View()), fd)
    {
      currentConnectCount := currentConnectCount - 1;
      table.Erase(fd);
    }

    method Drain()
      requires Valid()
      modifies this, table
      ensures Valid() && View() == Drained(old(View()))
    {
      while table.closeQueue != []
        invariant Valid() && Drained(View()) == Drained(old(View()))
        decreases |table.closeQueue|
      {
        ghost var before := View();
        var fd := table.Pop();
        if fd != -1 && fd in table.connects {
          Remove(fd);
        }
        assert View().table == Popped(before).table;
      }
    }

    method Dispatch(e: Event)
      requires Valid()
      modifies this, table
      ensures Valid() && View() == Dispatched(old(View()), e)
    {
      if e.fd !in table.connects {
        currentConnectCount := currentConnectCount + 1;
        table.Open(e.fd);
      }
      match e.kind {
        case RdHup =>
          var _ := table.Process(e);
          Remove(e.fd);
        case Error =>
          var _ := table.Process(e);
          Remove(e.fd);
        case Out =>
          var ok := table.Process(e);
          if !ok { Remove(e.fd); }
        case In =>
          var ok := table.Process(e);
          if !ok { Remove(e.fd); }
        case Other =>
          Remove(e.fd);
      }
    }

    // One round of `work`
    method Work(batch: seq<Event>)
      requires Valid()
      modifies this, table
      ensures Valid() && View() == Round(old(View()), batch)
    {
      Drain();
      for i := 0 to |batch|
        invariant Valid()
        invariant AllDispatched(View(), batch[i..]) == Round(old(View()), batch)
      {
        assert batch[i..][0] == batch[i] && batch[i..][1..] == batch[i + 1..];
        Dispatch(batch[i]);
      }
    }
  }
}
