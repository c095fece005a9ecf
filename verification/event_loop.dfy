/**
 What the loops of `reactor.h` and `conv_single.h` have in common when no worker pool is used and
 handlers run inside the loop: a table of connections, a queue of descriptors to be closed, and the
 dispatch of one event.

 Descriptor numbers and connection objects are used again and again.  What makes two uses different
 is `id`, the number of the call of `init`; no code looks at it.
 */
module EventLoop {
  type Fd = int

  datatype Kind = RdHup | Error | Out | In | Other

  // What a handler does: whether it calls notify_close, and what it returns.
  datatype Handler = Handler(asks: bool, result: bool)

  datatype Event = Event(fd: Fd, kind: Kind, handler: Handler)

  // closing: the status is CLOSE.
  datatype Conn = Conn(id: nat, closing: bool)

  // An entry of the close queue, and which connection has put it there.
  datatype Entry = Entry(fd: Fd, id: nat)

  // The table is without its null entries.
  datatype Loop = Loop(table: map<Fd, Conn>, queue: seq<Entry>, next: nat)

  function Entries(fds: seq<Fd>, ids: seq<nat>): seq<Entry>
    requires |fds| == |ids|
  {
    seq(|fds|, i requires 0 <= i < |fds| => Entry(fds[i], ids[i]))
  }

  function Notified(l: Loop, fd: Fd): Loop
    requires fd in l.table
  {
    var c := l.table[fd];
    if c.closing then l
    else l.(table := l.table[fd := c.(closing := true)], queue := l.queue + [Entry(fd, c.id)])
  }

  // process_in_base and process_out_base ask for a close when their handler fails.
  predicate Asks(e: Event) {
    e.kind != Other && (e.handler.asks || ((e.kind == In || e.kind == Out) && !e.handler.result))
  }

  predicate Removes(e: Event) { (e.kind == In || e.kind == Out) ==> !e.handler.result }

  // The status of the event replaces the one before, then the handler runs.
  function Processed(l: Loop, e: Event): Loop
    requires e.fd in l.table
  {
    if e.kind == Other then l
    else
      var l1 := l.(table := l.table[e.fd := l.table[e.fd].(closing := false)]);
      if Asks(e) then Notified(l1, e.fd) else l1
  }

  function Removed(l: Loop, fd: Fd): Loop { l.(table := l.table - {fd}) }

  function Served(l: Loop, e: Event): Loop
    requires e.fd in l.table
  {
    if Removes(e) then Removed(Processed(l, e), e.fd) else Processed(l, e)
  }

  function Opened(l: Loop, fd: Fd): Loop {
    if fd in l.table then l else l.(table := l.table[fd := Conn(l.next, false)], next := l.next + 1)
  }

  // A descriptor of -1 and a null entry of the table are skipped.
  function Popped(l: Loop): Loop
    requires l.queue != []
  {
    var l1 := l.(queue := l.queue[1..]);
    if l.queue[0].fd == -1 then l1 else Removed(l1, l.queue[0].fd)
  }

  function Drained(l: Loop): (d: Loop)
    ensures d.queue == [] && d.next == l.next
    decreases |l.queue|
  {
    if l.queue == [] then l else Drained(Popped(l))
  }

  // No two connections are the same one.
  ghost predicate Numbered(l: Loop) {
    && (forall fd :: fd in l.table ==> l.table[fd].id < l.next)
    && (forall fd, d :: fd in l.table && d in l.table && l.table[fd].id == l.table[d].id ==> fd == d)
    && (forall e :: e in l.queue ==> e.id < l.next)
  }

  // An entry of the close queue stands for the connection in the table, or the table has none.
  ghost predicate Current(l: Loop) {
    forall e :: e in l.queue && e.fd in l.table ==> l.table[e.fd] == Conn(e.id, true)
  }

  // A connection whose closing flag is set has an entry in the queue.
  ghost predicate Announced(l: Loop) {
    forall fd :: fd in l.table && l.table[fd].closing ==> Entry(fd, l.table[fd].id) in l.queue
  }

  // Nobody has asked for -1 to be closed.
  ghost predicate Proper(l: Loop) { forall e :: e in l.queue ==> e.fd != -1 }

  // Emptying the queue, every entry finds a null slot or the connection that has put it there.
  ghost predicate NeverStale(l: Loop)
    decreases |l.queue|
  {
    l.queue == [] ||
    ((l.queue[0].fd in l.table ==> l.table[l.queue[0].fd].id == l.queue[0].id) && NeverStale(Popped(l)))
  }

  // What emptying the queue should leave: the connections that are not to be closed.
  function Staying(l: Loop): map<Fd, Conn> { map fd | fd in l.table && !l.table[fd].closing :: l.table[fd] }

  // The entries left after one pop are those before, without their first.
  lemma PopFacts(l: Loop)
    requires l.queue != []
    ensures forall e :: e in l.queue <==> e == l.queue[0] || e in Popped(l).queue
  {
    assert l.queue == [l.queue[0]] + l.queue[1..];
  }

  lemma {:induction false} CurrentNeverStale(l: Loop)
    requires Current(l)
    ensures NeverStale(l)
    decreases |l.queue|
  {
    if l.queue != [] {
      PopFacts(l);
      CurrentNeverStale(Popped(l));
    }
  }

  // Emptying the queue removes exactly the connections whose closing flag is set.
  lemma {:induction false} DrainedIsStaying(l: Loop)
    requires Current(l) && Announced(l) && Proper(l)
    ensures Drained(l).table == Staying(l)
    decreases |l.queue|
  {
    if l.queue == [] {
      forall fd | fd in l.table ensures !l.table[fd].closing {
        assert Entry(fd, l.table[fd].id) !in l.queue;
      }
    } else {
      PopFacts(l);
      var p := Popped(l);
      DrainedIsStaying(p);
      assert Staying(p) == Staying(l);
    }
  }

  // Whatever else it removes, emptying the queue leaves no connection whose closing flag is set, and none
  // that an entry names.
  lemma {:induction false} DrainedIsQuiet(l: Loop)
    requires Announced(l) && Proper(l)
    ensures forall fd :: fd in Drained(l).table ==> fd in l.table && !Drained(l).table[fd].closing
    ensures forall e :: e in l.queue ==> e.fd !in Drained(l).table
    decreases |l.queue|
  {
    if l.queue == [] {
      forall fd | fd in l.table ensures !l.table[fd].closing {
        assert Entry(fd, l.table[fd].id) !in l.queue;
      }
    } else {
      PopFacts(l);
      DrainedIsQuiet(Popped(l));
    }
  }

  lemma {:induction false} DrainedNumbered(l: Loop)
    requires Numbered(l)
    ensures Numbered(Drained(l))
    decreases |l.queue|
  {
    if l.queue != [] {
      PopFacts(l);
      DrainedNumbered(Popped(l));
    }
  }

  // One event leaves the entries and the connections of all other descriptors alone.
  lemma ServedFrame(l: Loop, e: Event, fd: Fd)
    requires e.fd in l.table && fd != e.fd
    ensures fd in Served(l, e).table <==> fd in l.table
    ensures fd in l.table ==> Served(l, e).table[fd] == l.table[fd]
    ensures forall x :: x in Served(l, e).queue ==> x in l.queue || x == Entry(e.fd, l.table[e.fd].id)
    ensures forall x :: x in l.queue ==> x in Served(l, e).queue
  {
  }

  // An event for a connection that has no entry in the queue yet keeps the queue right.
  lemma ServedKeeps(l: Loop, e: Event)
    requires e.fd in l.table && !l.table[e.fd].closing && Numbered(l)
    ensures Numbered(Served(l, e)) && Served(l, e).next == l.next
    ensures Current(l) && (forall x :: x in l.queue ==> x.fd != e.fd) ==> Current(Served(l, e))
    ensures Announced(l) ==> Announced(Served(l, e))
  {
    hide Served;
    forall fd | fd != e.fd
      ensures fd in Served(l, e).table <==> fd in l.table
      ensures fd in l.table ==> Served(l, e).table[fd] == l.table[fd]
    {
      ServedFrame(l, e, fd);
    }
    ServedFrame(l, e, e.fd + 1);
    ServedAt(l, e);
  }

  // What one event does to its own connection.
  lemma ServedAt(l: Loop, e: Event)
    requires e.fd in l.table && !l.table[e.fd].closing
    ensures e.fd in Served(l, e).table <==> !Removes(e)
    ensures e.fd in Served(l, e).table ==> Served(l, e).table[e.fd] == Conn(l.table[e.fd].id, Asks(e))
    ensures Asks(e) <==> Served(l, e).queue == l.queue + [Entry(e.fd, l.table[e.fd].id)]
    ensures !Asks(e) <==> Served(l, e).queue == l.queue
    ensures Served(l, e).next == l.next
  {
  }

  // The handler of an ordinary event has succeeded.
  predicate Succeeds(e: Event) { (e.kind == In || e.kind == Out) && e.handler.result }

  // Someone asks for the connection to be closed: its handler, or the loop because the handler has failed.
  predicate Announces(e: Event) {
    e.kind != Other && (e.handler.asks || ((e.kind == In || e.kind == Out) && !e.handler.result))
  }

  // The connection with this number is in the slot of fd.
  predicate Has(l: Loop, fd: Fd, id: nat) { fd in l.table && l.table[fd].id == id }

  // After an event its connection is still there exactly if it was an ordinary one and the handler has
  // succeeded, and is closing then exactly if the handler has asked for it.
  lemma ServedOutcome(l: Loop, e: Event)
    requires e.fd in l.table
    ensures e.fd in Served(l, e).table <==> Succeeds(e)
    ensures e.fd in Served(l, e).table ==> Served(l, e).table[e.fd] == Conn(l.table[e.fd].id, e.handler.asks)
    ensures forall fd :: fd != e.fd ==>
              (fd in Served(l, e).table <==> fd in l.table)
              && (fd in l.table ==> Served(l, e).table[fd] == l.table[fd])
    ensures Served(l, e).queue == l.queue + if Announces(e) then [Entry(e.fd, l.table[e.fd].id)] else []
    ensures Served(l, e).next == l.next
  {
    assert l.queue + [] == l.queue;
  }

  // A connection survives the emptying of the close queue exactly if no entry has its descriptor; entries for
  // -1 are passed over.
  lemma {:induction false} DrainedOutcome(l: Loop, fd: Fd, id: nat)
    ensures Has(Drained(l), fd, id) <==> Has(l, fd, id) && (fd == -1 || forall x :: x in l.queue ==> x.fd != fd)
    decreases |l.queue|
  {
    if l.queue != [] {
      PopFacts(l);
      assert l.queue[0] in l.queue;
      DrainedOutcome(Popped(l), fd, id);
    }
  }

  // The table and the close queue with what the methods of a connection do to them.  `askers` and `made` are
  // not looked at by the code.
  class Table {
    var connects: map<Fd, Conn>
    var closeQueue: seq<Fd>
    ghost var askers: seq<nat>
    var made: nat

    ghost predicate Valid()
      reads this
    {
      |askers| == |closeQueue|
    }

    ghost function View(): Loop
      reads this
      requires Valid()
    {
      Loop(connects, Entries(closeQueue, askers), made)
    }

    constructor ()
      ensures Valid() && View() == Loop(map[], [], 0)
    {
      connects, closeQueue, askers, made := map[], [], [], 0;
    }

    method Open(fd: Fd)
      requires Valid() && fd !in connects
      modifies this
      ensures Valid() && View() == Opened(old(View()), fd)
      ensures |connects| == |old(connects)| + 1
    {
      assert connects[fd := Conn(made, false)].Keys == connects.Keys + {fd};
      connects, made := connects[fd := Conn(made, false)], made + 1;
    }

    method Erase(fd: Fd)
      requires Valid() && fd in connects
      modifies this
      ensures Valid() && View() == Removed(old(View()), fd)
      ensures |connects| == |old(connects)| - 1
    {
      assert connects.Keys == (connects - {fd}).Keys + {fd};
      connects := connects - {fd};
    }

    method Pop() returns (fd: Fd)
      requires Valid() && closeQueue != []
      modifies this
      ensures Valid() && fd == old(closeQueue)[0] && connects == old(connects)
      ensures View() == old(View()).(queue := old(View()).queue[1..])
    {
      fd := closeQueue[0];
      closeQueue, askers := closeQueue[1..], askers[1..];
      assert View().queue == old(View()).queue[1..];
    }

    method NotifyClose(fd: Fd)
      requires Valid() && fd in connects
      modifies this
      ensures Valid() && View() == Notified(old(View()), fd) && connects.Keys == old(connects).Keys
    {
      var c := connects[fd];
      if !c.closing {
        connects := connects[fd := c.(closing := true)];
        closeQueue, askers := closeQueue + [fd], askers + [c.id];
      }
    }

    // `process` of a connection whose status has just been set
    method Process(e: Event) returns (ok: bool)
      requires Valid() && e.fd in connects && e.kind != Other
      modifies this
      ensures Valid() && View() == Processed(old(View()), e) && ok == e.handler.result
      ensures |connects| == |old(connects)|
    {
      connects := connects[e.fd := connects[e.fd].(closing := false)];
      assert connects.Keys == old(connects).Keys;
      if e.handler.asks {
        NotifyClose(e.fd);
      }
      ok := e.handler.result;
      if (e.kind == In || e.kind == Out) && !ok {
        NotifyClose(e.fd);
      }
      assert |connects.Keys| == |old(connects).Keys|;
    }
  }
}
