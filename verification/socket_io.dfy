/**
 `socket_io.h`: transfers that go on where the last call has stopped, over a kernel that moves as many
 bytes at a time as it likes; and the loop of `http_conn.h` that reads the body of a POST request.

 What the kernel will answer, call by call, is a plan given in advance.  A loop that has come to the end
 of its plan is not over: it is waiting for more.
 */
module SocketIo {
  type Byte = bv8

  const BUFFER: nat := 2048
  const SIZE_T: nat := 0x1_0000_0000_0000_0000

  datatype Return = Returns(ok: bool) | Waits

  // An answer of ::recv.  At the end of the stream it is 0, and whether errno still says EAGAIN from some
  // earlier call is not up to the program.
  datatype Answer = Ready(more: nat) | Again | Broken | Ended(stale: bool)

  datatype Receiver = Receiver(stream: seq<Byte>, plan: seq<Answer>, cursor: nat, total: nat, data: seq<Byte>)

  function Min(a: nat, b: nat): nat { if a < b then a else b }

  // At least one byte if there is one, and no more than is asked for.
  function Moved(more: nat, asked: nat, there: nat): nat { Min(Min(more + 1, Min(asked, BUFFER)), there) }

  function Took(x: Receiver, k: nat): Receiver
    requires k <= |x.stream|
  {
    x.(stream := x.stream[k..], data := x.data + x.stream[..k], cursor := x.cursor + k)
  }

  function Receive(x: Receiver): (Return, Receiver)
    decreases |x.plan|
  {
    if x.cursor >= x.total then (Returns(true), x)
    else if x.plan == [] then (Waits, x)
    else
      var rest := x.(plan := x.plan[1..]);
      match x.plan[0]
      case Again => (Returns(true), rest)
      case Broken => (Returns(false), rest)
      case Ended(stale) => (Returns(stale), rest)
      case Ready(more) =>
        var k := Moved(more, x.total - x.cursor, |x.stream|);
        if k == 0 then (Returns(true), rest) else Receive(Took(rest, k))
  }

  // recv_base
  function ReceiveBase(x: Receiver): (Return, Receiver) {
    if x.total == 0 then (Returns(false), x) else Receive(x)
  }

  // `recv`: a new transfer, unless the last call has returned false.
  function Asked(x: Receiver, already: bool, size: nat): Receiver {
    if already then x.(total := size, cursor := 0) else x
  }

  // A call to recv moves the next bytes of the stream into the data, in order, and no more than are left.
  lemma {:induction false} ReceiveMoves(x: Receiver)
    requires x.cursor <= x.total
    ensures var y := Receive(x).1;
            && x.cursor <= y.cursor <= x.total == y.total && y.data + y.stream == x.data + x.stream
            && |y.data| == |x.data| + (y.cursor - x.cursor)
    decreases |x.plan|
  {
    if x.cursor < x.total && x.plan != [] && x.plan[0].Ready? {
      var k := Moved(x.plan[0].more, x.total - x.cursor, |x.stream|);
      if k != 0 {
        var next := Took(x.(plan := x.plan[1..]), k);
        assert next.data + next.stream == x.data + x.stream by { TookKeeps(x, k); }
        ReceiveMoves(next);
      }
    }
  }

  lemma TookKeeps(x: Receiver, k: nat)
    requires k <= |x.stream|
    ensures Took(x, k).data + Took(x, k).stream == x.data + x.stream
  {
    assert x.stream == x.stream[..k] + x.stream[k..];
  }

  // How a call to recv ends: it waits only where its plan does, and fails only with something left to move.
  lemma {:induction false} ReceiveEnds(x: Receiver)
    requires x.cursor < x.total
    ensures Receive(x).0 == Waits ==> Receive(x).1.plan == [] && Receive(x).1.cursor < x.total
    ensures Receive(x).0 == Returns(false) ==> Receive(x).1.cursor < x.total
    ensures Receive(x).0 != Waits ==> |Receive(x).1.plan| < |x.plan|
    decreases |x.plan|
  {
    if x.plan != [] && x.plan[0].Ready? {
      var k := Moved(x.plan[0].more, x.total - x.cursor, |x.stream|);
      if k != 0 && x.cursor + k < x.total { ReceiveEnds(Took(x.(plan := x.plan[1..]), k)); }
    }
  }

  // The answers a call uses up.
  function Answers(x: Receiver): seq<Answer> {
    x.plan[..if |Receive(x).1.plan| <= |x.plan| then |x.plan| - |Receive(x).1.plan| else 0]
  }

  lemma AnswersOne(x: Receiver)
    requires x.cursor < x.total && x.plan != [] && x.plan[0].Ready? && x.stream != []
    ensures 0 < Moved(x.plan[0].more, x.total - x.cursor, |x.stream|) <= |x.stream|
    ensures var k := Moved(x.plan[0].more, x.total - x.cursor, |x.stream|);
            var next := Took(x.(plan := x.plan[1..]), k);
            && Receive(x) == Receive(next) && |Receive(next).1.plan| <= |next.plan|
            && Answers(x) == [x.plan[0]] + Answers(next)
  {
    var k := Moved(x.plan[0].more, x.total - x.cursor, |x.stream|);
    var next := Took(x.(plan := x.plan[1..]), k);
    PlanShrinks(next);
    var n := |Receive(next).1.plan|;
    assert x.plan == [x.plan[0]] + x.plan[1..];
    assert x.plan[..|x.plan| - n] == [x.plan[0]] + x.plan[1..][..|x.plan| - 1 - n];
  }

  lemma {:induction false} PlanShrinks(x: Receiver)
    ensures |Receive(x).1.plan| <= |x.plan|
    decreases |x.plan|
  {
    if x.cursor < x.total && x.plan != [] && x.plan[0].Ready? {
      var k := Moved(x.plan[0].more, x.total - x.cursor, |x.stream|);
      if k != 0 { PlanShrinks(Took(x.(plan := x.plan[1..]), k)); }
    }
  }

  function Last(q: seq<Answer>): Answer
    requires q != []
  {
    q[|q| - 1]
  }

  // How the answers used up decide what is returned.
  predicate Decided(total: nat, used: seq<Answer>, r: Return, y: Receiver) {
    && (forall i :: 0 <= i < |used| - 1 ==> used[i].Ready?)
    && (r == Waits ==> y.plan == [] && y.cursor < total)
    && if used == [] then r == (if y.cursor >= total then Returns(true) else Waits)
       else
         match Last(used)
         case Broken => r == Returns(false)
         case Ended(stale) => r == Returns(stale)
         case Again => r == Returns(true)
         case Ready(_) => r == Waits || (r == Returns(true) && (y.cursor >= total || y.stream == []))
  }

  lemma DecidedLater(total: nat, a: Answer, used: seq<Answer>, r: Return, y: Receiver)
    requires Decided(total, used, r, y) && a.Ready?
    ensures Decided(total, [a] + used, r, y)
  {
    var all := [a] + used;
    assert used != [] ==> Last(all) == Last(used);
    assert forall i :: 0 < i < |all| ==> all[i] == used[i - 1];
  }

  // What a call returns is decided by the last answer it has used up: false after an error, or at the end of
  // the stream with nothing in errno; true if all has been moved or there is nothing to be had for now.  All
  // answers before that are data.  It waits only when it has run out of answers.
  lemma {:induction false} ReceiveReturns(x: Receiver)
    ensures x.plan == Answers(x) + Receive(x).1.plan
    ensures Decided(x.total, Answers(x), Receive(x).0, Receive(x).1)
    decreases |x.plan|
  {
    hide Moved, Answers, Decided, Receive;
    if x.cursor < x.total && x.plan != [] && x.plan[0].Ready? && x.stream != [] {
      AnswersOne(x);
      var k := Moved(x.plan[0].more, x.total - x.cursor, |x.stream|);
      var next := Took(x.(plan := x.plan[1..]), k);
      ReceiveReturns(next);
      DecidedLater(x.total, x.plan[0], Answers(next), Receive(next).0, Receive(next).1);
      assert x.plan == [x.plan[0]] + x.plan[1..];
      assert [x.plan[0]] + (Answers(next) + Receive(next).1.plan) == ([x.plan[0]] + Answers(next)) + Receive(next).1.plan;
    } else {
      AtOnce(x);
    }
  }

  // A call that moves nothing.
  lemma AtOnce(x: Receiver)
    requires !(x.cursor < x.total && x.plan != [] && x.plan[0].Ready? && x.stream != [])
    ensures x.plan == Answers(x) + Receive(x).1.plan
    ensures Decided(x.total, Answers(x), Receive(x).0, Receive(x).1)
  {
    hide Receive;
    if x.cursor < x.total && x.plan != [] {
      NothingMoves(x);
      assert Answers(x) == [x.plan[0]];
    } else {
      NoAnswer(x);
      assert Answers(x) == [];
    }
  }

  lemma NoAnswer(x: Receiver)
    requires x.cursor >= x.total || x.plan == []
    ensures Receive(x) == (if x.cursor >= x.total then Returns(true) else Waits, x)
  {
  }

  lemma NothingMoves(x: Receiver)
    requires x.cursor < x.total && x.plan != [] && (x.plan[0].Ready? ==> x.stream == [])
    ensures Receive(x).1 == x.(plan := x.plan[1..])
    ensures Receive(x).0 == Returns(!(x.plan[0] == Broken || x.plan[0] == Ended(false)))
  {
  }

  // A transfer of nothing fails at once.
  lemma NothingToReceive(x: Receiver)
    ensures x.total == 0 ==> ReceiveBase(x) == (Returns(false), x)
    ensures x.total > 0 ==> ReceiveBase(x) == Receive(x)
  {
  }

  // `recv` called again and again, with whatever sizes, as long as it returns false.
  function ReceiveUntilTrue(x: Receiver, already: bool, sizes: seq<nat>): (Return, Receiver)
    decreases |sizes|
  {
    if sizes == [] then (Returns(false), x)
    else
      var (r, y) := ReceiveBase(Asked(x, already, sizes[0]));
      if r == Returns(false) then ReceiveUntilTrue(y, false, sizes[1..]) else (r, y)
  }

  lemma {:induction false} ResumedReceives(x: Receiver, sizes: seq<nat>)
    requires x.cursor <= x.total
    ensures var y := ReceiveUntilTrue(x, false, sizes).1;
            && y.total == x.total && x.cursor <= y.cursor <= x.total && y.data + y.stream == x.data + x.stream
            && |y.data| == |x.data| + (y.cursor - x.cursor)
    decreases |sizes|
  {
    if sizes != [] {
      ReceiveMoves(x);
      var (r, y) := ReceiveBase(x);
      if r == Returns(false) { ResumedReceives(y, sizes[1..]); }
    }
  }

  // However often a transfer is cut short and taken up again, it is the one that was begun: only the size of the
  // first call counts, and no more than that is moved, in order.
  lemma FirstSizeCounts(x: Receiver, sizes: seq<nat>)
    requires sizes != []
    ensures var y := ReceiveUntilTrue(x, true, sizes).1;
            && y.total == sizes[0] && y.cursor <= sizes[0] && y.data + y.stream == x.data + x.stream
            && |y.data| == |x.data| + y.cursor
  {
    var a := x.(total := sizes[0], cursor := 0);
    ReceiveMoves(a);
    var (r, y) := ReceiveBase(a);
    if r == Returns(false) { ResumedReceives(y, sizes[1..]); }
  }

  // One answer with data moves as much as it can: what is there, what is asked for, the size of the buffer or
  // what the kernel has, whichever is least.
  lemma MovedIsLeast(more: nat, asked: nat, there: nat)
    ensures var k := Moved(more, asked, there);
            && k <= more + 1 && k <= asked && k <= 2048 && k <= there
            && (k == more + 1 || k == asked || k == 2048 || k == there)
  {
  }

  // Where a call that goes on with an unfinished transfer is going on with the right one: as much of it is
  // left as of the body.
  predicate Resumable(x: Receiver, already: bool, length: nat) {
    !already ==> x.cursor < x.total && |x.data| + (x.total - x.cursor) == length
  }

  // One turn of the body loop.
  lemma TurnIsResumable(x: Receiver, already: bool, length: nat)
    requires Resumable(x, already, length) && |x.data| < length
    ensures var a := Asked(x, already, length - |x.data|);
            var (r, y) := ReceiveBase(a);
            && a.total > 0 && a.cursor < a.total && a.plan == x.plan
            && |x.data| <= |y.data| <= length
            && (r.Returns? ==> Resumable(y, r.ok, length) && |y.plan| < |x.plan|)
            && (r == Waits ==> y.plan == [] && |y.data| < length)
            && y.data + y.stream == x.data + x.stream
  {
    var a := Asked(x, already, length - |x.data|);
    ReceiveMoves(a);
    ReceiveEnds(a);
  }

  // The body loop of process_in.
  function ReadBody(x: Receiver, already: bool, length: nat): (Return, Receiver)
    requires Resumable(x, already, length)
    decreases |x.plan|
  {
    if length <= |x.data| then (Returns(true), x)
    else
      TurnIsResumable(x, already, length);
      var (r, y) := ReceiveBase(Asked(x, already, length - |x.data|));
      if r == Waits then (Waits, y) else ReadBody(y, r.ok, length)
  }

  // Whatever the kernel answers, the body is the stream in order and the loop takes no byte beyond
  // Content-Length; it ends exactly when the body is that long, and until then it only ever waits.
  lemma {:induction false} BodyIsInOrder(x: Receiver, already: bool, length: nat)
    requires Resumable(x, already, length)
    ensures var (r, y) := ReadBody(x, already, length);
            && y.data + y.stream == x.data + x.stream && |y.data| >= |x.data|
            && (|x.data| <= length ==> |y.data| <= length) && (|x.data| >= length ==> y == x)
            && (r == Waits ==> |y.data| < length && y.plan == [])
            && (r != Waits ==> r == Returns(true) && |y.data| == if |x.data| > length then |x.data| else length)
    decreases |x.plan|
  {
    if |x.data| < length {
      TurnIsResumable(x, already, length);
      var (r, y) := ReceiveBase(Asked(x, already, length - |x.data|));
      if r != Waits { BodyIsInOrder(y, r.ok, length); }
    }
  }

  // If the peer sends less than it has announced, the loop never ends, whatever the kernel answers.
  lemma ShortStreamWaits(x: Receiver, already: bool, length: nat)
    requires Resumable(x, already, length) && |x.data| + |x.stream| < length
    ensures ReadBody(x, already, length).0 == Waits
  {
    BodyIsInOrder(x, already, length);
    var (r, y) := ReadBody(x, already, length);
    assert |y.data + y.stream| == |x.data + x.stream|;
  }

  function ReadyCount(plan: seq<Answer>): nat {
    if plan == [] then 0 else (if plan[0].Ready? then 1 else 0) + ReadyCount(plan[1..])
  }

  // A call uses up at most one answer with data in it for each byte it moves.
  lemma {:induction false} ReceiveUses(x: Receiver)
    requires x.cursor <= x.total && x.total - x.cursor <= |x.stream|
    ensures ReadyCount(Receive(x).1.plan) + (Receive(x).1.cursor - x.cursor) >= ReadyCount(x.plan)
    decreases |x.plan|
  {
    if x.cursor < x.total && x.plan != [] && x.plan[0].Ready? {
      ReceiveUses(Took(x.(plan := x.plan[1..]), Moved(x.plan[0].more, x.total - x.cursor, |x.stream|)));
    }
  }

  // If the peer sends enough and the kernel hands it over, be it byte by byte and between any number of
  // EAGAINs and errors, the loop ends.
  lemma {:induction false} EnoughDataEnds(x: Receiver, already: bool, length: nat)
    requires Resumable(x, already, length) && |x.data| + |x.stream| >= length
    requires ReadyCount(x.plan) >= length - |x.data|
    ensures ReadBody(x, already, length).0 == Returns(true)
    decreases |x.plan|
  {
    if |x.data| < length {
      TurnIsResumable(x, already, length);
      var a := Asked(x, already, length - |x.data|);
      ReceiveUses(a);
      ReceiveMoves(a);
      var (r, y) := ReceiveBase(a);
      if r != Waits { EnoughDataEnds(y, r.ok, length); }
    }
  }

  // The answers of ::send are stored in a size_t, so that only 0 is taken for an error, and -1, which is what
  // a full buffer gives, is added to the cursor as the largest size_t.
  datatype Sender = Sender(data: seq<Byte>, plan: seq<int>, cursor: nat, total: nat, sent: seq<Byte>)

  function Send(x: Sender): (r: (Return, Sender))
    requires x.total <= |x.data| && x.total < SIZE_T
    ensures r.1.total == x.total && r.1.data == x.data && |r.1.plan| <= |x.plan|
    decreases |x.plan|
  {
    if x.cursor >= x.total then (Returns(true), x)
    else if x.plan == [] then (Waits, x)
    else
      var rest := x.(plan := x.plan[1..]);
      if x.plan[0] == 0 then (Returns(false), rest)
      else if x.plan[0] < 0 then Send(rest.(cursor := (x.cursor + SIZE_T - 1) % SIZE_T))
      else
        var k := Min(x.plan[0], Min(x.total - x.cursor, BUFFER));
        Send(rest.(cursor := x.cursor + k, sent := x.sent + x.data[x.cursor..x.cursor + k]))
  }

  // The answers a call uses up.
  function Used(x: Sender): seq<int>
    requires x.total <= |x.data| && x.total < SIZE_T
  {
    x.plan[..|x.plan| - |Send(x).1.plan|]
  }

  function Negatives(plan: seq<int>): nat {
    if plan == [] then 0 else (if plan[0] < 0 then 1 else 0) + Negatives(plan[1..])
  }

  predicate Honest(plan: seq<int>) { forall i :: 0 <= i < |plan| ==> plan[i] >= 0 }

  lemma {:induction false} HonestIsNoNegatives(plan: seq<int>)
    ensures Honest(plan) <==> Negatives(plan) == 0
  {
    if plan != [] {
      HonestIsNoNegatives(plan[1..]);
      assert plan == [plan[0]] + plan[1..];
    }
  }

  lemma {:induction false} NegativesAppend(a: seq<int>, b: seq<int>)
    ensures Negatives(a + b) == Negatives(a) + Negatives(b)
  {
    if a == [] {
      assert a + b == b;
    } else {
      assert (a + b)[1..] == a[1..] + b;
      NegativesAppend(a[1..], b);
    }
  }

  // What a call should do: send the data from the cursor on, move the cursor by as much, and return true if
  // and only if that is all of it.
  predicate Right(x: Sender, r: Return, y: Sender)
    requires x.cursor <= x.total <= |x.data|
  {
    && x.cursor <= y.cursor <= x.total && y.sent == x.sent + x.data[x.cursor..y.cursor]
    && (r == Returns(true) <==> y.cursor == x.total)
  }

  function AfterOne(x: Sender): Sender
    requires x.plan != [] && x.cursor < x.total <= |x.data|
  {
    var rest := x.(plan := x.plan[1..]);
    if x.plan[0] < 0 then rest.(cursor := (x.cursor + SIZE_T - 1) % SIZE_T)
    else
      var k := Min(x.plan[0], Min(x.total - x.cursor, BUFFER));
      rest.(cursor := x.cursor + k, sent := x.sent + x.data[x.cursor..x.cursor + k])
  }

  // A call whose first answer is not 0 goes on as one more call.
  lemma UsedOne(x: Sender)
    requires x.plan != [] && x.plan[0] != 0 && x.cursor < x.total <= |x.data| && x.total < SIZE_T
    ensures Send(x) == Send(AfterOne(x)) && Used(x) == [x.plan[0]] + Used(AfterOne(x))
  {
    var n := |Send(AfterOne(x)).1.plan|;
    assert x.plan == [x.plan[0]] + x.plan[1..];
    assert x.plan[..|x.plan| - n] == [x.plan[0]] + x.plan[1..][..|x.plan| - 1 - n];
  }

  // Without an error a call is right.  Each error makes what has gone out one byte more than the cursor
  // says, or ends the call with a cursor beyond all data.
  lemma {:induction false} SendCounts(x: Sender)
    requires x.cursor <= x.total <= |x.data| && x.total < SIZE_T - 1
    ensures var (r, y) := Send(x);
            && (Negatives(Used(x)) == 0 ==> Right(x, r, y))
            && (if y.cursor <= x.total then |y.sent| + x.cursor == |x.sent| + y.cursor + Negatives(Used(x))
                else y.cursor == SIZE_T - 1 && Negatives(Used(x)) > 0)
            && (r == Returns(false) ==> y.cursor < x.total)
    decreases |x.plan|
  {
    hide Send, Used, Min;
    if x.cursor < x.total && x.plan != [] && x.plan[0] != 0 {
      var next := AfterOne(x);
      UsedOne(x);
      StepOne(x);
      assert ([x.plan[0]] + Used(next))[1..] == Used(next);
      if x.plan[0] < 0 && x.cursor == 0 {
        Overshoots(next);
      } else {
        SendCounts(next);
        if x.plan[0] > 0 { Glue(x, Send(next).1.cursor); }
      }
    } else {
      SendStops(x);
    }
  }

  lemma SendStops(x: Sender)
    requires x.cursor <= x.total <= |x.data| && x.total < SIZE_T
    requires x.cursor == x.total || x.plan == [] || x.plan[0] == 0
    ensures Negatives(Used(x)) == 0 && Right(x, Send(x).0, Send(x).1) && Send(x).1.sent == x.sent
    ensures Send(x).1.cursor == x.cursor && (Send(x).0 == Returns(false) ==> x.cursor < x.total)
  {
    assert Used(x) == [] || Used(x) == [0];
  }

  // How far one answer moves the cursor.
  lemma StepOne(x: Sender)
    requires x.plan != [] && x.plan[0] != 0 && x.cursor < x.total <= |x.data| && x.total < SIZE_T - 1
    ensures x.plan[0] > 0 ==> x.cursor < AfterOne(x).cursor <= x.total
    ensures x.plan[0] > 0 ==> |AfterOne(x).sent| == |x.sent| + AfterOne(x).cursor - x.cursor
    ensures x.plan[0] < 0 ==> AfterOne(x).sent == x.sent
    ensures x.plan[0] < 0 ==> AfterOne(x).cursor == if x.cursor == 0 then SIZE_T - 1 else x.cursor - 1
  {
  }

  lemma Overshoots(x: Sender)
    requires x.total <= |x.data| && x.total < SIZE_T && x.cursor >= x.total
    ensures Send(x) == (Returns(true), x) && Used(x) == []
  {
  }

  lemma Glue(x: Sender, end: nat)
    requires x.plan != [] && x.plan[0] > 0 && x.cursor < x.total <= |x.data|
    ensures AfterOne(x).cursor <= end <= x.total ==>
              AfterOne(x).sent + x.data[AfterOne(x).cursor..end] == x.sent + x.data[x.cursor..end]
  {
    var c := AfterOne(x).cursor;
    if c <= end <= x.total {
      assert x.data[x.cursor..c] + x.data[c..end] == x.data[x.cursor..end];
    }
  }

  // A call is right exactly if no error is among the answers it uses up.
  lemma SendRightIff(x: Sender)
    requires x.cursor <= x.total <= |x.data| && x.total < SIZE_T - 1
    ensures Right(x, Send(x).0, Send(x).1) <==> Honest(Used(x))
  {
    hide Send, Used, Honest;
    SendCounts(x);
    HonestIsNoNegatives(Used(x));
  }

  function Started(x: Sender, already: bool, size: nat, plan: seq<int>): Sender {
    if already then x.(plan := plan, total := size, cursor := 0) else x.(plan := plan)
  }

  // `send`, called again with the same data as long as it returns false; each call has its own plan.
  function SendUntilTrue(x: Sender, already: bool, size: nat, plans: seq<seq<int>>): (Return, Sender)
    requires x.total <= |x.data| && size <= |x.data| < SIZE_T
    decreases |plans|
  {
    if plans == [] || (already && size == 0) then (Returns(false), x)
    else
      var (r, y) := Send(Started(x, already, size, plans[0]));
      if r == Returns(false) then SendUntilTrue(y, false, size, plans[1..]) else (r, y)
  }

  // The answers all these calls use up.
  function AllUsed(x: Sender, already: bool, size: nat, plans: seq<seq<int>>): seq<int>
    requires x.total <= |x.data| && size <= |x.data| < SIZE_T
    decreases |plans|
  {
    if plans == [] || (already && size == 0) then []
    else
      var x1 := Started(x, already, size, plans[0]);
      var (r, y) := Send(x1);
      Used(x1) + if r == Returns(false) then AllUsed(y, false, size, plans[1..]) else []
  }

  lemma {:induction false} ResendCounts(x: Sender, size: nat, plans: seq<seq<int>>)
    requires x.cursor < x.total == size <= |x.data| < SIZE_T && size < SIZE_T - 1
    ensures var (r, y) := SendUntilTrue(x, false, size, plans);
            var errors := Negatives(AllUsed(x, false, size, plans));
            && (errors == 0 ==> Right(x, r, y))
            && (if y.cursor <= size then |y.sent| + x.cursor == |x.sent| + y.cursor + errors
                else y.cursor == SIZE_T - 1 && errors > 0)
    decreases |plans|
  {
    hide Send, Used;
    if plans != [] {
      var x1 := Started(x, false, size, plans[0]);
      SendCounts(x1);
      var (r, y) := Send(x1);
      if r == Returns(false) {
        ResendCounts(y, size, plans[1..]);
        NegativesAppend(Used(x1), AllUsed(y, false, size, plans[1..]));
        var z := SendUntilTrue(y, false, size, plans[1..]).1;
        if x.cursor <= y.cursor <= z.cursor <= size {
          assert x.data[x.cursor..y.cursor] + x.data[y.cursor..z.cursor] == x.data[x.cursor..z.cursor];
        }
      } else {
        assert Used(x1) + [] == Used(x1);
      }
    }
  }

  // However often a send is cut short and taken up again: what has gone out is the data up to the cursor,
  // once and in order, and it returns true if and only if that is all of it, exactly if no error is among
  // the answers the calls use up.
  lemma ResendRightIff(x: Sender, size: nat, plans: seq<seq<int>>)
    requires 0 < size <= |x.data| < SIZE_T && size < SIZE_T - 1 && x.total <= |x.data| && x.sent == []
    requires plans != []
    ensures var (r, y) := SendUntilTrue(x, true, size, plans);
            (&& y.cursor <= size && y.sent == x.data[..y.cursor]
             && (r == Returns(true) <==> y.cursor == size))
            <==> Honest(AllUsed(x, true, size, plans))
  {
    hide Send, Used, Honest;
    var x0 := x.(total := size, cursor := 0);
    assert Started(x, true, size, plans[0]) == Started(x0, false, size, plans[0]);
    ResendCounts(x0, size, plans);
    HonestIsNoNegatives(AllUsed(x, true, size, plans));
    var y := SendUntilTrue(x, true, size, plans).1;
    if y.cursor <= size {
      assert [] + x.data[0..y.cursor] == x.data[..y.cursor];
    }
  }

  // An error of the kernel on the first call is taken for a success: nothing has been sent, and the
  // transfer is over.
  lemma ErrorSendsNothing(x: Sender)
    requires 0 < x.total <= |x.data| && x.total < SIZE_T && x.cursor == 0 && x.plan != [] && x.plan[0] == -1
    ensures Send(x).0 == Returns(true) && Send(x).1.sent == x.sent && Send(x).1.cursor == SIZE_T - 1
  {
    hide Send;
    UsedOne(x);
    Overshoots(AfterOne(x));
  }

  // Later on it makes the last byte go out twice: if nothing else goes wrong, what follows is the data from
  // one byte before the cursor.
  lemma ErrorSendsTwice(x: Sender)
    requires 0 < x.cursor < x.total <= |x.data| && x.total < SIZE_T - 1
    requires x.plan != [] && x.plan[0] == -1 && Honest(x.plan[1..])
    ensures var (r, y) := Send(x);
            && x.cursor - 1 <= y.cursor <= x.total && (r == Returns(true) <==> y.cursor == x.total)
            && y.sent == x.sent + x.data[x.cursor - 1..y.cursor]
  {
    hide Send;
    UsedOne(x);
    var next := AfterOne(x);
    assert next.cursor == x.cursor - 1;
    SendRightIff(next);
    assert Honest(Used(next));
  }

  // The other end of the socket, and what ::recv and ::send will answer.
  class Kernel {
    var stream: seq<Byte>
    var answers: seq<Answer>
    var counts: seq<int>
    var sent: seq<Byte>

    constructor (s: seq<Byte>, answersToCome: seq<Answer>, countsToCome: seq<int>)
      ensures stream == s && answers == answersToCome && counts == countsToCome && sent == []
    {
      stream, answers, counts, sent := s, answersToCome, countsToCome, [];
    }
  }

  class Socket {
    const kernel: Kernel
    var readCursor: nat
    var readTotal: nat
    var writeCursor: nat
    var writeTotal: nat
    var already: bool

    constructor (k: Kernel)
      ensures kernel == k && already && readCursor == readTotal == writeCursor == writeTotal == 0
    {
      kernel := k;
      readCursor, readTotal, writeCursor, writeTotal, already := 0, 0, 0, 0, true;
    }

    ghost function Reading(data: seq<Byte>): Receiver
      reads this, kernel
    {
      Receiver(kernel.stream, kernel.answers, readCursor, readTotal, data)
    }

    ghost function Writing(data: seq<Byte>): Sender
      reads this, kernel
    {
      Sender(data, kernel.counts, writeCursor, writeTotal, kernel.sent)
    }

    method RecvBase(before: seq<Byte>) returns (r: Return, data: seq<Byte>)
      modifies `readCursor, kernel`stream, kernel`answers
      ensures (r, Reading(data)) == ReceiveBase(old(Reading(before)))
    {
      data := before;
      if readTotal <= 0 {
        return Returns(false), data;
      }
      while readCursor < readTotal
        invariant Receive(Reading(data)) == Receive(old(Reading(before))) && readTotal > 0
        decreases |kernel.answers|
      {
        if kernel.answers == [] {
          return Waits, data;
        }
        var answer := kernel.answers[0];
        kernel.answers := kernel.answers[1..];
        match answer {
          case Again => return Returns(true), data;
          case Broken => return Returns(false), data;
          case Ended(stale) => return Returns(stale), data;
          case Ready(more) =>
            var k := Moved(more, readTotal - readCursor, |kernel.stream|);
            if k == 0 {
              return Returns(true), data;
            }
            data := data + kernel.stream[..k];
            kernel.stream := kernel.stream[k..];
            readCursor := readCursor + k;
        }
      }
      r := Returns(true);
    }

    method Recv(before: seq<Byte>, size: nat) returns (r: Return, data: seq<Byte>)
      modifies `readCursor, `readTotal, `already, kernel`stream, kernel`answers
      ensures (r, Reading(data)) == ReceiveBase(Asked(old(Reading(before)), old(already), size))
      ensures already == if r.Returns? then r.ok else old(already)
    {
      if already {
        readTotal, readCursor := size, 0;
      }
      r, data := RecvBase(before);
      if r.Returns? {
        already := r.ok;
      }
    }

    // The loop over the body of a POST request whose Content-Length is `length`
    method ReadPostBody(before: seq<Byte>, length: nat) returns (r: Return, body: seq<Byte>)
      requires Resumable(Reading(before), already, length)
      modifies `readCursor, `readTotal, `already, kernel`stream, kernel`answers
      ensures (r, Reading(body)) == ReadBody(old(Reading(before)), old(already), length)
    {
      body := before;
      while length > |body|
        invariant Resumable(Reading(body), already, length)
        invariant ReadBody(Reading(body), already, length) == ReadBody(old(Reading(before)), old(already), length)
        decreases |kernel.answers|
      {
        TurnIsResumable(Reading(body), already, length);
        r, body := Recv(body, length - |body|);
        if r == Waits {
          return;
        }
      }
      r := Returns(true);
    }

    method SendBase(data: seq<Byte>) returns (r: Return)
      requires writeTotal <= |data| && writeTotal < SIZE_T
      modifies `writeCursor, kernel`counts, kernel`sent
      ensures (r, Writing(data)) == Send(old(Writing(data)))
    {
      while writeCursor < writeTotal
        invariant Send(Writing(data)) == Send(old(Writing(data)))
        decreases |kernel.counts|
      {
        if kernel.counts == [] {
          return Waits;
        }
        var count := kernel.counts[0];
        kernel.counts := kernel.counts[1..];
        if count == 0 {
          return Returns(false);
        }
        if count < 0 {
          writeCursor := (writeCursor + SIZE_T - 1) % SIZE_T;
        } else {
          var k := Min(count, Min(writeTotal - writeCursor, BUFFER));
          kernel.sent := kernel.sent + data[writeCursor..writeCursor + k];
          writeCursor := writeCursor + k;
        }
      }
      r := Returns(true);
    }

    method SendData(data: seq<Byte>, size: nat) returns (r: Return)
      requires size <= |data| < SIZE_T && writeTotal <= |data|
      modifies `writeCursor, `writeTotal, `already, kernel`counts, kernel`sent
      ensures old(already) && size == 0 ==>
                && r == Returns(false) && already && writeTotal == writeCursor == 0
                && kernel.counts == old(kernel.counts) && kernel.sent == old(kernel.sent)
      ensures !(old(already) && size == 0) ==>
                var x := old(Writing(data));
                (r, Writing(data)) == Send(if old(already) then x.(total := size, cursor := 0) else x)
                && already == if r.Returns? then r.ok else old(already)
    {
      if already {
        writeTotal, writeCursor := size, 0;
        if writeTotal <= 0 {
          return Returns(false);
        }
      }
      r := SendBase(data);
      if r.Returns? {
        already := r.ok;
      }
    }
  }
}
