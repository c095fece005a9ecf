/**
 The lock-free queue as its callers see it: what was asked for is what is pushed, and a thread that runs
 alone comes to the end of its push or pop.
 */
module SafeQueueCalls {
  import opened Logs
  import opened SafeQueue

  // The values a thread was asked to push in the course of a schedule.
  function Calls(steps: seq<Step>, t: Thread): seq<int> {
    if steps == [] then []
    else (if steps[0].Push? && steps[0].t == t then [steps[0].v] else []) + Calls(steps[1..], t)
  }

  // The threads in the order of their exchanges on the tail.
  function Pusher(s: State, step: Step): (r: seq<Thread>)
    ensures |r| <= 1
  {
    if step.Produce? && step.t in s.producers && s.producers[step.t].Ready? then [step.t] else []
  }

  function Pushers(s: State, steps: seq<Step>): seq<Thread>
    decreases steps
  {
    if steps == [] || !Enabled(s, steps[0]) then []
    else Pusher(s, steps[0]) + Pushers(Apply(s, steps[0]), steps[1..])
  }

  // What a producer has been asked to push and has not exchanged the tail for yet.
  function Carried(s: State, t: Thread): seq<int> {
    if t !in s.producers then []
    else
      match s.producers[t]
      case Asked(v) => [v]
      case Loaded(v, _) => [v]
      case Chosen(v, _, _) => [v]
      case Have(v, _) => [v]
      case Filled(v, _) => [v]
      case Ready(v, _) => [v]
      case _ => []
  }

  // One step: what a thread carries and is asked for is what it pushes and carries then.
  lemma StepCarries(s: State, step: Step, t: Thread)
    requires Enabled(s, step)
    ensures var s' := Apply(s, step);
            && s.pushed <= s'.pushed && |s'.pushed| == |s.pushed| + |Pusher(s, step)|
            && Carried(s, t) + Calls([step], t) == Of(s'.pushed[|s.pushed|..], Pusher(s, step), t) + Carried(s', t)
  {
    assert Calls([step][1..], t) == [];
    assert Apply(s, step).pushed[|s.pushed|..] ==
        if Pusher(s, step) == [] then [] else [s.producers[step.t].v];
  }

  lemma {:induction false} RunCarries(s: State, steps: seq<Step>, end: State, t: Thread)
    requires Runs(s, steps, end)
    ensures s.pushed <= end.pushed && |end.pushed| == |s.pushed| + |Pushers(s, steps)|
    ensures Carried(s, t) + Calls(steps, t)
         == Of(end.pushed[|s.pushed|..], Pushers(s, steps), t) + Carried(end, t)
    decreases steps
  {
    hide Apply, Carried, Of, Pusher;
    if steps == [] {
      OfNone<int>(t);
      assert Carried(s, t) + [] == [] + Carried(s, t);
    } else {
      var mid := Apply(s, steps[0]);
      StepCarries(s, steps[0], t);
      RunCarries(mid, steps[1..], end, t);
      FirstCall(steps, t);
      var a, b := mid.pushed[|s.pushed|..], end.pushed[|mid.pushed|..];
      assert end.pushed[|s.pushed|..] == a + b;
      OfNext(a, Pusher(s, steps[0]), b, Pushers(mid, steps[1..]), t);
      Chain(Carried(s, t), Calls([steps[0]], t), Calls(steps[1..], t), Carried(mid, t), Carried(end, t),
            Of(a, Pusher(s, steps[0]), t), Of(b, Pushers(mid, steps[1..]), t));
    }
  }

  lemma FirstCall(steps: seq<Step>, t: Thread)
    requires steps != []
    ensures Calls(steps, t) == Calls([steps[0]], t) + Calls(steps[1..], t)
  {
    assert Calls([steps[0]][1..], t) == [];
  }

  // In every interleaving, of each thread the values that have been pushed, and then the one it has not got to
  // the tail yet, are those it was asked to push, in that order; and what has been popped comes first
  // among what has been pushed.
  lemma PushedAsAsked(s: State, steps: seq<Step>, end: State, t: Thread)
    requires Init(s) && Runs(s, steps, end)
    ensures |end.pushed| == |Pushers(s, steps)|
    ensures Of(end.pushed, Pushers(s, steps), t) + Carried(end, t) == Calls(steps, t)
    ensures end.popped <= end.pushed
  {
    RunCarries(s, steps, end, t);
    FirstInFirstOut(s, steps, end);
    assert end.pushed[|s.pushed|..] == end.pushed;
    assert Carried(s, t) + Calls(steps, t) == Calls(steps, t);
  }

  // One more step of a run.
  lemma {:induction false} OneMore(s: State, steps: seq<Step>, mid: State, step: Step)
    requires Runs(s, steps, mid) && Enabled(mid, step)
    ensures Runs(s, steps + [step], Apply(mid, step))
    decreases steps
  {
    hide Enabled, Apply;
    if steps == [] {
      assert [step][1..] == [];
    } else {
      assert (steps + [step])[1..] == steps[1..] + [step];
      OneMore(Apply(s, steps[0]), steps[1..], mid, step);
    }
  }

  // Nobody else's steps.
  predicate Own(steps: seq<Step>, t: Thread) {
    forall i :: 0 <= i < |steps| ==> !steps[i].Consume? && steps[i].t == t
  }

  // A producer has got a node, from the free list if there was one; nothing else has changed.
  predicate Acquired(s: State, t: Thread, v: int, n: Node, e: State) {
    && t in e.producers && e.producers == s.producers[t := Have(v, n)] && Allocated(e, n)
    && e.head == s.head && e.tail == s.tail && e.chain == s.chain && e.owed == s.owed && e.consumer == s.consumer
    && e.pushed == s.pushed && e.popped == s.popped && e.free == Drop(s.free) && e.pool == Top(e.free)
    && (s.free != [] ==> n == s.free[0] && e.next == s.next && e.data == s.data)
    && (s.free == [] ==> e.next == s.next[n := Null] && e.data == s.data[n := 0])
  }

  // From the load of the top of the free list.
  lemma TopAlone(s: State, t: Thread, v: int, spare: Node) returns (steps: seq<Step>, e: State, n: Node)
    requires Inv(s) && t in s.producers && s.producers[t] == Loaded(v, s.pool)
    requires spare !in s.next && spare !in s.data
    ensures Runs(s, steps, e) && Own(steps, t) && Acquired(s, t, v, n, e) && Inv(e) && |steps| <= 2
    ensures n == if s.free == [] then spare else s.free[0]
  {
    hide Inv, Runs;
    NoSteps(s);
    PoolIsTop(s);
    if s.free == [] {
      e, n := Apply(s, New(t, spare)), spare;
      OneMore(s, [], s, New(t, spare));
      StepKeepsInv(s, New(t, spare));
      steps := [] + [New(t, spare)];
    } else {
      var s1 := Apply(s, Produce(t));
      OneMore(s, [], s, Produce(t));
      StepKeepsInv(s, Produce(t));
      PoolIsTop(s1);
      e, n := Apply(s1, Produce(t)), s.free[0];
      OneMore(s, [] + [Produce(t)], s1, Produce(t));
      StepKeepsInv(s1, Produce(t));
      PoolIsTop(e);
      steps := [] + [Produce(t)] + [Produce(t)];
      assert s.producers[t := s1.producers[t]][t := Have(v, n)] == s.producers[t := Have(v, n)];
    }
  }

  lemma AcquireAlone(s: State, t: Thread, v: int, spare: Node) returns (steps: seq<Step>, e: State, n: Node)
    requires Inv(s) && t in s.producers && s.producers[t] == Asked(v) && Unattended(s)
    requires spare !in s.next && spare !in s.data
    ensures Runs(s, steps, e) && Own(steps, t) && Acquired(s, t, v, n, e) && Inv(e) && |steps| <= 3
    ensures n == if s.free == [] then spare else s.free[0]
  {
    hide Inv, Runs;
    NoSteps(s);
    var s1 := Apply(s, Produce(t));
    OneMore(s, [], s, Produce(t));
    StepKeepsInv(s, Produce(t));
    steps, e, n := TopAlone(s1, t, v, spare);
    RunsOn(s, [] + [Produce(t)], s1, steps, e);
    steps := [] + [Produce(t)] + steps;
    assert s.producers[t := Loaded(v, s.pool)][t := Have(v, n)] == s.producers[t := Have(v, n)];
  }

  // What acquire_node leaves as it was.
  predicate Aside(s: State, e: State, t: Thread, p: Producer) {
    && e.producers == s.producers[t := p] && e.consumer == s.consumer && e.chain == s.chain && e.owed == s.owed
    && e.head == s.head && e.tail == s.tail && e.pushed == s.pushed && e.popped == s.popped
  }

  // From in front of the compare-and-swap, which fails if the consumer has given nodes back in between.
  lemma SwapAlone(s: State, t: Thread, spare: Node) returns (steps: seq<Step>, e: State, n: Node)
    requires Inv(s) && t in s.producers && s.producers[t].Chosen? && Allocated(s, s.producers[t].node)
    requires spare !in s.next && spare !in s.data
    ensures Runs(s, steps, e) && Own(steps, t) && Inv(e) && |steps| <= 3
    ensures Aside(s, e, t, Have(s.producers[t].v, n)) && Allocated(e, n)
  {
    hide Inv, Runs;
    NoSteps(s);
    var v := s.producers[t].v;
    var s1 := Apply(s, Produce(t));
    OneMore(s, [], s, Produce(t));
    StepKeepsInv(s, Produce(t));
    steps, e, n := [] + [Produce(t)], s1, s.producers[t].node;
    if s.pool != To(n) {
      steps, e, n := TopAlone(s1, t, v, spare);
      RunsOn(s, [] + [Produce(t)], s1, steps, e);
      steps := [] + [Produce(t)] + steps;
      assert s.producers[t := Loaded(v, s.pool)][t := Have(v, n)] == s.producers[t := Have(v, n)];
    }
  }

  // From wherever a producer is in acquire_node.
  lemma AcquireEnds(s: State, t: Thread, spare: Node) returns (steps: seq<Step>, e: State, n: Node)
    requires Inv(s) && t in s.producers && ProducerEnabled(s, t) && (s.producers[t].Asked? || Acquiring(s.producers[t]))
    requires spare !in s.next && spare !in s.data
    ensures Runs(s, steps, e) && Own(steps, t) && Inv(e) && |steps| <= 4
    ensures Aside(s, e, t, Have(s.producers[t].v, n)) && Allocated(e, n)
  {
    hide Inv, Runs;
    match s.producers[t]
    case Asked(v) => steps, e, n := AcquireAlone(s, t, v, spare);
    case Loaded(v, top) =>
      NoSteps(s);
      var s1 := Apply(s, Produce(t));
      OneMore(s, [], s, Produce(t));
      StepKeepsInv(s, Produce(t));
      steps, e, n := SwapAlone(s1, t, spare);
      RunsOn(s, [] + [Produce(t)], s1, steps, e);
      steps := [] + [Produce(t)] + steps;
      assert s.producers[t := s1.producers[t]][t := Have(v, n)] == s.producers[t := Have(v, n)];
    case Chosen(_, _, _) => steps, e, n := SwapAlone(s, t, spare);
  }

  lemma StaysUnattended(s: State, t: Thread, v: int)
    requires Unattended(s) && Enabled(s, Push(t, v))
    ensures Unattended(Apply(s, Push(t, v)))
  {
  }

  lemma NoSteps(s: State)
    ensures Runs(s, [], s)
  {
  }

  lemma PoolIsTop(s: State)
    requires Inv(s)
    ensures s.pool == Top(s.free) && forall n :: n in s.free ==> Allocated(s, n)
    ensures s.tail in s.next && s.tail in s.data
  {
  }

  // The value and the null link are written.
  lemma FillAlone(s: State, t: Thread) returns (steps: seq<Step>, e: State)
    requires Inv(s) && t in s.producers && s.producers[t].Have? && Allocated(s, s.producers[t].node)
    ensures Runs(s, steps, e) && Own(steps, t) && Inv(e) && |steps| == 2
    ensures var (v, n) := (s.producers[t].v, s.producers[t].node);
            e == s.(data := s.data[n := v], next := s.next[n := Null], producers := s.producers[t := Ready(v, n)])
  {
    hide Inv, Runs;
    NoSteps(s);
    var s1 := Apply(s, Produce(t));
    OneMore(s, [], s, Produce(t));
    StepKeepsInv(s, Produce(t));
    e := Apply(s1, Produce(t));
    OneMore(s, [] + [Produce(t)], s1, Produce(t));
    StepKeepsInv(s1, Produce(t));
    steps := [] + [Produce(t)] + [Produce(t)];
    var (v, n) := (s.producers[t].v, s.producers[t].node);
    assert s.producers[t := Filled(v, n)][t := Ready(v, n)] == s.producers[t := Ready(v, n)];
  }

  // The tail is exchanged and the link to the node stored.
  lemma LinkAlone(s: State, t: Thread) returns (steps: seq<Step>, e: State)
    requires Inv(s) && t in s.producers && s.producers[t].Ready? && Allocated(s, s.producers[t].node)
    requires Allocated(s, s.tail) && s.tail !in s.owed
    ensures Runs(s, steps, e) && Own(steps, t) && |steps| == 2
    ensures var (v, n) := (s.producers[t].v, s.producers[t].node);
            e == s.(tail := n, chain := s.chain + [n], pushed := s.pushed + [v], next := s.next[s.tail := To(n)],
                    producers := s.producers[t := Idle])
  {
    hide Inv, Runs;
    NoSteps(s);
    var s1 := Apply(s, Produce(t));
    OneMore(s, [], s, Produce(t));
    e := Apply(s1, Produce(t));
    OneMore(s, [] + [Produce(t)], s1, Produce(t));
    steps := [] + [Produce(t)] + [Produce(t)];
    assert s.producers[t := Linking(s.producers[t].node, s.tail)][t := Idle] == s.producers[t := Idle];
    assert s.owed[s.tail := t] - {s.tail} == s.owed;
  }

  lemma {:induction false} RunsOn(s: State, steps: seq<Step>, mid: State, more: seq<Step>, end: State)
    requires Runs(s, steps, mid) && Runs(mid, more, end)
    ensures Runs(s, steps + more, end)
    decreases steps
  {
    hide Enabled, Apply;
    if steps == [] {
      assert steps + more == more;
    } else {
      assert (steps + more)[1..] == steps[1..] + more;
      RunsOn(Apply(s, steps[0]), steps[1..], mid, more, end);
    }
  }

  // Nobody owes the link out of the tail.
  lemma TailIsFree(s: State)
    requires Inv(s)
    ensures s.tail !in s.owed && (s.free != [] ==> s.free[0] != s.tail)
  {
  }

  // A producer that runs alone, while nobody else is in acquire_node, comes to the end of its push: its value
  // is the last one pushed, in a node from the free list if there was one, and that is all that has changed.
  lemma PushAlone(start: State, before: seq<Step>, s: State, t: Thread, v: int, spare: Node)
    returns (steps: seq<Step>, e: State, n: Node)
    requires Init(start) && Runs(start, before, s)
    requires t in s.producers && s.producers[t] == Idle && Unattended(s) && spare !in s.next && spare !in s.data
    ensures Runs(s, steps, e) && Own(steps, t) && |steps| <= 8
    ensures e.pushed == s.pushed + [v] && e.popped == s.popped && e.producers == s.producers && e.consumer == s.consumer
    ensures e.free == Drop(s.free) && e.owed == s.owed && e.head == s.head
    ensures n == (if s.free == [] then spare else s.free[0]) && e.chain == s.chain + [n] && e.tail == n
    ensures n in e.data && e.data[n] == v
    ensures s.tail in e.next && e.next[s.tail] == To(n)
  {
    hide Inv, Runs;
    InitInv(start);
    RunKeepsInv(start, before, s);
    NoSteps(s);
    var s1 := Apply(s, Push(t, v));
    OneMore(s, [], s, Push(t, v));
    StepKeepsInv(s, Push(t, v));
    assert Unattended(s1) by { StaysUnattended(s, t, v); }
    var more, s2, last;
    more, s2, n := AcquireAlone(s1, t, v, spare);
    RunsOn(s, [] + [Push(t, v)], s1, more, s2);
    last, e := FinishAlone(s2, t);
    RunsOn(s, [] + [Push(t, v)] + more, s2, last, e);
    steps := [] + [Push(t, v)] + more + last;
    TailIsFree(s);
    assert s.producers[t := Asked(v)][t := Have(v, n)][t := Idle] == s.producers;
  }

  // With a node in its hands.
  lemma FinishAlone(s: State, t: Thread) returns (steps: seq<Step>, e: State)
    requires Inv(s) && t in s.producers && s.producers[t].Have? && Allocated(s, s.producers[t].node)
    ensures Runs(s, steps, e) && Own(steps, t) && |steps| == 4
    ensures var (v, n) := (s.producers[t].v, s.producers[t].node);
            e == s.(tail := n, chain := s.chain + [n], pushed := s.pushed + [v], data := s.data[n := v],
                    next := s.next[n := Null][s.tail := To(n)], producers := s.producers[t := Idle])
  {
    hide Inv, Runs;
    var more, s1 := FillAlone(s, t);
    TailIsFree(s1);
    PoolIsTop(s1);
    var last;
    last, e := LinkAlone(s1, t);
    RunsOn(s, more, s1, last, e);
    steps := more + last;
    var p := s1.producers[t];
    assert s.producers[t := p][t := Idle] == s.producers[t := Idle];
  }

  // Wherever a producer has got to in its push, if it does not have to wait for acquire_node and then runs
  // alone, it is done after at most eight steps, and has pushed what it carried.
  lemma PushEnds(start: State, before: seq<Step>, s: State, t: Thread, spare: Node)
    returns (steps: seq<Step>, e: State)
    requires Init(start) && Runs(start, before, s)
    requires t in s.producers && s.producers[t] != Idle && (s.producers[t].Asked? ==> Unattended(s))
    requires spare !in s.next && spare !in s.data
    ensures Runs(s, steps, e) && Own(steps, t) && |steps| <= 8
    ensures e.pushed == s.pushed + Carried(s, t) && e.producers == s.producers[t := Idle]
    ensures e.popped == s.popped && e.consumer == s.consumer
  {
    hide Inv, Runs;
    InitInv(start);
    RunKeepsInv(start, before, s);
    NobodyIsStuck(start, before, s, t);
    NoSteps(s);
    if s.producers[t].Loaded? && s.producers[t].top == Null {
      var s1 := Apply(s, New(t, spare));
      OneMore(s, [], s, New(t, spare));
      StepKeepsInv(s, New(t, spare));
      steps, e := FinishAlone(s1, t);
      RunsOn(s, [] + [New(t, spare)], s1, steps, e);
      steps := [] + [New(t, spare)] + steps;
    } else if s.producers[t].Asked? || Acquiring(s.producers[t]) {
      var more, s1, n := AcquireEnds(s, t, spare);
      steps, e := FinishAlone(s1, t);
      RunsOn(s, more, s1, steps, e);
      steps := more + steps;
    } else if s.producers[t].Have? {
      steps, e := FinishAlone(s, t);
    } else if s.producers[t].Filled? {
      var s1 := Apply(s, Produce(t));
      OneMore(s, [], s, Produce(t));
      StepKeepsInv(s, Produce(t));
      TailIsFree(s1);
      PoolIsTop(s1);
      steps, e := LinkAlone(s1, t);
      RunsOn(s, [] + [Produce(t)], s1, steps, e);
      steps := [] + [Produce(t)] + steps;
    } else if s.producers[t].Ready? {
      TailIsFree(s);
      PoolIsTop(s);
      steps, e := LinkAlone(s, t);
    } else {
      e := Apply(s, Produce(t));
      OneMore(s, [], s, Produce(t));
      steps := [] + [Produce(t)];
      assert s.pushed + [] == s.pushed;
    }
  }

  // Nobody but the consumer.
  predicate OnlyPops(steps: seq<Step>) { forall i :: 0 <= i < |steps| ==> steps[i].Consume? }

  // A pop that fails has changed nothing.
  lemma PopFailsAlone(start: State, before: seq<Step>, s: State) returns (steps: seq<Step>)
    requires Init(start) && Runs(start, before, s)
    requires s.consumer == Waiting && s.head in s.next && s.next[s.head] == Null
    ensures Runs(s, steps, s) && OnlyPops(steps) && |steps| == 2
  {
    hide Inv, Runs;
    InitInv(start);
    RunKeepsInv(start, before, s);
    NoSteps(s);
    HeadIsThere(s);
    var s1 := Apply(s, Consume);
    OneMore(s, [], s, Consume);
    OneMore(s, [] + [Consume], s1, Consume);
    steps := [] + [Consume] + [Consume];
  }

  lemma HeadIsThere(s: State)
    requires Inv(s)
    ensures Allocated(s, s.head) && |s.chain| > 0 && s.chain[0] == s.head
    ensures s.consumer == Waiting && s.next[s.head] != Null ==>
              && |s.chain| > 1 && s.next[s.head] == To(s.chain[1]) && Allocated(s, s.chain[1])
              && |s.pushed| > |s.popped| && s.data[s.chain[1]] == s.pushed[|s.popped|]
  {
    hide Linked;
    if s.next[s.head] != Null { HeadLink(s); }
  }

  // From the dummy to the value: the head has moved on and the value has been read.
  lemma TakeAlone(s: State) returns (steps: seq<Step>, e: State)
    requires Inv(s) && s.consumer == Waiting && s.head in s.next && s.next[s.head] != Null
    ensures Runs(s, steps, e) && OnlyPops(steps) && Inv(e)
    ensures |steps| == 5 && |s.chain| > 1 && |s.pushed| > |s.popped|
    ensures e == s.(head := s.chain[1], chain := s.chain[1..], popped := s.popped + [s.pushed[|s.popped|]],
                    consumer := Giving(s.head))
  {
    hide Inv, Runs;
    NoSteps(s);
    HeadIsThere(s);
    var s1 := Apply(s, Consume);
    OneMore(s, [], s, Consume);
    StepKeepsInv(s, Consume);
    var s2 := Apply(s1, Consume);
    OneMore(s, [] + [Consume], s1, Consume);
    StepKeepsInv(s1, Consume);
    var s3 := Apply(s2, Consume);
    OneMore(s, [] + [Consume] + [Consume], s2, Consume);
    StepKeepsInv(s2, Consume);
    var s4 := Apply(s3, Consume);
    OneMore(s, [] + [Consume] + [Consume] + [Consume], s3, Consume);
    StepKeepsInv(s3, Consume);
    e := Apply(s4, Consume);
    OneMore(s, [] + [Consume] + [Consume] + [Consume] + [Consume], s4, Consume);
    StepKeepsInv(s4, Consume);
    steps := [] + [Consume] + [Consume] + [Consume] + [Consume] + [Consume];
  }

  // The old dummy is put on top of the free list, from wherever the consumer has got to in release_node.
  lemma GiveAlone(s: State, n: Node) returns (steps: seq<Step>, e: State)
    requires Inv(s) && Allocated(s, n)
    requires s.consumer == Giving(n)
          || ((s.consumer.Storing? || s.consumer.Offering?) && s.consumer.node == n)
    ensures Runs(s, steps, e) && OnlyPops(steps) && |steps| <= 5
    ensures e.pool == To(n) && e.free == [n] + s.free && e.consumer == Waiting && e.next == s.next[n := s.pool]
    ensures e == s.(next := e.next, pool := e.pool, free := e.free, consumer := Waiting)
  {
    hide Inv, Runs;
    NoSteps(s);
    match s.consumer
    case Giving(_) =>
      var s1 := Apply(s, Consume);
      OneMore(s, [], s, Consume);
      var more;
      more, e := StoreAlone(s1, n);
      RunsOn(s, [] + [Consume], s1, more, e);
      steps := [] + [Consume] + more;
    case Storing(_, top) =>
      if top == s.pool {
        steps, e := StoreAlone(s, n);
      } else {
        var s1 := Apply(s, Consume);
        OneMore(s, [], s, Consume);
        var s2 := Apply(s1, Consume);
        OneMore(s, [] + [Consume], s1, Consume);
        var more;
        more, e := StoreAlone(s2, n);
        RunsOn(s, [] + [Consume] + [Consume], s2, more, e);
        steps := [] + [Consume] + [Consume] + more;
        assert s.next[n := top][n := s.pool] == s.next[n := s.pool];
      }
    case Offering(_, top) =>
      OfferedLink(s);
      var s1 := Apply(s, Consume);
      OneMore(s, [], s, Consume);
      if top == s.pool {
        steps, e := [] + [Consume], s1;
        assert s.next[n := s.pool] == s.next;
      } else {
        var more;
        more, e := StoreAlone(s1, n);
        RunsOn(s, [] + [Consume], s1, more, e);
        steps := [] + [Consume] + more;
      }
  }

  lemma OfferedLink(s: State)
    requires Inv(s) && s.consumer.Offering?
    ensures s.consumer.node in s.next && s.next[s.consumer.node] == s.consumer.top
  {
  }

  lemma StoreAlone(s: State, n: Node) returns (steps: seq<Step>, e: State)
    requires s.consumer == Storing(n, s.pool) && Allocated(s, n)
    ensures Runs(s, steps, e) && OnlyPops(steps) && |steps| == 2
    ensures e == s.(next := s.next[n := s.pool], pool := To(n), free := [n] + s.free, consumer := Waiting)
  {
    hide Runs;
    NoSteps(s);
    var s1 := Apply(s, Consume);
    OneMore(s, [], s, Consume);
    e := Apply(s1, Consume);
    OneMore(s, [] + [Consume], s1, Consume);
    steps := [] + [Consume] + [Consume];
  }

  // A consumer that runs alone and finds a link pops the first value that has been pushed and not popped, and
  // gives the old dummy to the free list; that is all that has changed.
  lemma PopAlone(start: State, before: seq<Step>, s: State) returns (steps: seq<Step>, e: State)
    requires Init(start) && Runs(start, before, s)
    requires s.consumer == Waiting && s.head in s.next && s.next[s.head] != Null
    ensures Runs(s, steps, e) && OnlyPops(steps) && |steps| <= 10
    ensures |s.popped| < |s.pushed| && e.popped == s.popped + [s.pushed[|s.popped|]] && e.pushed == s.pushed
    ensures e.consumer == Waiting && e.producers == s.producers && e.tail == s.tail && e.owed == s.owed
    ensures |s.chain| > 1 && e.chain == s.chain[1..] && e.head == s.chain[1]
    ensures e.free == [s.head] + s.free && e.pool == To(s.head) && e.data == s.data
    ensures e.next == s.next[s.head := s.pool]
  {
    hide Inv, Runs;
    InitInv(start);
    RunKeepsInv(start, before, s);
    HeadIsThere(s);
    var s1, more;
    steps, s1 := TakeAlone(s);
    more, e := GiveAlone(s1, s.head);
    RunsOn(s, steps, s1, more, e);
    steps := steps + more;
  }
}
