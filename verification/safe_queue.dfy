/**
 The lock-free queue of `safe_queue.h`, one shared access at a time.  Any number of producers push
 and one consumer pops.  Nodes come from a free list that only one thread at a time takes from,
 in `acquire_node`, while the consumer may be giving nodes back to it, in `release_node`.

 A state holds the shared memory, the point each thread has reached in its method, and five parts
 no step ever looks at: the nodes from head to tail, the nodes of the free list, the thread that
 still owes the link out of a node, the values in the order of the exchanges on the tail, and the
 values popped.
 */
module SafeQueue {
  type Node = nat
  type Thread = nat

  datatype Ptr = Null | To(node: Node)

  datatype Producer =
    | Idle
    | Asked(v: int)                           // in front of node_pool.load
    | Loaded(v: int, top: Ptr)                // in front of the test of the loop
    | Chosen(v: int, node: Node, below: Ptr)  // in front of the compare-and-swap
    | Have(v: int, node: Node)                // acquire_node is over
    | Filled(v: int, node: Node)
    | Ready(v: int, node: Node)               // in front of tail.exchange
    | Linking(node: Node, prev: Node)         // still owes prev->next = node

  datatype Consumer =
    | Waiting
    | AtHead(prev: Node)
    | Seen(prev: Node)                        // prev->next was not null
    | Got(prev: Node, next: Node)             // in front of the compare-and-swap on head
    | Took(prev: Node, next: Node)            // in front of reading the value
    | Giving(node: Node)                      // in front of the load in release_node
    | Storing(node: Node, top: Ptr)           // in front of node->next = old_pool
    | Offering(node: Node, top: Ptr)          // in front of the compare-and-swap on the pool

  datatype State = State(
    next: map<Node, Ptr>, data: map<Node, int>, head: Node, tail: Node, pool: Ptr,
    producers: map<Thread, Producer>, consumer: Consumer,
    chain: seq<Node>, free: seq<Node>, owed: map<Node, Thread>, pushed: seq<int>, popped: seq<int>)

  datatype Step =
    | Push(t: Thread, v: int)
    | Produce(t: Thread)
    | New(t: Thread, node: Node)
    | Consume

  predicate Acquiring(p: Producer) { p.Loaded? || p.Chosen? }

  predicate Allocated(s: State, n: Node) { n in s.next && n in s.data }

  // No thread is inside acquire_node.
  predicate Unattended(s: State) {
    forall t :: t in s.producers ==> !Acquiring(s.producers[t])
  }

  predicate ProducerEnabled(s: State, t: Thread) {
    && t in s.producers
    && match s.producers[t]
       case Idle => false
       case Asked(_) => Unattended(s)
       case Loaded(_, top) => top != Null && Allocated(s, top.node)
       case Chosen(_, n, _) => Allocated(s, n)
       case Have(_, n) => Allocated(s, n)
       case Filled(_, n) => Allocated(s, n)
       case Ready(_, n) => Allocated(s, n)
       case Linking(_, prev) => Allocated(s, prev)
  }

  predicate ConsumerEnabled(s: State) {
    match s.consumer
    case AtHead(prev) => Allocated(s, prev)
    case Seen(prev) => Allocated(s, prev) && s.next[prev] != Null
    case Took(_, next) => Allocated(s, next)
    case Storing(n, _) => Allocated(s, n)
    case _ => true
  }

  // Which steps can be taken.  Entering acquire_node waits until no other thread is in it; memory
  // that is allocated anew is not in use.
  predicate Enabled(s: State, step: Step) {
    match step
    case Push(t, _) => t in s.producers && s.producers[t] == Idle
    case Produce(t) => ProducerEnabled(s, t)
    case New(t, n) =>
      && t in s.producers && s.producers[t].Loaded? && s.producers[t].top == Null
      && n !in s.next && n !in s.data
    case Consume => ConsumerEnabled(s)
  }

  function Goto(s: State, t: Thread, p: Producer): State {
    s.(producers := s.producers[t := p])
  }

  function Drop<T>(q: seq<T>): seq<T> { if q == [] then [] else q[1..] }

  function Apply(s: State, step: Step): State
    requires Enabled(s, step)
  {
    match step
    case Push(t, v) => Goto(s, t, Asked(v))
    case New(t, n) =>
      Goto(s.(next := s.next[n := Null], data := s.data[n := 0]), t, Have(s.producers[t].v, n))
    case Produce(t) => ApplyProduce(s, t)
    case Consume => ApplyConsume(s)
  }

  function ApplyProduce(s: State, t: Thread): State
    requires ProducerEnabled(s, t)
  {
    match s.producers[t]
    case Idle => s
    case Asked(v) => Goto(s, t, Loaded(v, s.pool))
    case Loaded(v, top) => Goto(s, t, Chosen(v, top.node, s.next[top.node]))
    case Chosen(v, n, below) =>
      if s.pool == To(n) then Goto(s.(pool := below, free := Drop(s.free)), t, Have(v, n))
      else Goto(s, t, Loaded(v, s.pool))
    case Have(v, n) => Goto(s.(data := s.data[n := v]), t, Filled(v, n))
    case Filled(v, n) => Goto(s.(next := s.next[n := Null]), t, Ready(v, n))
    case Ready(v, n) =>
      Goto(s.(tail := n, chain := s.chain + [n], owed := s.owed[s.tail := t], pushed := s.pushed + [v]),
           t, Linking(n, s.tail))
    case Linking(n, prev) => Goto(s.(next := s.next[prev := To(n)], owed := s.owed - {prev}), t, Idle)
  }

  function ApplyConsume(s: State): State
    requires ConsumerEnabled(s)
  {
    match s.consumer
    case Waiting => s.(consumer := AtHead(s.head))
    case AtHead(prev) => s.(consumer := if s.next[prev] == Null then Waiting else Seen(prev))
    case Seen(prev) => s.(consumer := Got(prev, s.next[prev].node))
    case Got(prev, next) =>
      if s.head == prev then s.(head := next, chain := Drop(s.chain), consumer := Took(prev, next))
      else s.(consumer := AtHead(s.head))
    case Took(prev, next) => s.(popped := s.popped + [s.data[next]], consumer := Giving(prev))
    case Giving(n) => s.(consumer := Storing(n, s.pool))
    case Storing(n, top) => s.(next := s.next[n := top], consumer := Offering(n, top))
    case Offering(n, top) =>
      if s.pool == top then s.(pool := To(n), free := [n] + s.free, consumer := Waiting)
      else s.(consumer := Storing(n, s.pool))
  }

  // `pop` returns false.
  predicate PopFails(s: State) {
    s.consumer.AtHead? && Allocated(s, s.consumer.prev) && s.next[s.consumer.prev] == Null
  }

  ghost predicate NoDup(q: seq<Node>) { forall i, j :: 0 <= i < j < |q| ==> q[i] != q[j] }

  function Top(q: seq<Node>): Ptr { if q == [] then Null else To(q[0]) }

  // The links of q, except those still owed; the last node has none.
  ghost predicate Linked(q: seq<Node>, next: map<Node, Ptr>, owed: map<Node, Thread>) {
    && (forall n :: n in q ==> n in next)
    && (forall i, j :: 0 <= i < j < |q| && j == i + 1 && q[i] !in owed ==> next[q[i]] == To(q[j]))
    && (q != [] ==> next[q[|q| - 1]] == Null)
  }

  // A queue as its constructor leaves it: a dummy node and a linked pool of free ones.
  ghost predicate Init(s: State) {
    && s.chain == [s.head] && s.head == s.tail && s.consumer == Waiting
    && s.pushed == [] && s.popped == [] && s.owed == map[]
    && (forall t :: t in s.producers ==> s.producers[t] == Idle)
    && NoDup(s.free) && s.head !in s.free
    && Allocated(s, s.head) && s.next[s.head] == Null
    && (forall n :: n in s.free ==> Allocated(s, n))
    && (forall n :: n in s.next ==> n == s.head || n in s.free)
    && Linked(s.free, s.next, map[]) && s.pool == Top(s.free)
  }

  // The node a producer has to itself, if any, and the one the consumer has.
  function Hand(p: Producer): Ptr {
    if p.Have? || p.Filled? || p.Ready? then To(p.node) else Null
  }

  function Kept(c: Consumer): Ptr {
    match c
    case Took(prev, _) => To(prev)
    case Giving(n) => To(n)
    case Storing(n, _) => To(n)
    case Offering(n, _) => To(n)
    case _ => Null
  }

  // Every node is in at most one place: the chain, the free list, or one thread's hands.
  ghost predicate Separate(s: State) {
    && NoDup(s.chain) && NoDup(s.free)
    && (forall n :: n in s.chain ==> Allocated(s, n) && n !in s.free)
    && (forall n :: n in s.free ==> Allocated(s, n))
    && (Kept(s.consumer) != Null ==> Outside(s, Kept(s.consumer).node))
    && (forall t :: t in s.producers && Hand(s.producers[t]) != Null ==>
          Outside(s, Hand(s.producers[t]).node) && Hand(s.producers[t]) != Kept(s.consumer))
    && (forall t, u :: t in s.producers && u in s.producers && t != u && Hand(s.producers[t]) != Null ==>
          Hand(s.producers[t]) != Hand(s.producers[u]))
  }

  predicate Outside(s: State, n: Node) { Allocated(s, n) && n !in s.chain && n !in s.free }

  // The free list is what the pool pointer and the links say, and the one thread in acquire_node
  // has read both right, however stale the top it has read may be.
  ghost predicate FreeList(s: State) {
    && s.pool == Top(s.free) && Linked(s.free, s.next, map[])
    && (forall t, u ::
          t in s.producers && u in s.producers && Acquiring(s.producers[t]) && Acquiring(s.producers[u])
          ==> t == u)
    && (forall t :: t in s.producers && s.producers[t].Loaded? && s.producers[t].top != Null ==>
          s.producers[t].top.node in s.free)
    && (forall t :: t in s.producers && s.producers[t].Chosen? ==>
          s.producers[t].node in s.free && s.next[s.producers[t].node] == s.producers[t].below)
    && (s.consumer.Offering? ==> s.consumer.node in s.next && s.next[s.consumer.node] == s.consumer.top)
  }

  // The chain runs from head to tail.  Each of its links is stored, or it is null and one producer
  // is about to store it.
  ghost predicate Chained(s: State) {
    && s.chain != [] && s.chain[0] == s.head && s.chain[|s.chain| - 1] == s.tail
    && Linked(s.chain, s.next, s.owed)
    && s.tail !in s.owed
    && (forall i, j :: 0 <= i < j < |s.chain| && j == i + 1 && s.chain[i] in s.owed ==>
          OwedBy(s, s.owed[s.chain[i]], s.chain[j], s.chain[i]))
    && (forall n :: n in s.owed ==> n in s.chain)
    && (forall t :: t in s.producers && s.producers[t].Linking? ==>
          s.producers[t].prev in s.owed && s.owed[s.producers[t].prev] == t)
    && (forall t :: t in s.producers && s.producers[t].Ready? ==>
          s.producers[t].node in s.next && s.next[s.producers[t].node] == Null)
  }

  ghost predicate OwedBy(s: State, t: Thread, node: Node, prev: Node) {
    t in s.producers && s.producers[t] == Linking(node, prev) && prev in s.next && s.next[prev] == Null
  }

  ghost predicate ConsumerKnows(s: State) {
    match s.consumer
    case AtHead(prev) => prev == s.head
    case Seen(prev) => prev == s.head && prev in s.next && s.next[prev] != Null
    case Got(prev, next) => prev == s.head && prev in s.next && s.next[prev] == To(next)
    case Took(_, next) => next == s.head
    case _ => true
  }

  // The dummy is what is not counted among the values still in the chain; once the head has moved,
  // its value has been taken but not read.
  function Dummies(c: Consumer): nat { if c.Took? then 0 else 1 }

  // What has been popped, then what is in the chain, is what has been pushed, in that order.
  ghost predicate InOrder(s: State) {
    var skip := Dummies(s.consumer);
    && s.popped <= s.pushed
    && |s.pushed| == |s.popped| + |s.chain| - skip
    && (forall i :: skip <= i < |s.chain| ==>
          s.chain[i] in s.data && s.data[s.chain[i]] == s.pushed[|s.popped| + i - skip])
    && (forall t :: t in s.producers && (s.producers[t].Filled? || s.producers[t].Ready?) ==>
          s.producers[t].node in s.data && s.data[s.producers[t].node] == s.producers[t].v)
  }

  ghost predicate Inv(s: State) {
    Separate(s) && FreeList(s) && Chained(s) && ConsumerKnows(s) && InOrder(s)
  }

  lemma DropFacts(q: seq<Node>)
    requires NoDup(q) && q != []
    ensures NoDup(q[1..]) && q[0] !in q[1..]
    ensures forall x :: x in q <==> x == q[0] || x in q[1..]
  {
    assert q == [q[0]] + q[1..];
  }

  lemma AppendFacts(q: seq<Node>, x: Node)
    requires NoDup(q) && x !in q
    ensures NoDup(q + [x]) && NoDup([x] + q)
    ensures forall y :: y in q + [x] <==> y in q || y == x
  {
  }

  lemma SeparateProduce(s: State, t: Thread)
    requires Separate(s) && FreeList(s) && ProducerEnabled(s, t)
    ensures Separate(ApplyProduce(s, t))
  {
    hide Separate, FreeList, ApplyProduce;
    match s.producers[t]
    case Asked(_) => SeparateReads(s, t);
    case Loaded(_, _) => SeparateReads(s, t);
    case Chosen(_, _, _) => SeparateChosen(s, t);
    case Have(_, _) => SeparateWrites(s, t);
    case Filled(_, _) => SeparateWrites(s, t);
    case Ready(_, _) => SeparateReady(s, t);
    case Linking(_, _) => SeparateWrites(s, t);
  }

  lemma SeparateReads(s: State, t: Thread)
    requires Separate(s) && ProducerEnabled(s, t) && (s.producers[t].Asked? || s.producers[t].Loaded?)
    ensures Separate(ApplyProduce(s, t))
  {
    hide NoDup;
  }

  lemma SeparateWrites(s: State, t: Thread)
    requires Separate(s) && ProducerEnabled(s, t)
    requires s.producers[t].Have? || s.producers[t].Filled? || s.producers[t].Linking?
    ensures Separate(ApplyProduce(s, t))
  {
    hide NoDup;
  }

  lemma SeparateChosen(s: State, t: Thread)
    requires Separate(s) && FreeList(s) && ProducerEnabled(s, t) && s.producers[t].Chosen?
    ensures Separate(ApplyProduce(s, t))
  {
    hide NoDup, Linked;
    if s.pool == To(s.producers[t].node) {
      DropFacts(s.free);
    }
  }

  lemma SeparateReady(s: State, t: Thread)
    requires Separate(s) && ProducerEnabled(s, t) && s.producers[t].Ready?
    ensures Separate(ApplyProduce(s, t))
  {
    hide NoDup;
    AppendFacts(s.chain, s.producers[t].node);
  }

  lemma SeparateConsume(s: State)
    requires Separate(s) && Chained(s) && ConsumerKnows(s) && ConsumerEnabled(s)
    ensures Separate(ApplyConsume(s))
  {
    hide Separate, Chained, ApplyConsume;
    match s.consumer
    case Got(_, _) => SeparateGot(s);
    case Offering(_, _) => SeparateOffering(s);
    case _ => SeparateElse(s);
  }

  lemma SeparateGot(s: State)
    requires Separate(s) && Chained(s) && ConsumerKnows(s) && s.consumer.Got?
    ensures Separate(ApplyConsume(s))
  {
    hide NoDup, Linked;
    DropFacts(s.chain);
  }

  lemma SeparateOffering(s: State)
    requires Separate(s) && s.consumer.Offering?
    ensures Separate(ApplyConsume(s))
  {
    hide NoDup;
    AppendFacts(s.free, s.consumer.node);
  }

  lemma SeparateElse(s: State)
    requires Separate(s) && ConsumerEnabled(s) && !s.consumer.Got? && !s.consumer.Offering?
    ensures Separate(ApplyConsume(s))
  {
    hide NoDup;
  }

  lemma LinkedFrame(q: seq<Node>, next: map<Node, Ptr>, owed: map<Node, Thread>, n: Node, p: Ptr)
    requires Linked(q, next, owed) && n !in q
    ensures Linked(q, next[n := p], owed)
  {
  }

  lemma LinkedDrop(q: seq<Node>, next: map<Node, Ptr>, owed: map<Node, Thread>)
    requires Linked(q, next, owed) && NoDup(q) && |q| > 1
    ensures Linked(q[1..], next, owed) && q[1..][|q| - 2] == q[|q| - 1]
    ensures q[0] !in owed ==> next[q[0]] == To(q[1])
  {
  }

  lemma LinkedAppend(q: seq<Node>, n: Node, next: map<Node, Ptr>, owed: map<Node, Thread>, t: Thread)
    requires Linked(q, next, owed) && NoDup(q) && q != [] && n !in q && n in next && next[n] == Null
    ensures Linked(q + [n], next, owed[q[|q| - 1] := t])
  {
  }

  lemma LinkedPrepend(q: seq<Node>, n: Node, next: map<Node, Ptr>)
    requires Linked(q, next, map[]) && n in next && next[n] == Top(q)
    ensures Linked([n] + q, next, map[])
  {
    assert q != [] ==> ([n] + q)[|q|] == q[|q| - 1];
  }

  // Storing the link that is owed out of q[i].
  lemma LinkedPay(q: seq<Node>, i: nat, next: map<Node, Ptr>, owed: map<Node, Thread>)
    requires Linked(q, next, owed) && NoDup(q) && i + 1 < |q|
    ensures Linked(q, next[q[i] := To(q[i + 1])], owed - {q[i]})
  {
  }

  lemma FreeListProduce(s: State, t: Thread)
    requires Separate(s) && FreeList(s) && Chained(s) && ProducerEnabled(s, t)
    ensures FreeList(ApplyProduce(s, t))
  {
    hide Separate, FreeList, Chained, ApplyProduce;
    match s.producers[t]
    case Asked(_) => FreeListReads(s, t);
    case Loaded(_, _) => FreeListReads(s, t);
    case Chosen(_, _, _) => FreeListChosen(s, t);
    case Have(_, _) => FreeListReads(s, t);
    case Filled(_, _) => FreeListWrites(s, t);
    case Ready(_, _) => FreeListReads(s, t);
    case Linking(_, _) => FreeListWrites(s, t);
  }

  // The steps that leave the links alone.
  lemma FreeListReads(s: State, t: Thread)
    requires FreeList(s) && ProducerEnabled(s, t)
    requires !s.producers[t].Chosen? && !s.producers[t].Filled? && !s.producers[t].Linking?
    ensures FreeList(ApplyProduce(s, t))
  {
    hide Linked;
  }

  lemma FreeListChosen(s: State, t: Thread)
    requires Separate(s) && FreeList(s) && ProducerEnabled(s, t) && s.producers[t].Chosen?
    ensures FreeList(ApplyProduce(s, t))
  {
    hide Linked, NoDup;
    if s.pool == To(s.producers[t].node) {
      PoolTop(s);
      DropFacts(s.free);
    }
  }

  lemma FreeListWrites(s: State, t: Thread)
    requires Separate(s) && FreeList(s) && Chained(s) && ProducerEnabled(s, t)
    requires s.producers[t].Filled? || s.producers[t].Linking?
    ensures FreeList(ApplyProduce(s, t))
  {
    hide Linked, NoDup;
    match s.producers[t]
    case Filled(_, n) => LinkedFrame(s.free, s.next, map[], n, Null);
    case Linking(n, prev) => LinkedFrame(s.free, s.next, map[], prev, To(n));
  }

  // What lies below the top of the free list is what the top's link says.
  lemma PoolTop(s: State)
    requires FreeList(s) && NoDup(s.free) && s.pool != Null
    ensures s.free != [] && s.free[0] in s.next && s.next[s.free[0]] == Top(s.free[1..])
    ensures Linked(s.free[1..], s.next, map[])
  {
    if |s.free| > 1 {
      LinkedDrop(s.free, s.next, map[]);
    }
  }

  lemma FreeListConsume(s: State)
    requires Separate(s) && FreeList(s) && ConsumerEnabled(s)
    ensures FreeList(ApplyConsume(s))
  {
    hide Separate, FreeList, ApplyConsume;
    match s.consumer
    case Storing(_, _) => FreeListStoring(s);
    case Offering(_, _) => FreeListOffering(s);
    case _ => FreeListElse(s);
  }

  lemma FreeListStoring(s: State)
    requires Separate(s) && FreeList(s) && ConsumerEnabled(s) && s.consumer.Storing?
    ensures FreeList(ApplyConsume(s))
  {
    hide Linked, NoDup;
    LinkedFrame(s.free, s.next, map[], s.consumer.node, s.consumer.top);
  }

  lemma FreeListElse(s: State)
    requires FreeList(s) && ConsumerEnabled(s) && !s.consumer.Storing? && !s.consumer.Offering?
    ensures FreeList(ApplyConsume(s))
  {
    hide Linked;
  }

  lemma FreeListOffering(s: State)
    requires FreeList(s) && s.consumer.Offering?
    ensures FreeList(ApplyConsume(s))
  {
    hide Linked;
    var n, top := s.consumer.node, s.consumer.top;
    if s.pool == top {
      LinkedPrepend(s.free, n, s.next);
    }
  }

  // Where in the chain the link a producer owes is missing.
  lemma OwedAt(s: State, t: Thread) returns (i: nat)
    requires Chained(s) && t in s.producers && s.producers[t].Linking?
    ensures i + 1 < |s.chain| && s.chain[i] in s.owed && s.owed[s.chain[i]] == t
    ensures s.producers[t] == Linking(s.chain[i + 1], s.chain[i]) && s.next[s.chain[i]] == Null
  {
    hide Linked;
    var prev := s.producers[t].prev;
    i :| 0 <= i < |s.chain| && s.chain[i] == prev;
    assert i != |s.chain| - 1;
    var j := i + 1;
    assert OwedBy(s, s.owed[s.chain[i]], s.chain[j], s.chain[i]);
  }

  lemma ChainedProduce(s: State, t: Thread)
    requires Separate(s) && FreeList(s) && Chained(s) && ProducerEnabled(s, t)
    ensures Chained(ApplyProduce(s, t))
  {
    hide Chained, ApplyProduce;
    match s.producers[t]
    case Filled(_, _) => ChainedFilled(s, t);
    case Ready(_, _) => ChainedReady(s, t);
    case Linking(_, _) => ChainedLinking(s, t);
    case _ => ChainedElse(s, t);
  }

  lemma ChainedFilled(s: State, t: Thread)
    requires Separate(s) && Chained(s) && ProducerEnabled(s, t) && s.producers[t].Filled?
    ensures Chained(ApplyProduce(s, t))
  {
    hide Linked, NoDup;
    LinkedFrame(s.chain, s.next, s.owed, s.producers[t].node, Null);
  }

  lemma ChainedElse(s: State, t: Thread)
    requires Chained(s) && ProducerEnabled(s, t)
    requires !s.producers[t].Filled? && !s.producers[t].Ready? && !s.producers[t].Linking?
    ensures Chained(ApplyProduce(s, t))
  {
    hide Linked;
  }

  lemma ChainedReady(s: State, t: Thread)
    requires Separate(s) && Chained(s) && ProducerEnabled(s, t) && s.producers[t].Ready?
    ensures Chained(ApplyProduce(s, t))
  {
    hide Linked;
    LastLink(s);
    LinkedAppend(s.chain, s.producers[t].node, s.next, s.owed, t);
  }

  lemma ChainedLinking(s: State, t: Thread)
    requires Separate(s) && Chained(s) && ProducerEnabled(s, t) && s.producers[t].Linking?
    ensures Chained(ApplyProduce(s, t))
  {
    hide Linked;
    var i := OwedAt(s, t);
    LinkedPay(s.chain, i, s.next, s.owed);
  }

  lemma ChainedConsume(s: State)
    requires Separate(s) && Chained(s) && ConsumerKnows(s) && ConsumerEnabled(s)
    ensures Chained(ApplyConsume(s))
  {
    hide Linked;
    match s.consumer
    case Got(_, _) => ChainedGot(s);
    case Storing(n, top) => LinkedFrame(s.chain, s.next, s.owed, n, top);
    case _ =>
  }

  lemma ChainedGot(s: State)
    requires NoDup(s.chain) && Chained(s) && ConsumerKnows(s) && s.consumer.Got?
    ensures Chained(ApplyConsume(s))
  {
    hide Linked;
    HeadLink(s);
    LinkedDrop(s.chain, s.next, s.owed);
  }

  // The link out of the dummy is owed, or it leads to the second node.
  lemma DummyLink(s: State)
    requires Chained(s) && |s.chain| > 1
    ensures s.head in s.next
    ensures s.head in s.owed ==> OwedBy(s, s.owed[s.head], s.chain[1], s.head)
    ensures s.head !in s.owed ==> s.next[s.head] == To(s.chain[1])
  {
    var j := 1;
    assert s.chain[0] in s.owed ==> OwedBy(s, s.owed[s.chain[0]], s.chain[j], s.chain[0]);
    assert s.chain[0] !in s.owed ==> s.next[s.chain[0]] == To(s.chain[j]);
  }

  // A link out of the dummy that is not null leads to the second node and is owed by nobody.
  lemma HeadLink(s: State)
    requires Chained(s) && s.head in s.next && s.next[s.head] != Null
    ensures |s.chain| > 1 && s.next[s.head] == To(s.chain[1]) && s.head !in s.owed
  {
    assert |s.chain| > 1 && s.chain[0] == s.head;
    DummyLink(s);
  }

  lemma LastLink(s: State)
    requires Chained(s)
    ensures s.tail in s.next && s.next[s.tail] == Null && s.tail in s.chain
  {
  }

  lemma KnowsProduce(s: State, t: Thread)
    requires Separate(s) && FreeList(s) && Chained(s) && ConsumerKnows(s) && ProducerEnabled(s, t)
    ensures ConsumerKnows(ApplyProduce(s, t))
  {
    hide Linked;
    match s.producers[t]
    case Linking(n, prev) => var i := OwedAt(s, t);
    case _ =>
  }

  lemma KnowsConsume(s: State)
    requires Separate(s) && Chained(s) && ConsumerKnows(s) && ConsumerEnabled(s)
    ensures ConsumerKnows(ApplyConsume(s))
  {
    hide Linked;
  }

  lemma OrderProduce(s: State, t: Thread)
    requires Separate(s) && InOrder(s) && ProducerEnabled(s, t)
    ensures InOrder(ApplyProduce(s, t))
  {
    hide NoDup;
  }

  lemma OrderConsume(s: State)
    requires s.chain != [] && s.chain[0] == s.head && ConsumerKnows(s) && InOrder(s) && ConsumerEnabled(s)
    requires s.consumer.Got? ==> |s.chain| > 1
    ensures InOrder(ApplyConsume(s))
  {
    hide InOrder, ApplyConsume;
    match s.consumer
    case Got(_, _) => OrderGot(s);
    case Took(_, _) => OrderTook(s);
    case _ => OrderElse(s);
  }

  lemma OrderElse(s: State)
    requires InOrder(s) && ConsumerEnabled(s) && !s.consumer.Got? && !s.consumer.Took?
    ensures InOrder(ApplyConsume(s))
  {
  }

  lemma OrderGot(s: State)
    requires |s.chain| > 1 && s.chain[0] == s.head && InOrder(s) && s.consumer.Got?
    requires s.consumer.prev == s.head
    ensures InOrder(ApplyConsume(s))
  {
  }

  lemma OrderTook(s: State)
    requires s.consumer.Took? && s.chain != [] && s.chain[0] == s.consumer.next
    requires InOrder(s) && ConsumerEnabled(s)
    ensures InOrder(ApplyConsume(s))
  {
  }

  lemma KnowsPush(s: State, t: Thread, v: int)
    requires ConsumerKnows(s) && Enabled(s, Push(t, v))
    ensures ConsumerKnows(Apply(s, Push(t, v)))
  {
  }

  lemma PushStep(s: State, t: Thread, v: int)
    requires Inv(s) && Enabled(s, Push(t, v))
    ensures Inv(Apply(s, Push(t, v)))
  {
    hide Separate, FreeList, Chained, ConsumerKnows, InOrder;
    PushSeparate(s, t, v);
    PushChained(s, t, v);
    KnowsPush(s, t, v);
  }

  lemma PushSeparate(s: State, t: Thread, v: int)
    requires Separate(s) && FreeList(s) && Enabled(s, Push(t, v))
    ensures Separate(Apply(s, Push(t, v))) && FreeList(Apply(s, Push(t, v)))
  {
    hide NoDup, Linked;
  }

  lemma PushChained(s: State, t: Thread, v: int)
    requires Chained(s) && InOrder(s) && Enabled(s, Push(t, v))
    ensures Chained(Apply(s, Push(t, v))) && InOrder(Apply(s, Push(t, v)))
  {
    hide Linked;
  }

  lemma NewStep(s: State, t: Thread, n: Node)
    requires Inv(s) && Enabled(s, New(t, n))
    ensures Inv(Apply(s, New(t, n)))
  {
    hide Separate, FreeList, Chained, ConsumerKnows, InOrder;
    SeparateNew(s, t, n);
    ChainedNew(s, t, n);
    OthersNew(s, t, n);
  }

  lemma SeparateNew(s: State, t: Thread, n: Node)
    requires Separate(s) && Enabled(s, New(t, n))
    ensures Separate(Apply(s, New(t, n)))
  {
    hide NoDup;
  }

  lemma ChainedNew(s: State, t: Thread, n: Node)
    requires Separate(s) && FreeList(s) && Chained(s) && Enabled(s, New(t, n))
    ensures Chained(Apply(s, New(t, n))) && FreeList(Apply(s, New(t, n)))
  {
    hide NoDup, Linked;
    LinkedFrame(s.chain, s.next, s.owed, n, Null);
    LinkedFrame(s.free, s.next, map[], n, Null);
  }

  lemma OthersNew(s: State, t: Thread, n: Node)
    requires ConsumerKnows(s) && InOrder(s) && Enabled(s, New(t, n))
    ensures ConsumerKnows(Apply(s, New(t, n))) && InOrder(Apply(s, New(t, n)))
  {
  }

  lemma StepKeepsInv(s: State, step: Step)
    requires Inv(s) && Enabled(s, step)
    ensures Inv(Apply(s, step))
  {
    hide Separate, FreeList, ApplyProduce, ApplyConsume;
    match step
    case Push(t, v) => PushStep(s, t, v);
    case New(t, n) => NewStep(s, t, n);
    case Produce(t) =>
      SeparateProduce(s, t);
      FreeListProduce(s, t);
      ChainedProduce(s, t);
      KnowsProduce(s, t);
      OrderProduce(s, t);
    case Consume =>
      SeparateConsume(s);
      FreeListConsume(s);
      ChainedConsume(s);
      KnowsConsume(s);
      if s.consumer.Got? { HeadLink(s); }
      OrderConsume(s);
  }

  // A schedule: which thread moves next, any number of times, as long as each move is possible.
  ghost predicate Runs(s: State, steps: seq<Step>, end: State)
    decreases steps
  {
    if steps == [] then s == end
    else Enabled(s, steps[0]) && Runs(Apply(s, steps[0]), steps[1..], end)
  }

  lemma InitInv(s: State)
    requires Init(s)
    ensures Inv(s)
  {
  }

  lemma {:induction false} RunKeepsInv(s: State, steps: seq<Step>, end: State)
    requires Inv(s) && Runs(s, steps, end)
    ensures Inv(end)
    decreases steps
  {
    hide Inv;
    if steps != [] {
      StepKeepsInv(s, steps[0]);
      RunKeepsInv(Apply(s, steps[0]), steps[1..], end);
    }
  }

  // In every interleaving the values popped are the first ones pushed, in the order of the exchanges on
  // the tail, each exactly once; the rest wait in the chain in that order.
  lemma FirstInFirstOut(s: State, steps: seq<Step>, end: State)
    requires Init(s) && Runs(s, steps, end)
    ensures end.popped <= end.pushed
    ensures !end.consumer.Took? ==> |end.pushed| == |end.popped| + |end.chain| - 1
    ensures !end.consumer.Took? ==>
              forall i :: 1 <= i < |end.chain| ==>
                end.chain[i] in end.data && end.data[end.chain[i]] == end.pushed[|end.popped| + i - 1]
  {
    InitInv(s);
    RunKeepsInv(s, steps, end);
  }

  // A pop, which looks at the link out of the dummy, fails exactly when all that was pushed has been popped,
  // or when the producer next in line has exchanged the tail and not yet stored its link.
  lemma PopFailsIff(s: State, steps: seq<Step>, end: State)
    requires Init(s) && Runs(s, steps, end) && end.consumer.AtHead?
    ensures PopFails(end) <==>
              || end.popped == end.pushed
              || exists t, n :: t in end.producers && end.producers[t] == Linking(n, end.head)
  {
    hide Runs;
    InitInv(s);
    RunKeepsInv(s, steps, end);
    if |end.chain| > 1 {
      DummyLink(end);
      forall t, n | t in end.producers && end.producers[t] == Linking(n, end.head)
        ensures end.next[end.head] == Null
      {
        var i := OwedAt(end, t);
      }
    }
  }

  // The compare-and-swap in acquire_node never installs a node that is in use: if the pool pointer is
  // still what the thread has read, then so is the link below it, however often the consumer has
  // given nodes back in between.
  lemma AcquireIsSafe(s: State, steps: seq<Step>, end: State, t: Thread)
    requires Init(s) && Runs(s, steps, end)
    requires t in end.producers && end.producers[t].Chosen? && end.pool == To(end.producers[t].node)
    ensures end.producers[t].node in end.free && end.producers[t].node !in end.chain
    ensures end.producers[t].below == Top(Drop(end.free))
    ensures end.producers[t].below != Null ==>
              end.producers[t].below.node in end.free && end.producers[t].below.node !in end.chain
  {
    InitInv(s);
    RunKeepsInv(s, steps, end);
    PoolTop(end);
  }

  // A node whose outgoing link is owed is in the chain: not in the free list, not on its way there,
  // and not in the hands of another producer.
  lemma OwedIsNotRetired(s: State, steps: seq<Step>, end: State, t: Thread, u: Thread)
    requires Init(s) && Runs(s, steps, end) && t in end.producers && end.producers[t].Linking?
    ensures end.producers[t].prev in end.chain && end.producers[t].prev !in end.free
    ensures Kept(end.consumer) != To(end.producers[t].prev)
    ensures u in end.producers ==> Hand(end.producers[u]) != To(end.producers[t].prev)
  {
    InitInv(s);
    RunKeepsInv(s, steps, end);
  }

  // With one consumer, the compare-and-swap on the head always succeeds.
  lemma HeadSwapSucceeds(s: State, steps: seq<Step>, end: State)
    requires Init(s) && Runs(s, steps, end) && end.consumer.Got?
    ensures |end.chain| > 1 && end.head == end.consumer.prev && end.consumer.next == end.chain[1]
  {
    InitInv(s);
    RunKeepsInv(s, steps, end);
    HeadLink(end);
  }

  // Where a node can be.
  datatype Where = InChain | InFree | WithConsumer | WithProducer(t: Thread)

  predicate IsIn(s: State, n: Node, w: Where) {
    match w
    case InChain => n in s.chain
    case InFree => n in s.free
    case WithConsumer => Kept(s.consumer) == To(n)
    case WithProducer(t) => t in s.producers && Hand(s.producers[t]) == To(n)
  }

  // No node is lost.
  ghost predicate Covered(s: State) { forall n :: n in s.next ==> exists w :: IsIn(s, n, w) }

  // Where a node is after a step of a producer that was at w before.
  function Moves(s: State, t: Thread, n: Node, w: Where): Where
    requires ProducerEnabled(s, t)
  {
    match s.producers[t]
    case Chosen(_, m, _) => if m == n && s.pool == To(m) then WithProducer(t) else w
    case Ready(_, m) => if m == n then InChain else w
    case _ => w
  }

  lemma ProduceCovers(s: State, t: Thread, n: Node, w: Where)
    requires Inv(s) && ProducerEnabled(s, t) && IsIn(s, n, w)
    ensures IsIn(ApplyProduce(s, t), n, Moves(s, t, n, w))
  {
    hide Chained, ConsumerKnows, InOrder, Separate, Linked;
    match s.producers[t]
    case Chosen(_, m, _) => if s.pool == To(m) && m != n && w == InFree { InRest(s.free, n); }
    case _ =>
  }

  lemma InRest(q: seq<Node>, n: Node)
    requires n in q && n != q[0]
    ensures n in Drop(q)
  {
    assert q == [q[0]] + q[1..];
  }

  function ConsumerMoves(s: State, n: Node, w: Where): Where {
    match s.consumer
    case Got(prev, _) => if n == prev then WithConsumer else w
    case Offering(m, top) => if n == m && s.pool == top then InFree else w
    case _ => w
  }

  lemma ConsumeCovers(s: State, n: Node, w: Where)
    requires Inv(s) && ConsumerEnabled(s) && IsIn(s, n, w)
    ensures IsIn(ApplyConsume(s), n, ConsumerMoves(s, n, w))
  {
    hide FreeList, InOrder, Linked;
    match s.consumer
    case Got(prev, _) => if n != prev && w == InChain { InRest(s.chain, n); }
    case _ =>
  }

  lemma StepCovers(s: State, step: Step)
    requires Inv(s) && Covered(s) && Enabled(s, step)
    ensures Covered(Apply(s, step))
  {
    hide Inv, ApplyProduce, ApplyConsume, IsIn;
    var s' := Apply(s, step);
    forall n | n in s'.next ensures exists w :: IsIn(s', n, w) {
      if n in s.next {
        var w :| IsIn(s, n, w);
        match step
        case Push(t, v) => EntersIdle(s, t, v, n, w);
        case New(t, m) => AllocatesBeside(s, t, m, n, w);
        case Produce(t) => ProduceCovers(s, t, n, w);
        case Consume => ConsumeCovers(s, n, w);
      } else {
        NewIsHeld(s, step, n);
      }
    }
  }

  lemma EntersIdle(s: State, t: Thread, v: int, n: Node, w: Where)
    requires Enabled(s, Push(t, v)) && IsIn(s, n, w)
    ensures IsIn(Apply(s, Push(t, v)), n, w)
  {
  }

  lemma AllocatesBeside(s: State, t: Thread, m: Node, n: Node, w: Where)
    requires Enabled(s, New(t, m)) && IsIn(s, n, w)
    ensures IsIn(Apply(s, New(t, m)), n, w)
  {
  }

  lemma NewIsHeld(s: State, step: Step, n: Node)
    requires Inv(s) && Enabled(s, step) && n !in s.next && n in Apply(s, step).next
    ensures step.New? && IsIn(Apply(s, step), n, WithProducer(step.t))
  {
    hide Inv, ApplyProduce, ApplyConsume;
    match step
    case Produce(t) => ProduceKeepsNodes(s, t);
    case Consume => ConsumeKeepsNodes(s);
    case _ =>
  }

  lemma ProduceKeepsNodes(s: State, t: Thread)
    requires ProducerEnabled(s, t)
    ensures forall n :: n in ApplyProduce(s, t).next <==> n in s.next
  {
  }

  lemma ConsumeKeepsNodes(s: State)
    requires ConsumerEnabled(s)
    ensures forall n :: n in ApplyConsume(s).next <==> n in s.next
  {
  }

  lemma {:induction false} RunCovers(s: State, steps: seq<Step>, end: State)
    requires Inv(s) && Covered(s) && Runs(s, steps, end)
    ensures Covered(end)
    decreases steps
  {
    hide Inv, Covered, Enabled, Apply;
    if steps != [] {
      StepKeepsInv(s, steps[0]);
      StepCovers(s, steps[0]);
      RunCovers(Apply(s, steps[0]), steps[1..], end);
    }
  }

  // In every interleaving each node there is is in exactly one of the chain, the free list, the hands of the
  // consumer and the hands of one producer.
  lemma EveryNodeOnce(s: State, steps: seq<Step>, end: State, n: Node)
    requires Init(s) && Runs(s, steps, end) && n in end.next
    ensures exists w :: IsIn(end, n, w) && forall v :: IsIn(end, n, v) ==> v == w
  {
    hide Runs;
    InitInv(s);
    forall m | m in s.next ensures exists w :: IsIn(s, m, w) {
      assert IsIn(s, m, if m == s.head then InChain else InFree);
    }
    RunKeepsInv(s, steps, end);
    RunCovers(s, steps, end);
    var w :| IsIn(end, n, w);
    forall v | IsIn(end, n, v) ensures v == w { InOnePlace(end, n, v, w); }
  }

  lemma InOnePlace(s: State, n: Node, v: Where, w: Where)
    requires Separate(s) && IsIn(s, n, v) && IsIn(s, n, w)
    ensures v == w
  {
    hide NoDup;
  }

  // No thread is ever in front of a read or a write through a pointer that leads nowhere: the consumer can
  // always go on, and a producer that cannot is idle, or waits to enter acquire_node, or is about to
  // allocate a node.
  lemma NobodyIsStuck(s: State, steps: seq<Step>, end: State, t: Thread)
    requires Init(s) && Runs(s, steps, end)
    ensures ConsumerEnabled(end)
    ensures t in end.producers && !ProducerEnabled(end, t) ==>
              || end.producers[t] == Idle
              || (end.producers[t].Asked? && !Unattended(end))
              || (end.producers[t].Loaded? && end.producers[t].top == Null)
  {
    hide Runs, Linked, InOrder;
    InitInv(s);
    RunKeepsInv(s, steps, end);
    if t in end.producers && end.producers[t].Linking? {
      var i := OwedAt(end, t);
    }
  }

  // Everything pushed has been popped, or is the value the consumer is about to read.
  predicate AllTaken(s: State) {
    s.pushed == s.popped + if s.consumer.Took? && Allocated(s, s.consumer.next) then [s.data[s.consumer.next]] else []
  }

  // The answer of `empty`, which loads the head and some steps later the tail.  It is wrong exactly if a pop
  // has moved the head in between and the tail is where the head was, so that the node has come back, or
  // where the head is now.
  lemma EmptyIsRightIff(s: State, steps: seq<Step>, mid: State, more: seq<Step>, end: State)
    requires Init(s) && Runs(s, steps, mid) && Runs(mid, more, end)
    ensures (mid.head == end.tail <==> AllTaken(end)) <==>
              mid.head == end.head || (mid.head != end.tail && end.head != end.tail)
    ensures mid.head == end.tail ==> (AllTaken(end) <==> mid.head == end.head)
  {
    InitInv(s);
    RunKeepsInv(s, steps, mid);
    RunKeepsInv(mid, more, end);
    AllTakenIff(end);
  }

  lemma AllTakenIff(s: State)
    requires Inv(s)
    ensures AllTaken(s) <==> s.head == s.tail
  {
    assert |s.chain| > 1 ==> s.chain[0] != s.chain[|s.chain| - 1];
  }
}
