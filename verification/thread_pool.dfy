/**
 The worker pool: `add` and `run` of `threadpool.h` over a locked queue and a counting semaphore.
 Any number of threads add and any number of workers run; a step is one access to the queue or
 to the semaphore.
 */
module ThreadPool {
  import opened Logs
  import opened Wrappers

  type Task = int
  type Thread = nat

  datatype Adder =
    | Idle
    | Checked(task: Task)  // size() was below the limit
    | Pushed               // in front of sem.release

  datatype Worker =
    | Waiting              // in front of sem.acquire
    | Acquired             // in front of the test for an empty queue
    | Nonempty             // in front of pop
    | Popped(task: Option<Task>)
    | Working(current: Task)

  // The two logs, of what was pushed and of who took what, are not looked at by any step.
  datatype State = State(
    limit: nat, queue: seq<Task>, permits: nat,
    adders: map<Thread, Adder>, workers: map<Thread, Worker>,
    pushed: seq<Task>, taken: seq<(Thread, Task)>)

  datatype Step =
    | Check(a: Thread, task: Task)
    | Add(a: Thread)
    | Run(w: Thread)

  predicate Enabled(s: State, step: Step) {
    match step
    case Check(a, _) => a in s.adders && s.adders[a] == Idle
    case Add(a) => a in s.adders && s.adders[a] != Idle
    case Run(w) => w in s.workers && (s.workers[w] == Waiting ==> s.permits > 0)
  }

  function SetAdder(s: State, a: Thread, p: Adder): State { s.(adders := s.adders[a := p]) }

  function SetWorker(s: State, w: Thread, p: Worker): State { s.(workers := s.workers[w := p]) }

  function Apply(s: State, step: Step): State
    requires Enabled(s, step)
  {
    match step
    case Check(a, task) => if |s.queue| >= s.limit then s else SetAdder(s, a, Checked(task))
    case Add(a) =>
      (match s.adders[a]
       case Checked(task) => SetAdder(s.(queue := s.queue + [task], pushed := s.pushed + [task]), a, Pushed)
       case _ => SetAdder(s.(permits := s.permits + 1), a, Idle))
    case Run(w) =>
      match s.workers[w]
      case Waiting => SetWorker(s.(permits := s.permits - 1), w, Acquired)
      case Acquired => SetWorker(s, w, if s.queue == [] then Waiting else Nonempty)
      case Nonempty =>
        if s.queue == [] then SetWorker(s, w, Popped(None))
        else
          SetWorker(s.(queue := s.queue[1..], taken := s.taken + [(w, s.queue[0])]), w, Popped(Some(s.queue[0])))
      case Popped(task) => SetWorker(s, w, if task == None then Waiting else Working(task.value))
      case Working(_) => SetWorker(s, w, Waiting)
  }

  // A pool with nothing in it.  The constructor refuses a limit that is not positive.
  ghost predicate Init(s: State) {
    && s.limit > 0 && s.queue == [] && s.permits == 0 && s.pushed == [] && s.taken == []
    && (forall a :: a in s.adders ==> s.adders[a] == Idle)
    && (forall w :: w in s.workers ==> s.workers[w] == Waiting)
  }

  ghost predicate Runs(s: State, steps: seq<Step>, end: State)
    decreases steps
  {
    if steps == [] then s == end
    else Enabled(s, steps[0]) && Runs(Apply(s, steps[0]), steps[1..], end)
  }

  function Checking(s: State): set<Thread> { set a | a in s.adders && s.adders[a].Checked? }

  function Releasing(s: State): set<Thread> { set a | a in s.adders && s.adders[a] == Pushed }

  predicate Fetches(p: Worker) { p == Acquired || p == Nonempty }

  function Fetching(s: State): set<Thread> { set w | w in s.workers && Fetches(s.workers[w]) }

  function TasksOf(taken: seq<(Thread, Task)>): (ts: seq<Task>)
    ensures |ts| == |taken|
  {
    if taken == [] then [] else TasksOf(taken[..|taken| - 1]) + [taken[|taken| - 1].1]
  }

  ghost predicate Inv(s: State) {
    && |s.queue| == s.permits + |Fetching(s)| + |Releasing(s)|
    && s.pushed == TasksOf(s.taken) + s.queue
    && (forall w :: w in s.workers && s.workers[w].Popped? ==> s.workers[w].task != None)
    && (s.adders == map[] ==> s.queue == [])
    && (s.adders != map[] ==> |s.queue| + |Checking(s)| < s.limit + |s.adders|)
  }

  lemma Bounded(small: set<Thread>, big: set<Thread>)
    requires small <= big
    ensures |small| <= |big|
    decreases |small|
  {
    if x :| x in small {
      Bounded(small - {x}, big - {x});
    }
  }

  lemma CheckStep(s: State, a: Thread, task: Task)
    requires Inv(s) && Enabled(s, Check(a, task))
    ensures Inv(Apply(s, Check(a, task)))
  {
    var s' := Apply(s, Check(a, task));
    assert Fetching(s') == Fetching(s) && Releasing(s') == Releasing(s);
    if |s.queue| < s.limit {
      assert Checking(s') == Checking(s) + {a};
      assert s'.adders.Keys == s.adders.Keys;
      Bounded(Checking(s'), s'.adders.Keys);
      assert |s'.adders| == |s'.adders.Keys|;
    }
  }

  lemma AddStep(s: State, a: Thread)
    requires Inv(s) && Enabled(s, Add(a))
    ensures Inv(Apply(s, Add(a)))
  {
    var s' := Apply(s, Add(a));
    assert s'.adders.Keys == s.adders.Keys && |s'.adders| == |s'.adders.Keys| == |s.adders|;
    assert Fetching(s') == Fetching(s);
    AddMoves(s, a);
    assert s.adders[a].Checked? ==> s'.pushed == TasksOf(s'.taken) + s'.queue;
  }

  // The adder moves from one set to the next.
  lemma AddMoves(s: State, a: Thread)
    requires Enabled(s, Add(a))
    ensures var s' := Apply(s, Add(a));
            if s.adders[a].Checked? then
              |Releasing(s')| == |Releasing(s)| + 1 && |Checking(s')| == |Checking(s)| - 1
            else
              |Releasing(s')| == |Releasing(s)| - 1 && |Checking(s')| == |Checking(s)|
  {
    var s' := Apply(s, Add(a));
    if s.adders[a].Checked? {
      assert Releasing(s') == Releasing(s) + {a};
      assert Checking(s) == Checking(s') + {a};
    } else {
      assert Releasing(s) == Releasing(s') + {a};
      assert Checking(s') == Checking(s);
    }
  }

  lemma RunStep(s: State, w: Thread)
    requires Inv(s) && Enabled(s, Run(w))
    ensures Inv(Apply(s, Run(w)))
  {
    hide TasksOf;
    if s.workers[w] == Acquired || s.workers[w] == Nonempty {
      FetchingMeansWork(s, w);
    }
    FetchMoves(s, w);
    assert Releasing(Apply(s, Run(w))) == Releasing(s) && Checking(Apply(s, Run(w))) == Checking(s);
    LogsMove(s, w);
  }

  lemma FetchMoves(s: State, w: Thread)
    requires Enabled(s, Run(w)) && (s.workers[w] == Acquired ==> s.queue != [])
    ensures |Fetching(Apply(s, Run(w)))|
         == |Fetching(s)| + (if s.workers[w] == Waiting then 1 else if s.workers[w] == Nonempty then -1 else 0)
  {
    var now := Apply(s, Run(w)).workers[w];
    assert Apply(s, Run(w)).workers == s.workers[w := now];
    var rest := Fetching(s) - {w};
    assert Fetching(s) == if Fetches(s.workers[w]) then rest + {w} else rest;
    assert Fetching(Apply(s, Run(w))) == if Fetches(now) then rest + {w} else rest;
  }

  lemma LogsMove(s: State, w: Thread)
    requires Enabled(s, Run(w)) && s.pushed == TasksOf(s.taken) + s.queue
    ensures var s' := Apply(s, Run(w)); s'.pushed == TasksOf(s'.taken) + s'.queue
  {
    var s' := Apply(s, Run(w));
    if s.workers[w] == Nonempty && s.queue != [] {
      assert s'.taken[..|s.taken|] == s.taken;
      assert s.queue == [s.queue[0]] + s'.queue;
    }
  }

  lemma FetchingMeansWork(s: State, w: Thread)
    requires Inv(s) && w in s.workers && (s.workers[w] == Acquired || s.workers[w] == Nonempty)
    ensures s.queue != []
  {
    assert w in Fetching(s);
  }

  lemma {:induction false} RunKeepsInv(s: State, steps: seq<Step>, end: State)
    requires Inv(s) && Runs(s, steps, end)
    ensures Inv(end) && end.limit == s.limit && end.adders.Keys == s.adders.Keys
    decreases steps
  {
    hide Inv;
    if steps != [] {
      match steps[0] {
        case Check(a, task) => CheckStep(s, a, task);
        case Add(a) => AddStep(s, a);
        case Run(w) => RunStep(s, w);
      }
      RunKeepsInv(Apply(s, steps[0]), steps[1..], end);
    }
  }

  lemma InitInv(s: State)
    requires Init(s)
    ensures Inv(s)
  {
    assert Fetching(s) == {} && Releasing(s) == {} && Checking(s) == {};
    if s.adders != map[] {
      var a :| a in s.adders;
      assert |s.adders| == |s.adders.Keys| && a in s.adders.Keys;
    }
  }

  // In every interleaving the queue holds one task for each permit, for each worker on its way to
  // a task, and for each adder that has yet to release the semaphore.
  lemma SemaphoreAndQueueAgree(s: State, steps: seq<Step>, end: State)
    requires Init(s) && Runs(s, steps, end)
    ensures |end.queue| == end.permits + |Fetching(end)| + |Releasing(end)|
  {
    InitInv(s);
    RunKeepsInv(s, steps, end);
  }

  // So a worker that has got past the semaphore never finds the queue empty and never pops a null.
  lemma WorkersAlwaysFindWork(s: State, steps: seq<Step>, end: State, w: Thread)
    requires Init(s) && Runs(s, steps, end) && w in end.workers
    ensures end.workers[w] == Acquired || end.workers[w] == Nonempty ==> end.queue != []
    ensures end.workers[w] != Popped(None)
  {
    InitInv(s);
    RunKeepsInv(s, steps, end);
    if end.workers[w] == Acquired || end.workers[w] == Nonempty {
      FetchingMeansWork(end, w);
    }
  }

  // Tasks leave in the order they came, each to one worker, and none is lost.
  lemma TasksInOrder(s: State, steps: seq<Step>, end: State)
    requires Init(s) && Runs(s, steps, end)
    ensures end.pushed == TasksOf(end.taken) + end.queue
  {
    InitInv(s);
    RunKeepsInv(s, steps, end);
  }

  // The unlocked check before the push lets n adders overshoot the limit by n - 1 at most; a single
  // adder, such as a reactor's loop, never exceeds it.
  lemma QueueBound(s: State, steps: seq<Step>, end: State)
    requires Init(s) && Runs(s, steps, end)
    ensures s.adders != map[] ==> |end.queue| < s.limit + |s.adders|
    ensures |s.adders| == 1 ==> |end.queue| <= s.limit
  {
    InitInv(s);
    RunKeepsInv(s, steps, end);
    assert |end.adders| == |end.adders.Keys| == |s.adders.Keys| == |s.adders|;
  }

  lemma {:induction false} RunsOn(s: State, steps: seq<Step>, mid: State, more: seq<Step>, end: State)
    requires Runs(s, steps, mid) && Runs(mid, more, end)
    ensures Runs(s, steps + more, end)
    decreases steps
  {
    hide Enabled, Apply;
    if steps == [] {
      assert steps + more == more;
    } else {
      assert (steps + more)[1..] == steps[1..] + more;
      RunsOn(Apply(s, steps[0]), steps[1..], mid, more, end);
    }
  }

  predicate SameAdders(s: State, t: State) { t.limit == s.limit && t.adders == s.adders }

  lemma OneStep(s: State, step: Step)
    requires Enabled(s, step)
    ensures Runs(s, [step], Apply(s, step))
  {
  }

  // An adder that finds the queue below its limit adds its task at the end and one permit, and that is all.
  lemma AddsOne(s: State, a: Thread, task: Task) returns (steps: seq<Step>, end: State)
    requires a in s.adders && s.adders[a] == Idle && |s.queue| < s.limit
    ensures Runs(s, steps, end) && SameAdders(s, end) && steps == [Check(a, task), Add(a), Add(a)]
    ensures end.queue == s.queue + [task] && end.permits == s.permits + 1 && end.workers == s.workers
    ensures end.pushed == s.pushed + [task] && end.taken == s.taken
  {
    steps := [Check(a, task), Add(a), Add(a)];
    var s1 := Apply(s, Check(a, task));
    var s2 := Apply(s1, Add(a));
    end := Apply(s2, Add(a));
    assert steps[1..] == [Add(a), Add(a)] && [Add(a), Add(a)][1..] == [Add(a)] && [Add(a)][1..] == [];
    assert Runs(s2, [Add(a)], end);
    assert Runs(s1, [Add(a), Add(a)], end);
    assert end.adders == s.adders;
  }

  // An adder that finds it full does nothing.
  lemma FullRefuses(s: State, a: Thread, task: Task)
    requires a in s.adders && s.adders[a] == Idle && |s.queue| >= s.limit
    ensures Runs(s, [Check(a, task)], s)
  {
    OneStep(s, Check(a, task));
  }

  // A worker that waits while there is a permit takes the first task, works on it and waits again.
  lemma WorksOne(start: State, before: seq<Step>, s: State, w: Thread) returns (mid: State, end: State)
    requires Init(start) && Runs(start, before, s) && w in s.workers && s.workers[w] == Waiting && s.permits > 0
    ensures s.queue != [] && Runs(s, [Run(w), Run(w), Run(w), Run(w)], mid) && Runs(mid, [Run(w)], end)
    ensures w in mid.workers && mid.workers == s.workers[w := Working(s.queue[0])] && end.workers == s.workers
    ensures mid.queue == end.queue == s.queue[1..] && mid.permits == end.permits == s.permits - 1
    ensures mid.taken == end.taken == s.taken + [(w, s.queue[0])] && mid.pushed == end.pushed == s.pushed
    ensures mid.adders == end.adders == s.adders
  {
    hide Inv;
    InitInv(start);
    RunKeepsInv(start, before, s);
    PermitMeansWork(s);
    var s1 := Apply(s, Run(w));
    var s2 := Apply(s1, Run(w));
    var s3 := Apply(s2, Run(w));
    mid := Apply(s3, Run(w));
    end := Apply(mid, Run(w));
    OneStep(s3, Run(w));
    OneStep(mid, Run(w));
    assert [Run(w), Run(w)][1..] == [Run(w)];
    assert Runs(s2, [Run(w), Run(w)], mid);
    assert [Run(w), Run(w), Run(w)][1..] == [Run(w), Run(w)];
    assert Runs(s1, [Run(w), Run(w), Run(w)], mid);
    assert [Run(w), Run(w), Run(w), Run(w)][1..] == [Run(w), Run(w), Run(w)];
    var t := s.queue[0];
    assert s.workers[w := Acquired][w := Nonempty][w := Popped(Some(t))][w := Working(t)] == s.workers[w := Working(t)];
    assert s.workers[w := Working(t)][w := Waiting] == s.workers;
  }

  lemma PermitMeansWork(s: State)
    requires Inv(s) && s.permits > 0
    ensures s.queue != []
  {
  }

  // The task a worker took last.
  function LastOf(taken: seq<(Thread, Task)>, w: Thread): Option<Task> {
    if taken == [] then None
    else
      var last := taken[|taken| - 1];
      if last.0 == w then Some(last.1) else LastOf(taken[..|taken| - 1], w)
  }

  predicate OnItsOwn(s: State, w: Thread) {
    w in s.workers ==>
      match s.workers[w]
      case Popped(task) => task == None || task == LastOf(s.taken, w)
      case Working(task) => LastOf(s.taken, w) == Some(task)
      case _ => true
  }

  lemma {:induction false} RunOnItsOwn(s: State, steps: seq<Step>, end: State, w: Thread)
    requires OnItsOwn(s, w) && Runs(s, steps, end)
    ensures OnItsOwn(end, w)
    decreases steps
  {
    if steps != [] {
      var next := Apply(s, steps[0]);
      assert next.taken != s.taken ==> next.taken[..|next.taken| - 1] == s.taken;
      RunOnItsOwn(next, steps[1..], end, w);
    }
  }

  // A worker works on the task it took last.
  lemma WorksOnWhatItTook(s: State, steps: seq<Step>, end: State, w: Thread)
    requires Init(s) && Runs(s, steps, end) && w in end.workers && end.workers[w].Working?
    ensures LastOf(end.taken, w) == Some(end.workers[w].current)
  {
    RunOnItsOwn(s, steps, end, w);
  }

  // The tasks an adder was asked to add in the course of a schedule and that did not find the queue full.
  function Accepted(s: State, steps: seq<Step>, a: Thread): seq<Task>
    decreases steps
  {
    if steps == [] || !Enabled(s, steps[0]) then []
    else
      (if steps[0].Check? && steps[0].a == a && |s.queue| < s.limit then [steps[0].task] else [])
      + Accepted(Apply(s, steps[0]), steps[1..], a)
  }

  function Pusher(s: State, step: Step): (r: seq<Thread>)
    ensures |r| <= 1
  {
    if step.Add? && step.a in s.adders && s.adders[step.a].Checked? then [step.a] else []
  }

  // The adders in the order of their pushes.
  function Pushers(s: State, steps: seq<Step>): seq<Thread>
    decreases steps
  {
    if steps == [] || !Enabled(s, steps[0]) then []
    else Pusher(s, steps[0]) + Pushers(Apply(s, steps[0]), steps[1..])
  }

  function Carried(s: State, a: Thread): seq<Task> {
    if a in s.adders && s.adders[a].Checked? then [s.adders[a].task] else []
  }

  lemma StepCarries(s: State, step: Step, a: Thread)
    requires Enabled(s, step)
    ensures var s' := Apply(s, step);
            && s.pushed <= s'.pushed && |s'.pushed| == |s.pushed| + |Pusher(s, step)|
            && Carried(s, a) + Accepted(s, [step], a)
            == Of(s'.pushed[|s.pushed|..], Pusher(s, step), a) + Carried(s', a)
  {
    assert Accepted(Apply(s, step), [step][1..], a) == [];
    assert Apply(s, step).pushed[|s.pushed|..] == if Pusher(s, step) == [] then [] else [s.adders[step.a].task];
  }

  lemma {:induction false} RunCarries(s: State, steps: seq<Step>, end: State, a: Thread)
    requires Runs(s, steps, end)
    ensures s.pushed <= end.pushed && |end.pushed| == |s.pushed| + |Pushers(s, steps)|
    ensures Carried(s, a) + Accepted(s, steps, a)
         == Of(end.pushed[|s.pushed|..], Pushers(s, steps), a) + Carried(end, a)
    decreases steps
  {
    hide Apply, Carried, Of, Pusher;
    if steps == [] {
      OfNone<Task>(a);
      assert Carried(s, a) + [] == [] + Carried(s, a);
    } else {
      var mid := Apply(s, steps[0]);
      StepCarries(s, steps[0], a);
      RunCarries(mid, steps[1..], end, a);
      assert Accepted(s, steps, a) == Accepted(s, [steps[0]], a) + Accepted(mid, steps[1..], a) by {
        assert Accepted(mid, [steps[0]][1..], a) == [];
      }
      var x, y := mid.pushed[|s.pushed|..], end.pushed[|mid.pushed|..];
      assert end.pushed[|s.pushed|..] == x + y;
      OfNext(x, Pusher(s, steps[0]), y, Pushers(mid, steps[1..]), a);
      Chain(Carried(s, a), Accepted(s, [steps[0]], a), Accepted(mid, steps[1..], a), Carried(mid, a), Carried(end, a),
            Of(x, Pusher(s, steps[0]), a), Of(y, Pushers(mid, steps[1..]), a));
    }
  }

  // In every interleaving, of each adder the tasks that have been pushed, and then the one it has not pushed
  // yet, are those it was asked to add and that did not find the queue full, in that order.
  lemma PushedAsAccepted(s: State, steps: seq<Step>, end: State, a: Thread)
    requires Init(s) && Runs(s, steps, end)
    ensures |end.pushed| == |Pushers(s, steps)|
    ensures Of(end.pushed, Pushers(s, steps), a) + Carried(end, a) == Accepted(s, steps, a)
  {
    RunCarries(s, steps, end, a);
    assert end.pushed[|s.pushed|..] == end.pushed;
    assert Carried(s, a) + Accepted(s, steps, a) == Accepted(s, steps, a);
  }

  lemma {:induction false} AddsUpTo(s: State, a: Thread, n: nat) returns (steps: seq<Step>, end: State)
    requires a in s.adders && s.adders[a] == Idle && |s.queue| <= n <= s.limit
    ensures Runs(s, steps, end) && SameAdders(s, end) && |end.queue| == n
    decreases n - |s.queue|
  {
    hide Runs;
    if |s.queue| == n {
      steps, end := [], s;
      assert Runs(s, [], s) by { NoSteps(s); }
    } else {
      var one, mid := AddsOne(s, a, 0);
      var more;
      more, end := AddsUpTo(mid, a, n);
      RunsOn(s, one, mid, more, end);
      steps := one + more;
    }
  }

  lemma NoSteps(s: State)
    ensures Runs(s, [], s)
  {
  }

  // Every adder looks at the length of the queue before any of them pushes.
  lemma {:induction false} AllCheck(s: State, todo: set<Thread>) returns (steps: seq<Step>, end: State)
    requires |s.queue| < s.limit && (forall a :: a in todo ==> a in s.adders && s.adders[a] == Idle)
    ensures Runs(s, steps, end) && end.limit == s.limit && end.queue == s.queue && end.adders.Keys == s.adders.Keys
    ensures forall a :: a in todo ==> a in end.adders && end.adders[a].Checked?
    ensures forall a :: a in s.adders && a !in todo ==> end.adders[a] == s.adders[a]
    decreases |todo|
  {
    hide Runs;
    if todo == {} {
      steps, end := [], s;
      NoSteps(s);
    } else {
      var a :| a in todo;
      var mid := Apply(s, Check(a, 0));
      OneStep(s, Check(a, 0));
      var more;
      more, end := AllCheck(mid, todo - {a});
      RunsOn(s, [Check(a, 0)], mid, more, end);
      steps := [Check(a, 0)] + more;
    }
  }

  lemma {:induction false} AllPush(s: State, todo: set<Thread>) returns (steps: seq<Step>, end: State)
    requires forall a :: a in todo ==> a in s.adders && s.adders[a].Checked?
    ensures Runs(s, steps, end) && |end.queue| == |s.queue| + |todo|
    decreases |todo|
  {
    hide Runs;
    if todo == {} {
      steps, end := [], s;
      NoSteps(s);
    } else {
      var a :| a in todo;
      var mid := Apply(s, Add(a));
      OneStep(s, Add(a));
      var more;
      more, end := AllPush(mid, todo - {a});
      RunsOn(s, [Add(a)], mid, more, end);
      steps := [Add(a)] + more;
    }
  }

  // The bound is reached: whatever the limit and however many adders there are, they can fill the queue but
  // for one place, all look at it, and all push.
  lemma BoundIsReached(s: State) returns (steps: seq<Step>, end: State)
    requires Init(s) && s.adders != map[]
    ensures Runs(s, steps, end) && |end.queue| == s.limit + |s.adders| - 1
  {
    hide Runs;
    var a :| a in s.adders;
    var first, s1 := AddsUpTo(s, a, s.limit - 1);
    var second, s2 := AllCheck(s1, s1.adders.Keys);
    var third;
    third, end := AllPush(s2, s1.adders.Keys);
    RunsOn(s, first, s1, second, s2);
    RunsOn(s, first + second, s2, third, end);
    steps := first + second + third;
  }
}
