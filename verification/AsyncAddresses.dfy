/**
  The task chain of core/async_chain.hpp with raw addresses.  Futures live at addresses that may
  be given to a new future once nothing holds the former one, and the signal test and the
  compare-exchange look at addresses only.  Every run is nevertheless a run of AsyncChain, where
  futures are told apart by their tasks.
 */
module AsyncAddresses {
  import A = AsyncChain
  import P = AsyncProgress
  import opened Wrappers

  datatype State = State(
    chain: A.State,
    address: seq<nat>,     // of the future of each task, fixed when it is created
    freed: set<nat>)       // futures already destroyed

  datatype Event =
    | Step(e: A.Event, place: nat)   // place: where a new future is put
    | Free(node: nat)

  const Init := State(A.Init, [], {})

  // A null pointer has address 0.
  function AddressOf(s: State, link: A.Link): nat {
    if link.None? || link.value >= |s.address| then 0 else s.address[link.value]
  }

  // ---------- Who keeps a future alive ----------

  // append's own pointers: pending_old and pending_new
  predicate HeldByCall(c: A.State, i: int, n: nat) {
    0 <= i < |c.calls| &&
    match c.calls[i].pc
    case Spawning(prev) => prev == Some(n)
    case Exchanging(prev, node) => prev == Some(n) || node == n
    case Signalling(prev, node) => prev == Some(n) || node == n
    case _ => false
  }

  // the predecessor captured by a task that has not joined it yet
  predicate HeldByTask(c: A.State, t: int, n: nat) {
    0 <= t < |c.tasks| && (c.tasks[t].state.AwaitSignal? || c.tasks[t].state.AwaitPredecessor?) && c.tasks[t].prev == Some(n)
  }

  // the list `temporary` of a call that has not ended
  predicate HeldByTemporary(c: A.State, n: nat) {
    && n < |c.tasks| && c.tasks[n].call < |c.calls|
    && var pc := c.calls[c.tasks[n].call].pc;
       pc.Spawning? || pc.Exchanging? || pc.Signalling?
  }

  predicate HeldByWaiter(c: A.State, w: int, n: nat) {
    0 <= w < |c.waiters| && c.waiters[w] == A.Waiting(Some(n))
  }

  ghost predicate Held(c: A.State, n: nat) {
    || c.pending == Some(n)
    || (exists i :: HeldByCall(c, i, n))
    || (exists t :: HeldByTask(c, t, n))
    || HeldByTemporary(c, n)
    || (exists w :: HeldByWaiter(c, w, n))
  }

  // ---------- Steps ----------

  // No live future is at this address.
  ghost predicate Vacant(s: State, place: nat) {
    place > 0 && forall n :: 0 <= n < |s.address| && n !in s.freed ==> s.address[n] != place
  }

  ghost predicate Enabled(s: State, e: Event) {
    match e
    case Step(e', place) => A.Enabled(s.chain, e') && (e'.Spawn? ==> Vacant(s, place))
    case Free(n) => n < |s.address| && n !in s.freed && !Held(s.chain, n)
  }

  // What a step does to the chain when pointers are compared by address.
  function Act(s: State, e: A.Event): A.State
    requires A.Enabled(s.chain, e)
  {
    var c := s.chain;
    match e
    case CompareExchange(i) =>
      var prev, node := c.calls[i].pc.prev, c.calls[i].pc.node;
      if AddressOf(s, c.pending) == AddressOf(s, prev) then
        A.WithPc(c, i, A.Signalling(prev, node)).(pending := Some(node), order := c.order + [node])
      else
        A.WithPc(c, i, A.Spawning(c.pending))
    case TestSignal(t) =>
      var signal := c.calls[c.tasks[t].call].pc.prev;
      A.WithState(c, t, if AddressOf(s, c.tasks[t].prev) != AddressOf(s, signal) then A.Skipped else A.AwaitPredecessor)
    case _ => A.Apply(c, e)
  }

  ghost function Apply(s: State, e: Event): State
    requires Enabled(s, e)
  {
    match e
    case Step(e', place) =>
      s.(chain := Act(s, e'), address := if e'.Spawn? then s.address + [place] else s.address)
    case Free(n) => s.(freed := s.freed + {n})
  }

  // ---------- Invariant ----------

  ghost predicate Placed(s: State) {
    && |s.address| == |s.chain.tasks|
    && (forall n :: n in s.freed ==> n < |s.address|)
    && (forall n :: 0 <= n < |s.address| ==> s.address[n] > 0)
    && (forall m, n :: 0 <= m < n < |s.address| && m !in s.freed && n !in s.freed ==> s.address[m] != s.address[n])
  }

  ghost predicate HeldAlive(s: State) {
    forall n: nat :: Held(s.chain, n) ==> n < |s.address| && n !in s.freed
  }

  // Comparing these two pointers by address tells whether they are the same future.
  predicate Tells(s: State, a: A.Link, b: A.Link) {
    AddressOf(s, a) == AddressOf(s, b) <==> a == b
  }

  // ... for the test each waiting task has before it.
  ghost predicate TestTells(s: State, t: nat)
    requires t < |s.chain.tasks|
  {
    var task := s.chain.tasks[t];
    task.state.AwaitSignal? && task.call < |s.chain.calls| && s.chain.calls[task.call].pc.Signalled? ==>
      var prev := s.chain.calls[task.call].pc.prev;
      && (task.prev.Some? ==> task.prev.value < |s.address|) && (prev.Some? ==> prev.value < |s.address|)
      && Tells(s, task.prev, prev)
  }

  ghost predicate Inv(s: State) {
    && A.Inv(s.chain) && Placed(s) && HeldAlive(s)
    && forall t :: 0 <= t < |s.chain.tasks| ==> TestTells(s, t)
  }

  // ---------- Holding ----------

  // A pointer is copied from a holder or belongs to the future just created.
  lemma {:induction false} HeldBefore(c: A.State, e: A.Event, n: nat)
    requires A.Inv(c) && A.Enabled(c, e) && Held(A.Apply(c, e), n)
    ensures Held(c, n) || (e.Spawn? && n == |c.tasks|)
  {
    var c' := A.Apply(c, e);
    if c'.pending == Some(n) {
      PendingBefore(c, e, n);
    } else if exists i :: HeldByCall(c', i, n) {
      var i :| HeldByCall(c', i, n);
      CallBefore(c, e, i, n);
    } else if exists t :: HeldByTask(c', t, n) {
      var t :| HeldByTask(c', t, n);
      TaskBefore(c, e, t, n);
    } else if HeldByTemporary(c', n) {
      TemporaryBefore(c, e, n);
    } else {
      var w :| HeldByWaiter(c', w, n);
      WaiterBefore(c, e, w, n);
    }
  }

  lemma {:induction false} PendingBefore(c: A.State, e: A.Event, n: nat)
    requires A.Enabled(c, e) && A.Apply(c, e).pending == Some(n)
    ensures Held(c, n)
  {
    if c.pending != Some(n) { assert HeldByCall(c, e.call, n); }
  }

  lemma {:induction false} CallBefore(c: A.State, e: A.Event, i: int, n: nat)
    requires A.Enabled(c, e) && HeldByCall(A.Apply(c, e), i, n)
    ensures Held(c, n) || (e.Spawn? && n == |c.tasks|)
  {
    if i < |c.calls| && !HeldByCall(c, i, n) {
      assert c.pending == Some(n) || (e.Spawn? && n == |c.tasks|);
    }
  }

  lemma {:induction false} TaskBefore(c: A.State, e: A.Event, t: int, n: nat)
    requires A.Enabled(c, e) && HeldByTask(A.Apply(c, e), t, n)
    ensures Held(c, n)
  {
    if e.Spawn? && t == |c.tasks| {
      assert HeldByCall(c, e.call, n);
    } else {
      assert HeldByTask(c, t, n);
    }
  }

  lemma {:induction false} TemporaryBefore(c: A.State, e: A.Event, n: nat)
    requires A.TasksOk(c) && A.Enabled(c, e) && HeldByTemporary(A.Apply(c, e), n)
    ensures Held(c, n) || (e.Spawn? && n == |c.tasks|)
  {
    if n < |c.tasks| {
      assert A.TaskOk(c, n);
      assert A.Apply(c, e).tasks[n].call == c.tasks[n].call;
      assert HeldByTemporary(c, n);
    }
  }

  lemma {:induction false} WaiterBefore(c: A.State, e: A.Event, w: int, n: nat)
    requires A.Enabled(c, e) && HeldByWaiter(A.Apply(c, e), w, n)
    ensures Held(c, n)
  {
    if !HeldByWaiter(c, w, n) { assert c.pending == Some(n); }
  }

  // ---------- Comparing addresses ----------

  ghost predicate Live(s: State, link: A.Link) {
    link.Some? ==> link.value < |s.address| && link.value !in s.freed
  }

  lemma {:induction false} LiveTells(s: State, a: A.Link, b: A.Link)
    requires Placed(s) && Live(s, a) && Live(s, b)
    ensures Tells(s, a, b)
  {
  }

  lemma {:induction false} HeldIsLive(s: State, link: A.Link)
    requires HeldAlive(s) && (link.Some? ==> Held(s.chain, link.value))
    ensures Live(s, link)
  {
  }

  // Both comparisons decide as identity would.
  lemma {:induction false} Compares(s: State, e: A.Event)
    requires Inv(s) && A.Enabled(s.chain, e)
    ensures e.TestSignal? ==> var task := s.chain.tasks[e.task];
                              Tells(s, task.prev, s.chain.calls[task.call].pc.prev)
    ensures e.CompareExchange? ==> Tells(s, s.chain.pending, s.chain.calls[e.call].pc.prev)
  {
    hide A.Inv, Placed, HeldAlive, Held;
    var c := s.chain;
    if e.TestSignal? {
      assert TestTells(s, e.task);
    } else if e.CompareExchange? {
      var prev := c.calls[e.call].pc.prev;
      PendingHeld(c);
      if prev.Some? { CallHolds(c, e.call, prev.value); }
      HeldIsLive(s, c.pending);
      HeldIsLive(s, prev);
      LiveTells(s, c.pending, prev);
    }
  }

  lemma {:induction false} ActIsApply(s: State, e: A.Event)
    requires Inv(s) && A.Enabled(s.chain, e)
    ensures Act(s, e) == A.Apply(s.chain, e)
  {
    Compares(s, e);
    hide Inv;
  }

  lemma {:induction false} PendingHeld(c: A.State)
    ensures c.pending.Some? ==> Held(c, c.pending.value)
  {
  }

  lemma {:induction false} CallHolds(c: A.State, i: int, n: nat)
    requires HeldByCall(c, i, n)
    ensures Held(c, n)
  {
  }

  lemma {:induction false} TaskHolds(c: A.State, t: int, n: nat)
    requires HeldByTask(c, t, n)
    ensures Held(c, n)
  {
  }

  // ---------- Preservation ----------

  ghost function Moved(s: State, e: A.Event, place: nat): State
    requires A.Enabled(s.chain, e)
  {
    s.(chain := A.Apply(s.chain, e), address := if e.Spawn? then s.address + [place] else s.address)
  }

  lemma {:induction false} KeepPlaced(s: State, e: A.Event, place: nat)
    requires Placed(s) && A.Enabled(s.chain, e) && (e.Spawn? ==> Vacant(s, place))
    ensures Placed(Moved(s, e, place))
  {
  }

  lemma {:induction false} KeepHeldAlive(s: State, e: A.Event, place: nat)
    requires A.Inv(s.chain) && Placed(s) && HeldAlive(s) && A.Enabled(s.chain, e)
    ensures HeldAlive(Moved(s, e, place))
  {
    hide A.Inv, A.Apply, A.Enabled, Held;
    var s' := Moved(s, e, place);
    forall n: nat | Held(s'.chain, n) ensures n < |s'.address| && n !in s'.freed {
      HeldBefore(s.chain, e, n);
    }
  }

  lemma {:induction false} KeepTest(s: State, e: A.Event, place: nat, t: nat)
    requires A.TasksOk(s.chain) && Placed(s) && HeldAlive(s) && A.Enabled(s.chain, e)
    requires t < |A.Apply(s.chain, e).tasks| && (t < |s.chain.tasks| ==> TestTells(s, t))
    ensures TestTells(Moved(s, e, place), t)
  {
    hide Placed, HeldAlive, A.TasksOk;
    var c := s.chain;
    if t < |c.tasks| && e.SetSignal? && c.tasks[t].call == e.call && c.tasks[t].state.AwaitSignal? {
      var mine, prev := c.tasks[t].prev, c.calls[e.call].pc.prev;
      if mine.Some? { TaskHolds(c, t, mine.value); }
      if prev.Some? { CallHolds(c, e.call, prev.value); }
      HeldIsLive(s, mine);
      HeldIsLive(s, prev);
      LiveTells(s, mine, prev);
    }
  }

  lemma {:induction false} StepKeepsInv(s: State, e: Event)
    requires Inv(s) && Enabled(s, e)
    ensures Inv(Apply(s, e))
  {
    match e {
      case Step(e', place) =>
        hide A.Inv, A.Apply, A.Enabled, Placed, HeldAlive, TestTells, Act;
        ActIsApply(s, e');
        A.StepKeepsInv(s.chain, e');
        KeepPlaced(s, e', place);
        KeepHeldAlive(s, e', place);
        assert A.TasksOk(s.chain) by { TasksOf(s.chain); }
        var s' := Moved(s, e', place);
        forall t | 0 <= t < |s'.chain.tasks| ensures TestTells(s', t) { KeepTest(s, e', place, t); }
      case Free(n) =>
        hide A.Inv, Held;
        forall t | 0 <= t < |s.chain.tasks| ensures TestTells(Apply(s, e), t) { assert TestTells(s, t); }
    }
  }

  lemma {:induction false} TasksOf(c: A.State)
    requires A.Inv(c)
    ensures A.TasksOk(c)
  {
  }

  // ---------- Runs ----------

  ghost predicate IsRun(s: State, run: seq<Event>, end: State)
    decreases |run|
  {
    if run == [] then s == end
    else Enabled(s, run[0]) && IsRun(Apply(s, run[0]), run[1..], end)
  }

  // The steps of a run that move the chain.
  function ChainRun(run: seq<Event>): seq<A.Event> {
    if run == [] then []
    else if run[0].Step? then [run[0].e] + ChainRun(run[1..])
    else ChainRun(run[1..])
  }

  /**
    Although addresses are reused, every run over addresses is a run of the chain whose futures
    are told apart by their tasks; so everything proved of that chain holds here.
   */
  lemma {:induction false} Refines(s: State, run: seq<Event>, end: State)
    requires Inv(s) && IsRun(s, run, end)
    ensures Inv(end) && A.IsRun(s.chain, ChainRun(run), end.chain)
    decreases |run|
  {
    hide Inv, A.Apply, A.Enabled, Act;
    if run != [] {
      var next := Apply(s, run[0]);
      StepKeepsInv(s, run[0]);
      Refines(next, run[1..], end);
      if run[0].Step? {
        ActIsApply(s, run[0].e);
        assert ([run[0].e] + ChainRun(run[1..]))[1..] == ChainRun(run[1..]);
      }
    }
  }

  ghost predicate Reachable(s: State) {
    exists run :: IsRun(Init, run, s)
  }

  lemma {:induction false} InitInv()
    ensures Inv(Init)
  {
  }

  lemma {:induction false} ReachableRefines(s: State)
    requires Reachable(s)
    ensures Inv(s) && A.Reachable(s.chain)
  {
    var run :| IsRun(Init, run, s);
    InitInv();
    Refines(Init, run, s);
  }

  /** At the signal test equal addresses mean the same future, and so does the compare-exchange. */
  lemma {:induction false} EqualAddressesSameFuture(s: State, e: A.Event)
    requires Reachable(s) && A.Enabled(s.chain, e)
    ensures e.TestSignal? ==> var task := s.chain.tasks[e.task];
                              Tells(s, task.prev, s.chain.calls[task.call].pc.prev)
    ensures e.CompareExchange? ==> Tells(s, s.chain.pending, s.chain.calls[e.call].pc.prev)
  {
    ReachableRefines(s);
    Compares(s, e);
  }

  // ---------- Reuse ----------

  lemma {:induction false} RunExtends(s: State, run: seq<Event>, mid: State, e: Event)
    requires IsRun(s, run, mid) && Enabled(mid, e)
    ensures IsRun(s, run + [e], Apply(mid, e))
    decreases |run|
  {
    hide Enabled, Apply;
    if run == [] {
      assert (run + [e])[0] == e && (run + [e])[1..] == [];
      assert IsRun(Apply(mid, e), [], Apply(mid, e));
    } else {
      RunExtends(Apply(s, run[0]), run[1..], mid, e);
      assert (run + [e])[0] == run[0] && (run + [e])[1..] == run[1..] + [e];
    }
  }

  lemma {:induction false} Goes(s: State, e: Event, next: State)
    requires Reachable(s) && Enabled(s, e) && Apply(s, e) == next
    ensures Reachable(next)
  {
    hide Enabled, Apply;
    var run :| IsRun(Init, run, s);
    RunExtends(Init, run, s, e);
  }

  function After(s: State, chain: A.State, place: nat): State {
    State(chain, s.address + [place], s.freed)
  }

  function Start(s: State): State {
    s.(chain := P.Started(s.chain, A.Spawning(s.chain.pending)))
  }

  lemma {:induction false} AppendStarts(s: State)
    requires Reachable(s) && !s.chain.canceled
    ensures Reachable(Start(s))
  {
    hide Reachable;
    var x, c := s.chain, |s.chain.calls|;
    Goes(s, Step(A.Enter(false), 0), s.(chain := P.Started(x, A.Entered)));
    Goes(s.(chain := P.Started(x, A.Entered)), Step(A.CheckCanceled(c), 0), s.(chain := P.Started(x, A.Loading)));
    Goes(s.(chain := P.Started(x, A.Loading)), Step(A.LoadPending(c), 0), Start(s));
  }

  // A call of append that nobody disturbs, with its future at a vacant place.
  lemma {:induction false} AppendAlone(s: State, place: nat)
    requires Reachable(s) && !s.chain.canceled && |s.address| == |s.chain.tasks| && Vacant(s, place)
    ensures Reachable(After(s, P.Chained(s.chain, A.Signalled(s.chain.pending, |s.chain.tasks|), A.AwaitPredecessor), place))
  {
    AppendStarts(s);
    hide Reachable;
    var x, c, t := s.chain, |s.chain.calls|, |s.chain.tasks|;
    var s4 := After(s, P.Spawned(x, A.Exchanging(x.pending, t)), place);
    Goes(Start(s), Step(A.Spawn(c), place), s4);
    var s5 := After(s, P.Chained(x, A.Signalling(x.pending, t), A.AwaitSignal), place);
    Goes(s4, Step(A.CompareExchange(c), 0), s5);
    var s6 := After(s, P.Chained(x, A.Signalled(x.pending, t), A.AwaitSignal), place);
    Goes(s5, Step(A.SetSignal(c), 0), s6);
    Goes(s6, Step(A.TestSignal(t), 0), After(s, P.Chained(x, A.Signalled(x.pending, t), A.AwaitPredecessor), place));
  }

  // The chain of two callables, the first of which has returned and the second is running.
  const Two := A.State(Some(1), false, [A.Call(false, A.Signalled(None, 0)), A.Call(false, A.Signalled(Some(0), 1))],
                       [A.Task(0, None, A.Succeeded), A.Task(1, Some(0), A.Running)], [], [0, 1], [A.Start(0), A.Stop(0), A.Start(1)])

  lemma {:induction false} FirstWaits()
    ensures Reachable(State(P.Chained(A.Init, A.Signalled(None, 0), A.AwaitPredecessor), [1], {}))
  {
    assert IsRun(Init, [], Init);
    AppendAlone(Init, 1);
    hide Reachable;
    assert [] + [1] == [1];
  }

  lemma {:induction false} FirstReturns()
    ensures Reachable(State(P.One(A.Succeeded), [1], {}))
  {
    FirstWaits();
    hide Reachable;
    var s1 := State(P.Chained(A.Init, A.Signalled(None, 0), A.AwaitPredecessor), [1], {});
    var s2 := State(P.One(A.Running).(log := [A.Start(0)]), [1], {});
    Goes(s1, Step(A.JoinPredecessor(0), 0), s2);
    Goes(s2, Step(A.Finish(0, false), 0), State(P.One(A.Succeeded), [1], {}));
  }

  lemma {:induction false} SecondRuns()
    ensures Reachable(State(Two, [1, 2], {}))
  {
    FirstReturns();
    var s := State(P.One(A.Succeeded), [1], {});
    AppendAlone(s, 2);
    hide Reachable;
    var c := P.Chained(s.chain, A.Signalled(Some(0), 1), A.AwaitPredecessor);
    assert After(s, c, 2) == State(c, [1, 2], {});
    assert A.Apply(c, A.JoinPredecessor(1)) == Two;
    Goes(State(c, [1, 2], {}), Step(A.JoinPredecessor(1), 0), State(Two, [1, 2], {}));
  }

  /** Addresses are reused: the third of three futures stands where the first one stood. */
  lemma {:induction false} AddressReused()
    ensures exists s :: Reachable(s) && s.address == [1, 2, 1] && s.chain.order == [0, 1, 2]
  {
    SecondRuns();
    hide Reachable;
    var s := State(Two, [1, 2], {0});
    NobodyHoldsFirst(Two);
    assert Enabled(State(Two, [1, 2], {}), Free(0)) by { hide Held; }
    Goes(State(Two, [1, 2], {}), Free(0), s);
    hide Held;
    AppendAlone(s, 1);
    var end := After(s, P.Chained(Two, A.Signalled(Some(1), 2), A.AwaitPredecessor), 1);
    assert end.address == [1, 2, 1] && end.chain.order == [0, 1, 2];
  }

  lemma {:induction false} NobodyHoldsFirst(c: A.State)
    requires c.pending == Some(1) && c.waiters == [] && |c.tasks| == 2 && c.tasks[0].call == 0
    requires c.calls == [A.Call(false, A.Signalled(None, 0)), A.Call(false, A.Signalled(Some(0), 1))]
    requires c.tasks[0].state.Succeeded? && c.tasks[1].state.Running?
    ensures !Held(c, 0)
  {
  }
}
