/**
  What single events of the task chain (core/async_chain.hpp) lead to: what a callable that throws
  or returns does to those behind it, what a load of the head promises a waiter, what setting
  canceled_ does to later calls; and that from everywhere the chain can be run to its end.
 */
module AsyncProgress {
  import opened AsyncChain
  import opened Wrappers

  // ---------- Runs in pieces ----------

  lemma {:induction false} RunsJoin(s: State, a: seq<Event>, mid: State, b: seq<Event>, end: State)
    requires IsRun(s, a, mid) && IsRun(mid, b, end)
    ensures IsRun(s, a + b, end)
    decreases |a|
  {
    hide Enabled, Apply;
    if a == [] {
      assert a + b == b;
    } else {
      RunsJoin(Apply(s, a[0]), a[1..], mid, b, end);
      assert (a + b)[0] == a[0] && (a + b)[1..] == a[1..] + b;
    }
  }

  lemma {:induction false} RunOfOne(s: State, e: Event)
    requires Enabled(s, e)
    ensures IsRun(s, [e], Apply(s, e))
  {
    hide Enabled, Apply;
    assert [e][0] == e && [e][1..] == [];
    assert IsRun(Apply(s, e), [], Apply(s, e));
  }

  // ---------- What later steps cannot undo ----------

  // Nodes, calls and waiters are only added, and what has ended stays as it is.
  ghost predicate Extends(s: State, s': State) {
    && |s.tasks| <= |s'.tasks| && |s.calls| <= |s'.calls| && |s.waiters| <= |s'.waiters|
    && s.order <= s'.order && (s.canceled ==> s'.canceled)
    && (forall t :: 0 <= t < |s.tasks| ==>
          && s'.tasks[t].call == s.tasks[t].call && s'.tasks[t].prev == s.tasks[t].prev
          && (Ended(s.tasks[t].state) ==> s'.tasks[t].state == s.tasks[t].state))
    && (forall c :: 0 <= c < |s.calls| ==> s'.calls[c].packaged == s.calls[c].packaged)
    && (forall w :: 0 <= w < |s.waiters| ==> s'.waiters[w].head == s.waiters[w].head)
  }

  lemma {:induction false} StepExtends(s: State, e: Event)
    requires Enabled(s, e)
    ensures Extends(s, Apply(s, e))
  {
  }

  lemma {:induction false} ExtendsFurther(a: State, b: State, c: State)
    requires Extends(a, b) && Extends(b, c)
    ensures Extends(a, c)
  {
  }

  lemma {:induction false} RunExtends(s: State, run: seq<Event>, end: State)
    requires IsRun(s, run, end)
    ensures Extends(s, end)
    decreases |run|
  {
    hide Enabled, Apply, Extends;
    if run == [] {
      assert Extends(s, s) by { ExtendsItself(s); }
    } else {
      StepExtends(s, run[0]);
      RunExtends(Apply(s, run[0]), run[1..], end);
      ExtendsFurther(s, Apply(s, run[0]), end);
    }
  }

  lemma {:induction false} ExtendsItself(s: State)
    ensures Extends(s, s)
  {
  }

  // After its first event a run goes on from a reachable state.
  lemma {:induction false} AfterFirst(s: State, run: seq<Event>, end: State)
    requires Reachable(s) && run != [] && IsRun(s, run, end)
    ensures Inv(s) && Enabled(s, run[0]) && Inv(Apply(s, run[0])) && Inv(end)
    ensures Extends(s, Apply(s, run[0])) && Extends(Apply(s, run[0]), end)
  {
    ReachableInv(s);
    hide Enabled, Apply, Extends, Inv;
    StepKeepsInv(s, run[0]);
    StepExtends(s, run[0]);
    RunExtends(Apply(s, run[0]), run[1..], end);
    RunKeepsInv(Apply(s, run[0]), run[1..], end);
  }

  // ---------- A callable leaves ----------

  // Leaving like this makes the next in the chain fail: the exception is not caught on the way.
  predicate Breaks(s: State, e: Event)
    requires Enabled(s, e) && e.Finish?
  {
    e.threw && !s.calls[s.tasks[e.task].call].packaged
  }

  /**
    A callable that throws, and is no packaged task, is the last of its chain: in every later
    state none behind it has been entered, and each of those that has ended was aborted.
   */
  lemma {:induction false} ThrowStopsSuccessors(s: State, run: seq<Event>, end: State, i: nat, j: nat)
    requires Reachable(s) && IsRun(s, run, end) && run != [] && run[0].Finish? && Breaks(s, run[0])
    requires i < j < |end.order| && end.order[i] == run[0].task
    ensures end.order[j] < |end.tasks|
    ensures !HasRun(end.tasks[end.order[j]].state)
    ensures Ended(end.tasks[end.order[j]].state) ==> end.tasks[end.order[j]].state.Aborted?
  {
    AfterFirst(s, run, end);
    var t := run[0].task;
    assert Ended(Apply(s, run[0]).tasks[t].state) && !Apply(s, run[0]).tasks[t].state.Succeeded?;
    assert end.tasks[t].state == Apply(s, run[0]).tasks[t].state;
    hide Enabled, Apply, Extends;
    ChainedIsWinner(end, end.order[j]);
    assert Linked(end.tasks, end.order) && forall u :: 0 <= u < |end.tasks| ==> ExecOk(end.tasks, u);
    LaterIdle(end.tasks, end.order, i, j);
  }

  /**
    What the callable in front did decides what joining it leads to: after one that returned, or
    a packaged one however it left, the callable is entered; after one that threw it is not.
   */
  lemma {:induction false} JoinAfter(s: State, run: seq<Event>, end: State, u: nat)
    requires Reachable(s) && IsRun(s, run, end) && run != [] && run[0].Finish? && Enabled(s, run[0])
    requires Enabled(end, JoinPredecessor(u)) && end.tasks[u].prev == Some(run[0].task)
    ensures var next := Apply(end, JoinPredecessor(u));
            if Breaks(s, run[0]) then next.tasks[u].state.Aborted? && next.log == end.log
            else next.tasks[u].state.Running? && next.log == end.log + [Start(u)]
  {
    AfterFirst(s, run, end);
    var t := run[0].task;
    assert Ended(Apply(s, run[0]).tasks[t].state);
    assert end.tasks[t].state == Apply(s, run[0]).tasks[t].state;
  }

  // The first of a chain is entered, and so is one behind a task that has returned; an abort goes on.
  lemma {:induction false} JoinMeans(s: State, u: nat)
    requires Reachable(s) && Enabled(s, JoinPredecessor(u))
    ensures var prev, next := s.tasks[u].prev, Apply(s, JoinPredecessor(u));
            && (prev.None? || s.tasks[prev.value].state.Succeeded? <==> next.tasks[u].state.Running?)
            && (prev.Some? && (s.tasks[prev.value].state.Threw? || s.tasks[prev.value].state.Aborted?) <==>
                next.tasks[u].state.Aborted?)
            && next.log == s.log + if next.tasks[u].state.Running? then [Start(u)] else []
  {
    ReachableInv(s);
    assert TaskOk(s, u);
    assert CallOk(s, s.tasks[u].call);
    if s.tasks[u].prev.Some? { PredecessorChained(s, u); }
  }

  // A task that has passed the test stands in the chain behind the one it captured.
  lemma {:induction false} PredecessorChained(s: State, u: nat)
    requires Inv(s) && u < |s.tasks| && s.tasks[u].prev.Some?
    requires !s.tasks[u].state.AwaitSignal? && !s.tasks[u].state.Skipped?
    ensures s.tasks[u].prev.value in s.order && s.tasks[u].prev.value < |s.tasks|
    ensures !s.tasks[s.tasks[u].prev.value].state.Skipped?
  {
    var i := ActiveIsChained(s, u);
    assert s.tasks[u].prev == LinkBefore(s.order, i);
    ChainedIsWinner(s, s.order[i - 1]);
  }

  // ---------- The signal ----------

  // Once told, the installed task of a call goes on and every other one ends.
  lemma {:induction false} TestDecides(s: State, t: nat)
    requires Reachable(s) && Enabled(s, TestSignal(t))
    ensures Apply(s, TestSignal(t)).tasks[t].state == if t in s.order then AwaitPredecessor else Skipped
  {
    ReachableInv(s);
    assert TaskOk(s, t);
    assert CallOk(s, s.tasks[t].call);
  }

  // ---------- Waiting and canceling ----------

  /** wait returns only when all tasks that were in the chain when it loaded the head have ended. */
  lemma {:induction false} WaitFromLoad(s: State, run: seq<Event>, end: State, i: nat)
    requires Reachable(s) && IsRun(s, run, end) && run != [] && run[0] == LoadHead
    requires |s.waiters| < |end.waiters| && end.waiters[|s.waiters|].Released? && i < |s.order|
    ensures s.order[i] < |end.tasks| && Ended(end.tasks[s.order[i]].state)
  {
    AfterFirst(s, run, end);
    var w := |s.waiters|;
    assert Apply(s, LoadHead).waiters[w].head == s.pending == LinkBefore(s.order, |s.order|);
    assert end.waiters[w].head == Some(s.order[|s.order| - 1]) && s.order <= end.order;
    hide Enabled, Apply, Extends;
    assert WaiterOk(end, end.waiters[w]);
    ChainedIsWinner(end, end.order[|s.order| - 1]);
    assert Linked(end.tasks, end.order) && forall t :: 0 <= t < |end.tasks| ==> ExecOk(end.tasks, t);
    EndedBefore(end.tasks, end.order, i, |s.order| - 1);
  }

  /**
    From the step that sets canceled_ on, no call that had not passed its test joins the chain.
   */
  lemma {:induction false} CancelStops(s: State, run: seq<Event>, end: State, c: nat)
    requires Reachable(s) && IsRun(s, run, end) && run != [] && run[0] == Cancel
    requires c >= |s.calls| || s.calls[c].pc.Entered? || s.calls[c].pc.Refused?
    ensures c < |end.calls| ==> end.calls[c].pc.Entered? || end.calls[c].pc.Refused?
    ensures forall t :: t in end.order ==> t < |end.tasks| && end.tasks[t].call != c
  {
    AfterFirst(s, run, end);
    CancelRefuses(Apply(s, Cancel), run[1..], end, c);
  }

  // Nothing else sets canceled_, and no call is refused before it is.
  lemma {:induction false} CanceledIff(run: seq<Event>, end: State)
    requires IsRun(Init, run, end)
    ensures end.canceled <==> Cancel in run
    ensures (exists c :: 0 <= c < |end.calls| && end.calls[c].pc.Refused?) ==> end.canceled
  {
    CanceledSince(Init, run, end);
  }

  ghost predicate RefusedOnlyCanceled(s: State) {
    forall c :: 0 <= c < |s.calls| && s.calls[c].pc.Refused? ==> s.canceled
  }

  lemma {:induction false} CanceledSince(s: State, run: seq<Event>, end: State)
    requires IsRun(s, run, end) && RefusedOnlyCanceled(s)
    ensures RefusedOnlyCanceled(end) && (end.canceled <==> s.canceled || Cancel in run)
    decreases |run|
  {
    if run != [] {
      CanceledSince(Apply(s, run[0]), run[1..], end);
      assert run == [run[0]] + run[1..];
    }
  }

  // A call keeps the kind of callable it was made with.
  lemma {:induction false} CallKeepsKind(s: State, run: seq<Event>, end: State)
    requires Reachable(s) && IsRun(s, run, end) && run != [] && run[0].Enter?
    ensures |s.calls| < |end.calls| && end.calls[|s.calls|].packaged == run[0].packaged
  {
    AfterFirst(s, run, end);
  }

  // ---------- A call of append runs to its end by itself ----------

  predicate CallSettled(pc: AppendPc) {
    pc.Refused? || pc.Signalled?
  }

  function NextOfCall(s: State, c: nat): Event
    requires c < |s.calls|
  {
    match s.calls[c].pc
    case Entered => CheckCanceled(c)
    case Loading => LoadPending(c)
    case Spawning(_) => Spawn(c)
    case Exchanging(_, _) => CompareExchange(c)
    case _ => SetSignal(c)
  }

  // How many steps a call needs when nobody else moves; a stale head costs one more round.
  function CallLeft(s: State, c: nat): nat
    requires c < |s.calls|
  {
    match s.calls[c].pc
    case Entered => 7
    case Loading => 6
    case Spawning(prev) => if prev == s.pending then 3 else 5
    case Exchanging(prev, _) => if prev == s.pending then 2 else 4
    case Signalling(_, _) => 1
    case _ => 0
  }

  // Everything but call c, the nodes it creates and the one it installs is as it was.
  ghost predicate OnlyCall(s: State, s': State, c: nat) {
    && |s'.calls| == |s.calls| && s'.waiters == s.waiters && s'.canceled == s.canceled && s'.log == s.log
    && (forall d :: 0 <= d < |s.calls| && d != c ==> s'.calls[d] == s.calls[d])
  }

  lemma {:induction false} CallStep(s: State, c: nat)
    requires Inv(s) && c < |s.calls| && !CallSettled(s.calls[c].pc)
    ensures var e := NextOfCall(s, c);
            && Enabled(s, e) && OnlyCall(s, Apply(s, e), c)
            && CallLeft(Apply(s, e), c) < CallLeft(s, c)
            && (s.calls[c].pc.Entered? ==> (Apply(s, e).calls[c].pc.Refused? <==> s.canceled))
            && (!s.calls[c].pc.Entered? ==> !Apply(s, e).calls[c].pc.Refused?)
  {
  }

  /**
    append is lock-free for whoever runs alone: from everywhere a call can be run to its end
    without a step of anybody else, refused exactly if it has still to test a set canceled_.
   */
  lemma {:induction false} CallCompletes(s: State, c: nat) returns (run: seq<Event>, end: State)
    requires Inv(s) && c < |s.calls|
    ensures IsRun(s, run, end) && Inv(end) && OnlyCall(s, end, c) && CallSettled(end.calls[c].pc)
    ensures end.calls[c].pc.Refused? <==> s.calls[c].pc.Refused? || (s.calls[c].pc.Entered? && s.canceled)
    decreases CallLeft(s, c)
  {
    if CallSettled(s.calls[c].pc) {
      run, end := [], s;
    } else {
      var e := NextOfCall(s, c);
      CallStep(s, c);
      StepKeepsInv(s, e);
      hide Enabled, Apply, Inv, CallLeft, NextOfCall;
      var rest;
      rest, end := CallCompletes(Apply(s, e), c);
      RunOfOne(s, e);
      run := [e] + rest;
      RunsJoin(s, [e], Apply(s, e), rest, end);
    }
  }

  ghost predicate CallsSettled(s: State, n: nat) {
    n <= |s.calls| && forall c :: 0 <= c < n ==> CallSettled(s.calls[c].pc)
  }

  lemma {:induction false} CallsComplete(s: State, n: nat) returns (run: seq<Event>, end: State)
    requires Inv(s) && n <= |s.calls|
    ensures IsRun(s, run, end) && Inv(end) && |end.calls| == |s.calls| && |end.waiters| == |s.waiters| && CallsSettled(end, n)
  {
    hide Enabled, Apply, Inv;
    if n == 0 {
      run, end := [], s;
    } else {
      var a, mid := CallsComplete(s, n - 1);
      var b;
      b, end := CallCompletes(mid, n - 1);
      run := a + b;
      RunsJoin(s, a, mid, b, end);
    }
  }

  // ---------- Then every task runs to its end ----------

  function NextOfTask(s: State, t: nat): Event
    requires t < |s.tasks|
  {
    match s.tasks[t].state
    case AwaitSignal => TestSignal(t)
    case AwaitPredecessor => JoinPredecessor(t)
    case _ => Finish(t, false)
  }

  function TaskLeft(state: TaskState): nat {
    match state
    case AwaitSignal => 3
    case AwaitPredecessor => 2
    case Running => 1
    case _ => 0
  }

  ghost predicate OnlyTask(s: State, s': State, t: nat) {
    && s'.calls == s.calls && |s'.tasks| == |s.tasks| && |s'.waiters| == |s.waiters|
    && (forall u :: 0 <= u < |s.tasks| && u != t ==> s'.tasks[u] == s.tasks[u])
  }

  ghost predicate TasksEnded(s: State, n: nat) {
    n <= |s.tasks| && forall t :: 0 <= t < n ==> Ended(s.tasks[t].state)
  }

  lemma {:induction false} TaskStep(s: State, t: nat)
    requires Inv(s) && CallsSettled(s, |s.calls|) && t < |s.tasks| && TasksEnded(s, t) && !Ended(s.tasks[t].state)
    ensures var e := NextOfTask(s, t);
            && Enabled(s, e) && OnlyTask(s, Apply(s, e), t)
            && TaskLeft(Apply(s, e).tasks[t].state) < TaskLeft(s.tasks[t].state)
  {
    assert TaskOk(s, t);
  }

  lemma {:induction false} TaskEnds(s: State, t: nat) returns (run: seq<Event>, end: State)
    requires Inv(s) && CallsSettled(s, |s.calls|) && t < |s.tasks| && TasksEnded(s, t)
    ensures IsRun(s, run, end) && Inv(end) && OnlyTask(s, end, t) && Ended(end.tasks[t].state)
    decreases TaskLeft(s.tasks[t].state)
  {
    if Ended(s.tasks[t].state) {
      run, end := [], s;
    } else {
      var e := NextOfTask(s, t);
      TaskStep(s, t);
      StepKeepsInv(s, e);
      hide Enabled, Apply, Inv, NextOfTask;
      var rest;
      rest, end := TaskEnds(Apply(s, e), t);
      RunOfOne(s, e);
      run := [e] + rest;
      RunsJoin(s, [e], Apply(s, e), rest, end);
    }
  }

  lemma {:induction false} TasksEnd(s: State, n: nat) returns (run: seq<Event>, end: State)
    requires Inv(s) && CallsSettled(s, |s.calls|) && n <= |s.tasks|
    ensures IsRun(s, run, end) && Inv(end) && end.calls == s.calls && TasksEnded(end, n)
    ensures |end.tasks| == |s.tasks| && |end.waiters| == |s.waiters|
  {
    hide Enabled, Apply, Inv;
    if n == 0 {
      run, end := [], s;
    } else {
      var a, mid := TasksEnd(s, n - 1);
      var b;
      b, end := TaskEnds(mid, n - 1);
      run := a + b;
      RunsJoin(s, a, mid, b, end);
    }
  }

  // ---------- Then every wait returns ----------

  ghost predicate WaitsReturned(s: State, n: nat) {
    n <= |s.waiters| && forall w :: 0 <= w < n ==> s.waiters[w].Released?
  }

  lemma {:induction false} WaitStep(s: State, w: nat)
    requires Inv(s) && TasksEnded(s, |s.tasks|) && w < |s.waiters| && s.waiters[w].Waiting?
    ensures Enabled(s, Release(w))
    ensures var next := Apply(s, Release(w));
            && next.calls == s.calls && next.tasks == s.tasks && |next.waiters| == |s.waiters| && next.waiters[w].Released?
            && forall v :: 0 <= v < |s.waiters| && v != w ==> next.waiters[v] == s.waiters[v]
  {
    assert WaiterOk(s, s.waiters[w]);
  }

  lemma {:induction false} WaitsReturn(s: State, n: nat) returns (run: seq<Event>, end: State)
    requires Inv(s) && TasksEnded(s, |s.tasks|) && n <= |s.waiters|
    ensures IsRun(s, run, end) && Inv(end) && end.calls == s.calls && end.tasks == s.tasks
    ensures |end.waiters| == |s.waiters| && WaitsReturned(end, n)
  {
    hide Enabled, Apply, Inv;
    if n == 0 {
      run, end := [], s;
    } else {
      var a, mid := WaitsReturn(s, n - 1);
      if mid.waiters[n - 1].Waiting? {
        WaitStep(mid, n - 1);
        StepKeepsInv(mid, Release(n - 1));
        RunOfOne(mid, Release(n - 1));
        end := Apply(mid, Release(n - 1));
        run := a + [Release(n - 1)];
        RunsJoin(s, a, mid, [Release(n - 1)], end);
      } else {
        run, end := a, mid;
      }
    }
  }

  ghost predicate Settled(s: State) {
    CallsSettled(s, |s.calls|) && TasksEnded(s, |s.tasks|) && WaitsReturned(s, |s.waiters|)
  }

  // From everywhere there is a run at whose end everybody is done.
  lemma {:induction false} Settles(s: State) returns (run: seq<Event>, end: State)
    requires Inv(s)
    ensures IsRun(s, run, end) && Settled(end)
    ensures |end.calls| == |s.calls| && |end.waiters| == |s.waiters| && Extends(s, end)
  {
    hide Enabled, Apply, Inv, Extends;
    var a, s1 := CallsComplete(s, |s.calls|);
    var b, s2 := TasksEnd(s1, |s1.tasks|);
    var c;
    c, end := WaitsReturn(s2, |s2.waiters|);
    run := a + (b + c);
    RunsJoin(s1, b, s2, c, end);
    RunsJoin(s, a, s1, b + c, end);
    RunExtends(s, run, end);
  }

  /**
    The chain never gets stuck: from every reachable state there is a run, with no new calls or
    waiters, at whose end every call of append has returned, every task has ended and every wait
    has returned.
   */
  lemma {:induction false} EverythingSettles(s: State) returns (run: seq<Event>, end: State)
    requires Reachable(s)
    ensures IsRun(s, run, end) && Settled(end)
    ensures |end.calls| == |s.calls| && |end.waiters| == |s.waiters| && Extends(s, end)
  {
    ReachableInv(s);
    run, end := Settles(s);
  }

  // ---------- Whoever asks is served ----------

  // A run that begins with this event.
  ghost predicate Begins(s: State, e: Event, run: seq<Event>, end: State) {
    run != [] && run[0] == e && IsRun(s, run, end)
  }

  lemma {:induction false} BeginsWith(s: State, e: Event, rest: seq<Event>, end: State)
    requires Enabled(s, e) && IsRun(Apply(s, e), rest, end)
    ensures Begins(s, e, [e] + rest, end)
  {
    hide Enabled, Apply;
    RunOfOne(s, e);
    RunsJoin(s, [e], Apply(s, e), rest, end);
  }

  /** append may be called at any time, and joins the chain exactly if canceled_ is not set. */
  lemma {:induction false} AppendServed(s: State, packaged: bool) returns (run: seq<Event>, end: State)
    requires Inv(s)
    ensures Begins(s, Enter(packaged), run, end) && |s.calls| < |end.calls|
    ensures if s.canceled then end.calls[|s.calls|].pc.Refused? else end.calls[|s.calls|].pc.Signalled?
  {
    var e, c := Enter(packaged), |s.calls|;
    var entered := Apply(s, e);
    assert entered.calls[c].pc.Entered? && entered.canceled == s.canceled;
    StepKeepsInv(s, e);
    hide Enabled, Apply, Inv;
    var rest;
    rest, end := CallCompletes(entered, c);
    run := [e] + rest;
    BeginsWith(s, e, rest, end);
  }

  /** wait may be called at any time, and can always return. */
  lemma {:induction false} WaitServed(s: State) returns (run: seq<Event>, end: State)
    requires Inv(s)
    ensures Begins(s, LoadHead, run, end) && |s.waiters| < |end.waiters| && end.waiters[|s.waiters|].Released?
  {
    StepKeepsInv(s, LoadHead);
    assert |Apply(s, LoadHead).waiters| == |s.waiters| + 1;
    hide Enabled, Apply, Inv, Extends;
    var rest;
    rest, end := Settles(Apply(s, LoadHead));
    run := [LoadHead] + rest;
    BeginsWith(s, LoadHead, rest, end);
  }

  // So may abort_and_wait.
  lemma {:induction false} AbortServed(s: State) returns (run: seq<Event>, end: State)
    requires Inv(s)
    ensures Begins(s, Cancel, run, end) && end.canceled && Settled(end)
  {
    StepKeepsInv(s, Cancel);
    assert Apply(s, Cancel).canceled;
    hide Enabled, Apply, Inv;
    var rest;
    rest, end := Settles(Apply(s, Cancel));
    run := [Cancel] + rest;
    BeginsWith(s, Cancel, rest, end);
  }

  // ---------- Two calls, one after the other ----------

  // A new call, and a new task of it, appended to a chain nobody else works on.
  function Started(s: State, pc: AppendPc): State {
    s.(calls := s.calls + [Call(false, pc)])
  }

  function Spawned(s: State, pc: AppendPc): State {
    Started(s, pc).(tasks := s.tasks + [Task(|s.calls|, s.pending, AwaitSignal)])
  }

  function Chained(s: State, pc: AppendPc, state: TaskState): State {
    Started(s, pc).(tasks := s.tasks + [Task(|s.calls|, s.pending, state)], pending := Some(|s.tasks|), order := s.order + [|s.tasks|])
  }

  lemma {:induction false} Goes(s: State, e: Event, next: State)
    requires Reachable(s) && Enabled(s, e) && Apply(s, e) == next
    ensures Reachable(next)
  {
    hide Enabled, Apply;
    var run :| IsRun(Init, run, s);
    RunOfOne(s, e);
    RunsJoin(Init, run, s, [e], next);
  }

  // Without anybody in its way append installs its task behind the head it found.
  lemma {:induction false} AppendAlone(s: State)
    requires Reachable(s) && !s.canceled
    ensures Reachable(Chained(s, Signalled(s.pending, |s.tasks|), AwaitPredecessor))
  {
    hide Reachable;
    var c, t := |s.calls|, |s.tasks|;
    Goes(s, Enter(false), Started(s, Entered));
    Goes(Started(s, Entered), CheckCanceled(c), Started(s, Loading));
    Goes(Started(s, Loading), LoadPending(c), Started(s, Spawning(s.pending)));
    Goes(Started(s, Spawning(s.pending)), Spawn(c), Spawned(s, Exchanging(s.pending, t)));
    Goes(Spawned(s, Exchanging(s.pending, t)), CompareExchange(c), Chained(s, Signalling(s.pending, t), AwaitSignal));
    Goes(Chained(s, Signalling(s.pending, t), AwaitSignal), SetSignal(c), Chained(s, Signalled(s.pending, t), AwaitSignal));
    Goes(Chained(s, Signalled(s.pending, t), AwaitSignal), TestSignal(t), Chained(s, Signalled(s.pending, t), AwaitPredecessor));
  }

  // The chain of one callable that has left, by throwing or not.
  function One(state: TaskState): State {
    State(Some(0), false, [Call(false, Signalled(None, 0))], [Task(0, None, state)], [], [0], [Start(0), Stop(0)])
  }

  lemma {:induction false} OneLeaves(threw: bool)
    ensures Reachable(One(if threw then Threw else Succeeded))
  {
    assert IsRun(Init, [], Init);
    AppendAlone(Init);
    hide Reachable;
    var a := Chained(Init, Signalled(None, 0), AwaitPredecessor);
    var b := One(Running).(log := [Start(0)]);
    Goes(a, JoinPredecessor(0), b);
    Goes(b, Finish(0, threw), One(if threw then Threw else Succeeded));
  }

  /** It happens: behind a callable that threw the next one is aborted; behind one that returned it runs. */
  lemma {:induction false} AbortHappens(threw: bool)
    ensures exists s :: Reachable(s) && s.order == [0, 1] &&
              if threw then s.tasks == [Task(0, None, Threw), Task(1, Some(0), Aborted)]
              else s.tasks == [Task(0, None, Succeeded), Task(1, Some(0), Running)]
  {
    var s := One(if threw then Threw else Succeeded);
    OneLeaves(threw);
    AppendAlone(s);
    hide Reachable;
    var before := Chained(s, Signalled(Some(0), 1), AwaitPredecessor);
    var after := Apply(before, JoinPredecessor(1));
    Goes(before, JoinPredecessor(1), after);
    assert after.order == [0, 1];
  }
}
