/**
  The futures that append with use_future_tag hands out (core/async_chain.hpp): what becomes of
  each while the chain runs.
 */
module AsyncFutures {
  import A = AsyncChain

  // Broken: the packaged task was destroyed without having run.
  datatype Outcome = NoFuture | Unset | Value | Exception | Broken

  datatype State = State(chain: A.State, futures: seq<Outcome>)

  const Init := State(A.Init, [])

  predicate Enabled(s: State, e: A.Event) {
    A.Enabled(s.chain, e)
  }

  // A callable that is no packaged task has no future.
  function Settle(futures: seq<Outcome>, i: nat, outcome: Outcome): (r: seq<Outcome>)
    ensures |r| == |futures|
  {
    if i < |futures| && futures[i] != NoFuture then futures[i := outcome] else futures
  }

  function Apply(s: State, e: A.Event): State
    requires Enabled(s, e)
  {
    var c := A.Apply(s.chain, e);
    var futures :=
      match e
      case Enter(packaged) => s.futures + [if packaged then Unset else NoFuture]
      // the callable is dropped with the call
      case CheckCanceled(i) => if s.chain.canceled then Settle(s.futures, i, Broken) else s.futures
      // the handler moves the packaged task out of its holder and destroys it
      case JoinPredecessor(t) =>
        if c.tasks[t].state.Aborted? then Settle(s.futures, c.tasks[t].call, Broken) else s.futures
      // the packaged task keeps what its callable returned or threw
      case Finish(t, threw) => Settle(s.futures, s.chain.tasks[t].call, if threw then Exception else Value)
      case _ => s.futures;
    State(c, futures)
  }

  // A future is settled exactly when its call has been refused or its installed task has ended.
  ghost predicate FutureOk(s: State, i: nat)
    requires i < |s.chain.calls| && i < |s.futures|
  {
    var call, f := s.chain.calls[i], s.futures[i];
    if !call.packaged then f == NoFuture
    else
      match call.pc
      case Refused => f == Broken
      case Signalling(_, node) => node < |s.chain.tasks| && TaskSays(s.chain.tasks[node].state, f)
      case Signalled(_, node) => node < |s.chain.tasks| && TaskSays(s.chain.tasks[node].state, f)
      case _ => f == Unset
  }

  predicate TaskSays(state: A.TaskState, f: Outcome) {
    match state
    case Succeeded => f == Value || f == Exception
    case Aborted => f == Broken
    case _ => f == Unset
  }

  ghost predicate Inv(s: State) {
    && A.Inv(s.chain) && |s.futures| == |s.chain.calls|
    && forall i :: 0 <= i < |s.chain.calls| ==> FutureOk(s, i)
  }

  // ---------- Preservation ----------

  // The task an event is about belongs to a call; if it goes on past the test, it is that call's
  // installed task.
  lemma {:induction false} ActiveTask(c: A.State, t: nat)
    requires A.TasksOk(c) && t < |c.tasks| && !c.tasks[t].state.AwaitSignal? && !c.tasks[t].state.Skipped?
    ensures c.tasks[t].call < |c.calls|
    ensures c.calls[c.tasks[t].call].pc.Signalled? && c.calls[c.tasks[t].call].pc.node == t
  {
    assert A.TaskOk(c, t);
  }

  lemma {:induction false} InstalledTask(c: A.State, i: nat)
    requires A.CallsOk(c) && A.TasksOk(c) && i < |c.calls|
    ensures var pc := c.calls[i].pc;
            && (pc.Exchanging? || pc.Signalling? || pc.Signalled? ==> pc.node < |c.tasks| && c.tasks[pc.node].call == i)
            && (pc.Exchanging? ==> c.tasks[pc.node].state.AwaitSignal?)
  {
    assert A.CallOk(c, i);
    var pc := c.calls[i].pc;
    if pc.Exchanging? { assert A.TaskOk(c, pc.node); }
  }

  // The task events are the ones that settle futures, next to refusal.
  predicate TaskEvent(e: A.Event) {
    e.TestSignal? || e.JoinPredecessor? || e.Finish?
  }

  lemma {:induction false} KeepFutureTask(s: State, e: A.Event, i: nat)
    requires A.CallsOk(s.chain) && A.TasksOk(s.chain) && Enabled(s, e) && TaskEvent(e) && |s.futures| == |s.chain.calls|
    requires i < |s.chain.calls| && FutureOk(s, i)
    ensures FutureOk(Apply(s, e), i)
  {
    hide A.CallsOk, A.TasksOk;
    InstalledTask(s.chain, i);
    if !e.TestSignal? { ActiveTask(s.chain, e.task); }
  }

  lemma {:induction false} KeepFutureCall(s: State, e: A.Event, i: nat)
    requires A.CallsOk(s.chain) && A.TasksOk(s.chain) && Enabled(s, e) && !TaskEvent(e) && |s.futures| == |s.chain.calls|
    requires i < |Apply(s, e).chain.calls| && (i < |s.chain.calls| ==> FutureOk(s, i))
    ensures FutureOk(Apply(s, e), i)
  {
    hide A.CallsOk, A.TasksOk;
    if i < |s.chain.calls| { InstalledTask(s.chain, i); }
  }

  lemma {:induction false} KeepFuture(s: State, e: A.Event, i: nat)
    requires A.CallsOk(s.chain) && A.TasksOk(s.chain) && Enabled(s, e) && |s.futures| == |s.chain.calls|
    requires i < |Apply(s, e).chain.calls| && (i < |s.chain.calls| ==> FutureOk(s, i))
    ensures FutureOk(Apply(s, e), i)
  {
    hide A.CallsOk, A.TasksOk, FutureOk;
    if TaskEvent(e) { KeepFutureTask(s, e, i); } else { KeepFutureCall(s, e, i); }
  }

  lemma {:induction false} StepKeepsInv(s: State, e: A.Event)
    requires Inv(s) && Enabled(s, e)
    ensures Inv(Apply(s, e))
  {
    PartsOf(s.chain);
    hide A.Inv, A.CallsOk, A.TasksOk;
    A.StepKeepsInv(s.chain, e);
    forall i | 0 <= i < |Apply(s, e).chain.calls| ensures FutureOk(Apply(s, e), i) { KeepFuture(s, e, i); }
  }

  lemma {:induction false} PartsOf(c: A.State)
    requires A.Inv(c)
    ensures A.CallsOk(c) && A.TasksOk(c)
  {
  }

  ghost predicate IsRun(s: State, run: seq<A.Event>, end: State)
    decreases |run|
  {
    if run == [] then s == end
    else Enabled(s, run[0]) && IsRun(Apply(s, run[0]), run[1..], end)
  }

  ghost predicate Reachable(s: State) {
    exists run :: IsRun(Init, run, s)
  }

  lemma {:induction false} RunInv(s: State, run: seq<A.Event>, end: State)
    requires Inv(s) && IsRun(s, run, end)
    ensures Inv(end)
    decreases |run|
  {
    hide Inv, Apply, Enabled;
    if run != [] {
      StepKeepsInv(s, run[0]);
      RunInv(Apply(s, run[0]), run[1..], end);
    }
  }

  lemma {:induction false} ReachableInv(s: State)
    requires Reachable(s)
    ensures Inv(s)
  {
    var run :| IsRun(Init, run, s);
    RunInv(Init, run, s);
  }

  // ---------- Results ----------

  /**
    In every reachable state the future of a packaged callable is unset while its call or its
    installed task is under way; a broken promise exactly if the call was refused or the task
    aborted; and the callable's result exactly if the task ran to its end.
   */
  lemma {:induction false} FutureMeans(s: State, i: nat)
    requires Reachable(s) && i < |s.chain.calls| && s.chain.calls[i].packaged
    ensures i < |s.futures| && s.futures[i] != NoFuture
    ensures s.futures[i] == Broken <==> s.chain.calls[i].pc.Refused? || Installed(s.chain, i, A.Aborted)
    ensures s.futures[i] == Value || s.futures[i] == Exception <==> Installed(s.chain, i, A.Succeeded)
  {
    ReachableInv(s);
    assert FutureOk(s, i);
  }

  // The task of the call that is in the chain is in this state.
  predicate Installed(c: A.State, i: nat, state: A.TaskState) {
    && i < |c.calls| && (c.calls[i].pc.Signalling? || c.calls[i].pc.Signalled?)
    && c.calls[i].pc.node < |c.tasks| && c.tasks[c.calls[i].pc.node].state == state
  }

  lemma {:induction false} SettledStays(s: State, e: A.Event, i: nat)
    requires Inv(s) && Enabled(s, e) && i < |s.futures| && s.futures[i] != Unset
    ensures i < |Apply(s, e).futures| && Apply(s, e).futures[i] == s.futures[i]
  {
    PartsOf(s.chain);
    hide A.Inv, A.CallsOk, A.TasksOk;
    assert FutureOk(s, i);
    if e.JoinPredecessor? || e.Finish? { ActiveTask(s.chain, e.task); }
  }

  /** A future ends once: whatever happens later, a settled one keeps its outcome. */
  lemma {:induction false} EndsOnce(s: State, run: seq<A.Event>, end: State, i: nat)
    requires Inv(s) && IsRun(s, run, end) && i < |s.futures| && s.futures[i] != Unset
    ensures i < |end.futures| && end.futures[i] == s.futures[i]
    decreases |run|
  {
    hide Inv, Apply, Enabled;
    if run != [] {
      StepKeepsInv(s, run[0]);
      SettledStays(s, run[0], i);
      EndsOnce(Apply(s, run[0]), run[1..], end, i);
    }
  }

  /**
    The step that settles a future, and how: the callable of its call leaves, and the future has
    what that returned or threw; or the promise breaks, because the call is refused or its task
    aborted.
   */
  lemma {:induction false} SettledBy(s: State, e: A.Event, i: nat)
    requires Inv(s) && Enabled(s, e) && i < |s.futures| && s.futures[i] == Unset
    ensures var f := Apply(s, e).futures[i];
            && (f == Value <==> e.Finish? && !e.threw && s.chain.tasks[e.task].call == i)
            && (f == Exception <==> e.Finish? && e.threw && s.chain.tasks[e.task].call == i)
            && (f == Broken <==>
                  || (e.CheckCanceled? && e.call == i && s.chain.canceled)
                  || (e.JoinPredecessor? && s.chain.tasks[e.task].call == i && A.Apply(s.chain, e).tasks[e.task].state.Aborted?))
  {
  }
}
