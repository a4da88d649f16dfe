/**
  The lock-free task chain of core/async_chain.hpp as a transition system: one event
  per atomic operation, any number of appending threads, speculative tasks and waiters.
  A heap-allocated future is identified by the index of its task.  The source compares
  addresses, which are reused; AsyncAddresses shows that this decides the same.  What becomes of
  the future handed out for a packaged callable is in AsyncFutures.
 */
module AsyncChain {
  import opened Sequences
  import opened Wrappers

  type Link = Option<nat>

  // Progress of one call of append.
  datatype AppendPc =
    | Entered                            // before the test of canceled_
    | Refused                            // canceled_ was set: the callable is dropped
    | Loading                            // before the first load of pending_
    | Spawning(prev: Link)                // pending_old known, task not yet created
    | Exchanging(prev: Link, node: nat)   // before the compare-exchange
    | Signalling(prev: Link, node: nat)   // exchange succeeded, promise not yet set
    | Signalled(prev: Link, node: nat)    // signal promise holds prev

  datatype Call = Call(packaged: bool, pc: AppendPc)

  // Skipped: lost the race.  Threw: its own callable threw.  Aborted: predecessor failed.
  datatype TaskState = AwaitSignal | AwaitPredecessor | Running | Skipped | Succeeded | Threw | Aborted

  datatype Task = Task(call: nat, prev: Link, state: TaskState)

  datatype Waiter = Waiting(head: Link) | Released(head: Link)

  datatype Mark = Start(task: nat) | Stop(task: nat)

  datatype State = State(
    pending: Link,
    canceled: bool,
    calls: seq<Call>,
    tasks: seq<Task>,
    waiters: seq<Waiter>,
    order: seq<nat>,     // history: nodes installed in pending_, in CAS order
    log: seq<Mark>)      // history: callables entered and left

  datatype Event =
    | Enter(packaged: bool)
    | CheckCanceled(call: nat)
    | LoadPending(call: nat)
    | Spawn(call: nat)
    | CompareExchange(call: nat)
    | SetSignal(call: nat)
    | TestSignal(task: nat)
    | JoinPredecessor(task: nat)
    | Finish(task: nat, threw: bool)
    | Cancel
    | LoadHead
    | Release(waiter: nat)

  const Init := State(None, false, [], [], [], [], [])

  predicate Ended(t: TaskState) {
    t.Skipped? || t.Succeeded? || t.Threw? || t.Aborted?
  }

  predicate Enabled(s: State, e: Event) {
    match e
    case Enter(_) => true
    case CheckCanceled(c) => c < |s.calls| && s.calls[c].pc.Entered?
    case LoadPending(c) => c < |s.calls| && s.calls[c].pc.Loading?
    case Spawn(c) => c < |s.calls| && s.calls[c].pc.Spawning?
    case CompareExchange(c) => c < |s.calls| && s.calls[c].pc.Exchanging?
    case SetSignal(c) => c < |s.calls| && s.calls[c].pc.Signalling?
    case TestSignal(t) =>
      && t < |s.tasks| && s.tasks[t].state.AwaitSignal?
      && s.tasks[t].call < |s.calls| && s.calls[s.tasks[t].call].pc.Signalled?
    case JoinPredecessor(t) =>
      && t < |s.tasks| && s.tasks[t].state.AwaitPredecessor?
      && (s.tasks[t].prev.Some? ==>
            s.tasks[t].prev.value < |s.tasks| && Ended(s.tasks[s.tasks[t].prev.value].state))
    case Finish(t, _) => t < |s.tasks| && s.tasks[t].state.Running? && s.tasks[t].call < |s.calls|
    case Cancel => true
    case LoadHead => true
    case Release(w) =>
      && w < |s.waiters| && s.waiters[w].Waiting?
      && (s.waiters[w].head.Some? ==>
            s.waiters[w].head.value < |s.tasks| && Ended(s.tasks[s.waiters[w].head.value].state))
  }

  function WithPc(s: State, c: nat, pc: AppendPc): State
    requires c < |s.calls|
  {
    s.(calls := s.calls[c := s.calls[c].(pc := pc)])
  }

  function WithState(s: State, t: nat, state: TaskState): State
    requires t < |s.tasks|
  {
    s.(tasks := s.tasks[t := s.tasks[t].(state := state)])
  }

  function Apply(s: State, e: Event): State
    requires Enabled(s, e)
  {
    match e
    case Enter(packaged) => s.(calls := s.calls + [Call(packaged, Entered)])
    case CheckCanceled(c) => WithPc(s, c, if s.canceled then Refused else Loading)
    case LoadPending(c) => WithPc(s, c, Spawning(s.pending))
    case Spawn(c) =>
      var prev := s.calls[c].pc.prev;
      WithPc(s, c, Exchanging(prev, |s.tasks|)).(tasks := s.tasks + [Task(c, prev, AwaitSignal)])
    case CompareExchange(c) =>
      var Exchanging(prev, node) := s.calls[c].pc;
      if s.pending == prev then
        WithPc(s, c, Signalling(prev, node)).(pending := Some(node), order := s.order + [node])
      else
        WithPc(s, c, Spawning(s.pending))
    case SetSignal(c) =>
      WithPc(s, c, Signalled(s.calls[c].pc.prev, s.calls[c].pc.node))
    case TestSignal(t) =>
      var signal := s.calls[s.tasks[t].call].pc.prev;
      WithState(s, t, if s.tasks[t].prev != signal then Skipped else AwaitPredecessor)
    case JoinPredecessor(t) =>
      var prev := s.tasks[t].prev;
      if prev.Some? && (s.tasks[prev.value].state.Threw? || s.tasks[prev.value].state.Aborted?) then
        WithState(s, t, Aborted)
      else
        WithState(s, t, Running).(log := s.log + [Start(t)])
    case Finish(t, threw) =>
      // A packaged task stores the exception in its own future and returns normally.
      var failed := threw && !s.calls[s.tasks[t].call].packaged;
      WithState(s, t, if failed then Threw else Succeeded).(log := s.log + [Stop(t)])
    case Cancel => s.(canceled := true)
    case LoadHead => s.(waiters := s.waiters + [Waiting(s.pending)])
    case Release(w) => s.(waiters := s.waiters[w := Released(s.waiters[w].head)])
  }

  // ---------- Invariant ----------

  function Key(l: Link): nat {
    if l.None? then 0 else l.value + 1
  }

  function LinkBefore(order: seq<nat>, i: nat): Link
    requires i <= |order|
  {
    if i == 0 then None else Some(order[i - 1])
  }

  ghost predicate Linked(tasks: seq<Task>, order: seq<nat>) {
    && (forall i :: 0 <= i < |order| ==> order[i] < |tasks|)
    && (forall i {:trigger LinkBefore(order, i)} :: 0 <= i < |order| ==> tasks[order[i]].prev == LinkBefore(order, i))
  }

  ghost predicate Increasing(order: seq<nat>) {
    forall i, j :: 0 <= i < j < |order| ==> order[i] < order[j]
  }

  ghost predicate OrderOk(s: State) {
    Linked(s.tasks, s.order) && Increasing(s.order) && s.pending == LinkBefore(s.order, |s.order|)
  }

  ghost predicate CallOk(s: State, c: nat)
    requires c < |s.calls|
  {
    match s.calls[c].pc
    case Spawning(prev) => Key(prev) <= Key(s.pending)
    case Exchanging(prev, node) =>
      && Key(prev) <= Key(s.pending)
      && node < |s.tasks| && s.tasks[node].call == c && s.tasks[node].prev == prev && node !in s.order
    case Signalling(prev, node) =>
      node < |s.tasks| && s.tasks[node].call == c && s.tasks[node].prev == prev && node in s.order
    case Signalled(prev, node) =>
      node < |s.tasks| && s.tasks[node].call == c && s.tasks[node].prev == prev && node in s.order
    case _ => true
  }

  // Every task of a call other than the one under way read an earlier head of the chain.
  ghost predicate TaskOk(s: State, t: nat)
    requires t < |s.tasks|
  {
    var task := s.tasks[t];
    && task.call < |s.calls|
    && Key(task.prev) <= t
    && match s.calls[task.call].pc
       case Spawning(prev) => Key(task.prev) < Key(prev) && task.state.AwaitSignal? && t !in s.order
       case Exchanging(prev, node) => task.state.AwaitSignal? && (t != node ==> Key(task.prev) < Key(prev) && t !in s.order)
       case Signalling(prev, node) => task.state.AwaitSignal? && (t != node ==> Key(task.prev) < Key(prev) && t !in s.order)
       case Signalled(prev, node) =>
         && (t == node ==> !task.state.Skipped?)
         && (t != node ==> Key(task.prev) < Key(prev) && t !in s.order
                           && (task.state.AwaitSignal? || task.state.Skipped?))
       case _ => false
  }

  // A chained callable was entered only if its predecessor returned normally.
  ghost predicate ExecOk(tasks: seq<Task>, t: nat)
    requires t < |tasks|
  {
    var task := tasks[t];
    && (task.state.Running? || task.state.Succeeded? || task.state.Threw? ==>
          task.prev.None? || (task.prev.value < |tasks| && tasks[task.prev.value].state.Succeeded?))
    && (task.state.Aborted? ==>
          && task.prev.Some? && task.prev.value < |tasks|
          && (tasks[task.prev.value].state.Threw? || tasks[task.prev.value].state.Aborted?))
  }

  // What a task's callable has done so far.
  function Marks(tasks: seq<Task>, t: nat): seq<Mark> {
    if |tasks| <= t then [] else
    match tasks[t].state
    case Running => [Start(t)]
    case Succeeded => [Start(t), Stop(t)]
    case Threw => [Start(t), Stop(t)]
    case _ => []
  }

  // What the callables of the first n tasks of the order have done so far, one after the other.
  function Transcript(tasks: seq<Task>, order: seq<nat>, n: nat): seq<Mark>
    requires n <= |order|
  {
    if n == 0 then [] else Transcript(tasks, order, n - 1) + Marks(tasks, order[n - 1])
  }

  ghost predicate WaiterOk(s: State, w: Waiter) {
    && (w.head.Some? ==> w.head.value in s.order && w.head.value < |s.tasks|)
    && (w.Released? && w.head.Some? ==> Ended(s.tasks[w.head.value].state))
  }

  ghost predicate PackagedOk(s: State, t: nat)
    requires t < |s.tasks|
  {
    s.tasks[t].state.Threw? ==> s.tasks[t].call < |s.calls| && !s.calls[s.tasks[t].call].packaged
  }

  ghost predicate CallsOk(s: State) { forall c :: 0 <= c < |s.calls| ==> CallOk(s, c) }

  ghost predicate TasksOk(s: State) { forall t :: 0 <= t < |s.tasks| ==> TaskOk(s, t) && PackagedOk(s, t) }

  ghost predicate ChainOk(s: State) { forall t :: 0 <= t < |s.tasks| ==> ExecOk(s.tasks, t) }

  ghost predicate LogOk(s: State) { s.log == Transcript(s.tasks, s.order, |s.order|) }

  ghost predicate WaitersOk(s: State) { forall w :: 0 <= w < |s.waiters| ==> WaiterOk(s, s.waiters[w]) }

  ghost predicate Inv(s: State) {
    OrderOk(s) && CallsOk(s) && TasksOk(s) && ChainOk(s) && LogOk(s) && WaitersOk(s)
  }

  // ---------- Preservation ----------

  lemma {:induction false} TranscriptSame(a: seq<Task>, b: seq<Task>, order: seq<nat>, longer: seq<nat>, n: nat)
    requires n <= |order| && n <= |longer|
    requires forall j :: 0 <= j < n ==> Marks(a, order[j]) == Marks(b, longer[j])
    ensures Transcript(a, order, n) == Transcript(b, longer, n)
  {
    hide Marks;
    if n > 0 { TranscriptSame(a, b, order, longer, n - 1); }
  }

  lemma {:induction false} MarksOf(tasks: seq<Task>, t: nat)
    requires t < |tasks|
    ensures tasks[t].state.Succeeded? ==> Marks(tasks, t) == [Start(t), Stop(t)]
    ensures !HasRun(tasks[t].state) ==> Marks(tasks, t) == []
  {
  }

  lemma {:induction false} TranscriptStep(tasks: seq<Task>, order: seq<nat>, n: nat)
    requires 0 < n <= |order|
    ensures Transcript(tasks, order, n) == Transcript(tasks, order, n - 1) + Marks(tasks, order[n - 1])
  {
  }

  // Tasks behind the i-th that have done nothing add nothing.
  lemma {:induction false} TranscriptIdle(tasks: seq<Task>, order: seq<nat>, i: nat, n: nat)
    requires i < n <= |order|
    requires forall j :: i < j < n ==> Marks(tasks, order[j]) == []
    ensures Transcript(tasks, order, n) == Transcript(tasks, order, i) + Marks(tasks, order[i])
    decreases n
  {
    hide Marks;
    TranscriptStep(tasks, order, n);
    if i < n - 1 {
      TranscriptIdle(tasks, order, i, n - 1);
      AppendNothing(Transcript(tasks, order, n - 1));
    }
  }

  // Only the marks of task i grow, and nothing after it has begun: the transcript grows at its end.
  lemma {:induction false} TranscriptGrows(a: seq<Task>, b: seq<Task>, order: seq<nat>, n: nat, i: nat, m: seq<Mark>)
    requires i < n <= |order|
    requires forall j :: 0 <= j < n && j != i ==> Marks(a, order[j]) == Marks(b, order[j])
    requires forall j :: i < j < n ==> Marks(a, order[j]) == []
    requires Marks(b, order[i]) == Marks(a, order[i]) + m
    ensures Transcript(b, order, n) == Transcript(a, order, n) + m
  {
    hide Transcript, Marks;
    TranscriptIdle(a, order, i, n);
    TranscriptIdle(b, order, i, n);
    TranscriptSame(a, b, order, order, i);
    AppendAssociates(Transcript(a, order, i), Marks(a, order[i]), m);
  }

  ghost predicate CallEvent(e: Event) {
    e.Enter? || e.CheckCanceled? || e.LoadPending? || e.SetSignal? || e.Cancel? || e.LoadHead?
  }

  lemma {:induction false} KeepCallEvent(s: State, e: Event)
    requires Inv(s) && Enabled(s, e) && CallEvent(e)
    ensures Inv(Apply(s, e))
  {
    var s' := Apply(s, e);
    assert s'.tasks == s.tasks && s'.order == s.order && s'.pending == s.pending && s'.log == s.log;
    assert ChainOk(s') && LogOk(s');
    KeepCallEventShape(s, e);
    forall w | 0 <= w < |s'.waiters| ensures WaiterOk(s', s'.waiters[w]) {
      if w < |s.waiters| { assert WaiterOk(s, s.waiters[w]); }
    }
  }

  lemma {:induction false} KeepCallEventShape(s: State, e: Event)
    requires CallsOk(s) && TasksOk(s) && Enabled(s, e) && CallEvent(e)
    ensures CallsOk(Apply(s, e)) && TasksOk(Apply(s, e))
  {
    var s' := Apply(s, e);
    forall c | 0 <= c < |s'.calls| ensures CallOk(s', c) {
      if c < |s.calls| { assert CallOk(s, c); }
    }
    forall t | 0 <= t < |s'.tasks| ensures TaskOk(s', t) && PackagedOk(s', t) {
      assert TaskOk(s, t) && PackagedOk(s, t);
    }
  }

  lemma {:induction false} KeepRelease(s: State, e: Event)
    requires Inv(s) && Enabled(s, e) && e.Release?
    ensures Inv(Apply(s, e))
  {
    var s' := Apply(s, e);
    assert OrderOk(s') && ChainOk(s') && LogOk(s');
    assert CallsOk(s') by { forall c | 0 <= c < |s'.calls| ensures CallOk(s', c) { assert CallOk(s, c); } }
    assert TasksOk(s') by {
      forall t | 0 <= t < |s'.tasks| ensures TaskOk(s', t) && PackagedOk(s', t) { assert TaskOk(s, t) && PackagedOk(s, t); }
    }
    forall w | 0 <= w < |s'.waiters| ensures WaiterOk(s', s'.waiters[w]) {
      assert WaiterOk(s, s.waiters[w]);
    }
  }

  lemma {:induction false} KeepCall(s: State, e: Event, c: nat)
    requires Enabled(s, e) && (e.Spawn? || e.CompareExchange?)
    requires c < |s.calls| && CallOk(s, c) && CallOk(s, e.call)
    requires e.CompareExchange? ==> TaskOk(s, s.calls[e.call].pc.node)
    requires |s.tasks| !in s.order
    ensures CallOk(Apply(s, e), c)
  {
  }

  lemma {:induction false} KeepTask(s: State, e: Event, t: nat)
    requires Enabled(s, e) && (e.Spawn? || e.CompareExchange?)
    requires t < |s.tasks| && TaskOk(s, t) && PackagedOk(s, t) && CallOk(s, e.call)
    ensures TaskOk(Apply(s, e), t) && PackagedOk(Apply(s, e), t)
  {
  }

  lemma {:induction false} KeepCallsTasks(s: State, e: Event)
    requires OrderOk(s) && CallsOk(s) && TasksOk(s)
    requires Enabled(s, e) && (e.Spawn? || e.CompareExchange?)
    ensures CallsOk(Apply(s, e)) && TasksOk(Apply(s, e))
  {
    var s' := Apply(s, e);
    assert CallOk(s, e.call);
    assert e.CompareExchange? ==> TaskOk(s, s.calls[e.call].pc.node);
    assert Key(s.pending) <= |s.tasks| && |s.tasks| !in s.order;
    forall c | 0 <= c < |s'.calls| ensures CallOk(s', c) {
      KeepCall(s, e, c);
    }
    forall t | 0 <= t < |s'.tasks| ensures TaskOk(s', t) && PackagedOk(s', t) {
      if t < |s.tasks| { KeepTask(s, e, t); }
    }
  }

  lemma {:induction false} KeepWaiters(s: State, e: Event)
    requires WaitersOk(s) && Enabled(s, e)
    requires e.Spawn? || e.CompareExchange?
    ensures WaitersOk(Apply(s, e))
  {
    var s' := Apply(s, e);
    forall w | 0 <= w < |s'.waiters| ensures WaiterOk(s', s'.waiters[w]) {
      assert WaiterOk(s, s.waiters[w]);
    }
  }

  lemma {:induction false} KeepSpawnRest(s: State, e: Event)
    requires OrderOk(s) && ChainOk(s) && LogOk(s) && Enabled(s, e) && e.Spawn?
    ensures OrderOk(Apply(s, e)) && ChainOk(Apply(s, e)) && LogOk(Apply(s, e))
  {
    var s' := Apply(s, e);
    assert forall t :: 0 <= t < |s.tasks| ==> s'.tasks[t] == s.tasks[t];
    forall t | 0 <= t < |s'.tasks| ensures ExecOk(s'.tasks, t) {
      if t < |s.tasks| { assert ExecOk(s.tasks, t); }
    }
    TranscriptSame(s.tasks, s'.tasks, s.order, s.order, |s.order|);
  }

  lemma {:induction false} KeepSpawn(s: State, e: Event)
    requires Inv(s) && Enabled(s, e) && e.Spawn?
    ensures Inv(Apply(s, e))
  {
    KeepCallsTasks(s, e);
    KeepWaiters(s, e);
    KeepSpawnRest(s, e);
  }

  // pending_ only ever moves to younger tasks, so a stale head is never seen again.
  lemma {:induction false} KeepExchangeLost(s: State, e: Event)
    requires Inv(s) && Enabled(s, e) && e.CompareExchange? && s.pending != s.calls[e.call].pc.prev
    ensures Inv(Apply(s, e))
  {
    var s' := Apply(s, e);
    assert s'.tasks == s.tasks && s'.order == s.order && s'.pending == s.pending && s'.log == s.log;
    KeepCallsTasks(s, e);
    KeepWaiters(s, e);
  }

  lemma {:induction false} LinkOneMore(tasks: seq<Task>, order: seq<nat>, node: nat)
    requires Linked(tasks, order) && Increasing(order)
    requires node < |tasks| && tasks[node].prev == LinkBefore(order, |order|) && Key(tasks[node].prev) <= node
    ensures Linked(tasks, order + [node]) && Increasing(order + [node])
  {
    var n := |order|;
    var longer := order + [node];
    forall i, j | 0 <= i < j < |longer| ensures longer[i] < longer[j] {
      if j == n && i < n - 1 { assert order[i] < order[n - 1]; }
    }
    forall i {:trigger LinkBefore(longer, i)} | 0 <= i < |longer| ensures tasks[longer[i]].prev == LinkBefore(longer, i) {
      assert LinkBefore(longer, i) == LinkBefore(order, i);
    }
  }

  lemma {:induction false} KeepExchangeLog(tasks: seq<Task>, order: seq<nat>, node: nat)
    requires node < |tasks| && tasks[node].state.AwaitSignal?
    ensures Transcript(tasks, order + [node], |order| + 1) == Transcript(tasks, order, |order|)
  {
    TranscriptSame(tasks, tasks, order, order + [node], |order|);
  }

  lemma {:induction false} KeepExchangeRest(s: State, e: Event)
    requires OrderOk(s) && LogOk(s)
    requires Enabled(s, e) && e.CompareExchange? && s.pending == s.calls[e.call].pc.prev
    requires CallOk(s, e.call) && TaskOk(s, s.calls[e.call].pc.node)
    ensures OrderOk(Apply(s, e)) && LogOk(Apply(s, e))
  {
    var node := s.calls[e.call].pc.node;
    LinkOneMore(s.tasks, s.order, node);
    KeepExchangeLog(s.tasks, s.order, node);
  }

  lemma {:induction false} KeepExchangeWon(s: State, e: Event)
    requires Inv(s) && Enabled(s, e) && e.CompareExchange? && s.pending == s.calls[e.call].pc.prev
    ensures Inv(Apply(s, e))
  {
    assert CallOk(s, e.call) && TaskOk(s, s.calls[e.call].pc.node);
    KeepExchangeRest(s, e);
    KeepCallsTasks(s, e);
    KeepWaiters(s, e);
    assert Apply(s, e).tasks == s.tasks;
  }

  // ---------- Steps of speculative tasks ----------

  ghost predicate TaskEvent(e: Event) {
    e.TestSignal? || e.JoinPredecessor? || e.Finish?
  }

  lemma {:induction false} KeepTaskCall(s: State, e: Event, c: nat)
    requires Enabled(s, e) && TaskEvent(e)
    requires c < |s.calls| && CallOk(s, c)
    ensures CallOk(Apply(s, e), c)
  {
  }

  lemma {:induction false} KeepTaskTask(s: State, e: Event, t: nat)
    requires Enabled(s, e) && TaskEvent(e)
    requires t < |s.tasks| && TaskOk(s, t) && PackagedOk(s, t)
    requires TaskOk(s, e.task) && CallOk(s, s.tasks[e.task].call)
    ensures TaskOk(Apply(s, e), t) && PackagedOk(Apply(s, e), t)
  {
  }

  lemma {:induction false} KeepTaskOrder(s: State, e: Event)
    requires OrderOk(s) && Enabled(s, e) && TaskEvent(e)
    ensures OrderOk(Apply(s, e))
  {
    var s' := Apply(s, e);
    assert s'.order == s.order && |s'.tasks| == |s.tasks|;
  }

  lemma {:induction false} KeepTaskShape(s: State, e: Event)
    requires CallsOk(s) && TasksOk(s) && Enabled(s, e) && TaskEvent(e)
    ensures CallsOk(Apply(s, e)) && TasksOk(Apply(s, e))
  {
    var s' := Apply(s, e);
    assert TaskOk(s, e.task);
    assert CallOk(s, s.tasks[e.task].call);
    forall c | 0 <= c < |s'.calls| ensures CallOk(s', c) {
      KeepTaskCall(s, e, c);
    }
    forall t | 0 <= t < |s'.tasks| ensures TaskOk(s', t) && PackagedOk(s', t) {
      KeepTaskTask(s, e, t);
    }
  }

  lemma {:induction false} KeepTaskWaiters(s: State, e: Event)
    requires WaitersOk(s) && Enabled(s, e) && TaskEvent(e)
    ensures WaitersOk(Apply(s, e))
  {
    var s' := Apply(s, e);
    forall w | 0 <= w < |s'.waiters| ensures WaiterOk(s', s'.waiters[w]) {
      assert WaiterOk(s, s.waiters[w]);
    }
  }

  lemma {:induction false} KeepTaskChain(s: State, e: Event)
    requires ChainOk(s) && Enabled(s, e) && TaskEvent(e)
    requires forall t :: 0 <= t < |s.tasks| && s.tasks[t].prev.Some? ==> s.tasks[t].prev.value < t
    requires e.JoinPredecessor? && s.tasks[e.task].prev.Some? ==> !s.tasks[s.tasks[e.task].prev.value].state.Skipped?
    ensures ChainOk(Apply(s, e))
  {
    var s' := Apply(s, e);
    assert ExecOk(s.tasks, e.task);
    forall t | 0 <= t < |s'.tasks| ensures ExecOk(s'.tasks, t) {
      assert ExecOk(s.tasks, t);
    }
  }

  // A task whose turn has come is the winner of its call.
  lemma {:induction false} ActiveIsChained(s: State, t: nat) returns (i: nat)
    requires CallsOk(s) && TasksOk(s) && t < |s.tasks|
    requires !s.tasks[t].state.AwaitSignal? && !s.tasks[t].state.Skipped?
    ensures i < |s.order| && s.order[i] == t
  {
    assert TaskOk(s, t);
    assert CallOk(s, s.tasks[t].call);
    i :| 0 <= i < |s.order| && s.order[i] == t;
  }

  lemma {:induction false} ChainedIsWinner(s: State, t: nat)
    requires OrderOk(s) && CallsOk(s) && TasksOk(s) && t in s.order
    ensures t < |s.tasks| && !s.tasks[t].state.Skipped?
    ensures s.tasks[t].call < |s.calls|
    ensures var pc := s.calls[s.tasks[t].call].pc; (pc.Signalling? || pc.Signalled?) && pc.node == t
  {
    assert TaskOk(s, t);
    assert CallOk(s, s.tasks[t].call);
  }

  ghost predicate HasRun(t: TaskState) {
    t.Running? || t.Succeeded? || t.Threw?
  }

  // Nothing behind a task that has not returned normally has been entered.
  lemma {:induction false} LaterIdle(tasks: seq<Task>, order: seq<nat>, i: nat, j: nat)
    requires Linked(tasks, order) && forall t :: 0 <= t < |tasks| ==> ExecOk(tasks, t)
    requires i < j < |order| && !tasks[order[i]].state.Succeeded?
    ensures !HasRun(tasks[order[j]].state)
  {
    assert ExecOk(tasks, order[j]) && tasks[order[j]].prev == LinkBefore(order, j);
    if i < j - 1 { LaterIdle(tasks, order, i, j - 1); }
  }

  lemma {:induction false} KeepTaskTranscript(a: seq<Task>, b: seq<Task>, order: seq<nat>, i: nat, m: seq<Mark>)
    requires Linked(a, order) && forall t :: 0 <= t < |a| ==> ExecOk(a, t)
    requires i < |order| && !a[order[i]].state.Succeeded?
    requires |a| == |b| && forall t :: 0 <= t < |a| && t != order[i] ==> a[t].state == b[t].state
    requires forall j :: 0 <= j < |order| && j != i ==> order[j] != order[i]
    requires Marks(b, order[i]) == Marks(a, order[i]) + m
    ensures Transcript(b, order, |order|) == Transcript(a, order, |order|) + m
  {
    forall j | i < j < |order| ensures Marks(a, order[j]) == [] {
      LaterIdle(a, order, i, j);
    }
    TranscriptGrows(a, b, order, |order|, i, m);
  }

  lemma {:induction false} KeepQuietLog(s: State, e: Event)
    requires LogOk(s) && Enabled(s, e) && TaskEvent(e)
    requires Apply(s, e).log == s.log
    ensures LogOk(Apply(s, e))
  {
    var s' := Apply(s, e);
    assert forall t :: 0 <= t < |s.tasks| ==> Marks(s'.tasks, t) == Marks(s.tasks, t);
    TranscriptSame(s.tasks, s'.tasks, s.order, s.order, |s.order|);
  }

  function Added(e: Event): seq<Mark> {
    match e
    case JoinPredecessor(t) => [Start(t)]
    case Finish(t, _) => [Stop(t)]
    case _ => []
  }

  lemma {:induction false} MarksGrow(s: State, e: Event)
    requires Enabled(s, e) && TaskEvent(e) && Apply(s, e).log != s.log
    ensures Apply(s, e).log == s.log + Added(e)
    ensures Marks(Apply(s, e).tasks, e.task) == Marks(s.tasks, e.task) + Added(e)
  {
  }

  lemma {:induction false} KeepLoudLog(s: State, e: Event, i: nat)
    requires OrderOk(s) && ChainOk(s) && LogOk(s) && Enabled(s, e) && (e.JoinPredecessor? || e.Finish?)
    requires Apply(s, e).log != s.log
    requires i < |s.order| && s.order[i] == e.task
    ensures LogOk(Apply(s, e))
  {
    MarksGrow(s, e);
    assert Linked(s.tasks, s.order);
    KeepTaskTranscript(s.tasks, Apply(s, e).tasks, s.order, i, Added(e));
  }

  lemma {:induction false} KeepTaskEvent(s: State, e: Event)
    requires Inv(s) && Enabled(s, e) && TaskEvent(e)
    ensures Inv(Apply(s, e))
  {
    KeepTaskShape(s, e);
    KeepTaskWaiters(s, e);
    KeepTaskOrder(s, e);
    if Apply(s, e).log == s.log {
      KeepQuietLog(s, e);
    } else {
      var i := ActiveIsChained(s, e.task);
      KeepLoudLog(s, e, i);
    }
    assert TaskOk(s, e.task);
    forall t | 0 <= t < |s.tasks| && s.tasks[t].prev.Some? ensures s.tasks[t].prev.value < t {
      assert TaskOk(s, t);
    }
    if e.JoinPredecessor? && s.tasks[e.task].prev.Some? {
      var i := ActiveIsChained(s, e.task);
      assert s.tasks[e.task].prev == LinkBefore(s.order, i);
      ChainedIsWinner(s, s.order[i - 1]);
    }
    KeepTaskChain(s, e);
  }

  // ---------- Whole runs ----------

  ghost predicate IsRun(s: State, run: seq<Event>, end: State)
    decreases |run|
  {
    if run == [] then s == end
    else Enabled(s, run[0]) && IsRun(Apply(s, run[0]), run[1..], end)
  }

  lemma {:induction false} StepKeepsInv(s: State, e: Event)
    requires Inv(s) && Enabled(s, e)
    ensures Inv(Apply(s, e))
  {
    if CallEvent(e) { KeepCallEvent(s, e); }
    else if TaskEvent(e) { KeepTaskEvent(s, e); }
    else if e.Release? { KeepRelease(s, e); }
    else if e.Spawn? { KeepSpawn(s, e); }
    else if s.pending == s.calls[e.call].pc.prev { KeepExchangeWon(s, e); }
    else { KeepExchangeLost(s, e); }
  }

  lemma {:induction false} RunKeepsInv(s: State, run: seq<Event>, end: State)
    requires Inv(s) && IsRun(s, run, end)
    ensures Inv(end)
    decreases |run|
  {
    if run != [] {
      StepKeepsInv(s, run[0]);
      RunKeepsInv(Apply(s, run[0]), run[1..], end);
    }
  }

  ghost predicate Reachable(s: State) {
    exists run :: IsRun(Init, run, s)
  }

  lemma {:induction false} ReachableInv(s: State)
    requires Reachable(s)
    ensures Inv(s)
  {
    var run :| IsRun(Init, run, s);
    RunKeepsInv(Init, run, s);
  }

  // ---------- Main results ----------

  // The test every speculative task makes once the signal promise of its call is set.
  predicate PassesTest(s: State, t: nat)
    requires t < |s.tasks| && s.tasks[t].call < |s.calls|
    requires s.calls[s.tasks[t].call].pc.Signalled?
  {
    s.tasks[t].prev == s.calls[s.tasks[t].call].pc.prev
  }

  // Of all tasks created by a finished append exactly one passes the test: the installed one.
  lemma {:induction false} OneTaskPerAppend(s: State, c: nat)
    requires Reachable(s)
    requires c < |s.calls| && s.calls[c].pc.Signalled?
    ensures var node := s.calls[c].pc.node;
            && node < |s.tasks| && s.tasks[node].call == c && node in s.order
            && forall t :: 0 <= t < |s.tasks| && s.tasks[t].call == c ==> (PassesTest(s, t) <==> t == node) && (t in s.order <==> t == node)
  {
    ReachableInv(s);
    assert CallOk(s, c);
    forall t | 0 <= t < |s.tasks| && s.tasks[t].call == c
      ensures (PassesTest(s, t) <==> t == s.calls[c].pc.node) && (t in s.order <==> t == s.calls[c].pc.node)
    {
      assert TaskOk(s, t);
    }
  }

  // pending_ never holds the same node twice, nor two nodes of the same call.
  lemma {:induction false} HeadsAreDistinct(s: State, i: nat, j: nat)
    requires Reachable(s) && i < j < |s.order|
    ensures s.order[i] < |s.tasks| && s.order[j] < |s.tasks|
    ensures s.order[i] != s.order[j] && s.tasks[s.order[i]].call != s.tasks[s.order[j]].call
  {
    ReachableInv(s);
    ChainedIsWinner(s, s.order[i]);
    ChainedIsWinner(s, s.order[j]);
  }

  // The first n callables of the order, each entered and left before the next is entered.
  function Serial(order: seq<nat>, n: nat): seq<Mark>
    requires n <= |order|
  {
    if n == 0 then [] else Serial(order, n - 1) + [Start(order[n - 1]), Stop(order[n - 1])]
  }

  lemma {:induction false} TranscriptOfPrefix(tasks: seq<Task>, order: seq<nat>, n: nat, k: nat)
    requires n <= |order| && k <= |order|
    requires Linked(tasks, order) && forall t :: 0 <= t < |tasks| ==> ExecOk(tasks, t)
    requires forall i :: 0 <= i < k ==> tasks[order[i]].state.Succeeded?
    requires k < |order| ==> !tasks[order[k]].state.Succeeded?
    ensures Transcript(tasks, order, n) ==
            if n <= k then Serial(order, n) else Serial(order, k) + Marks(tasks, order[k])
  {
    hide Marks, ExecOk;
    if n > 0 {
      TranscriptOfPrefix(tasks, order, n - 1, k);
      if n - 1 < k {
        assert Marks(tasks, order[n - 1]) == [Start(order[n - 1]), Stop(order[n - 1])] by { MarksOf(tasks, order[n - 1]); }
      } else if k < n - 1 {
        LaterIdle(tasks, order, k, n - 1);
        MarksOf(tasks, order[n - 1]);
        AppendNothing(Transcript(tasks, order, n - 1));
      }
    }
  }

  // How many callables of the order have returned normally before the first that has not.
  function Returned(tasks: seq<Task>, order: seq<nat>): (k: nat)
    requires forall i :: 0 <= i < |order| ==> order[i] < |tasks|
    ensures k <= |order|
    ensures forall i :: 0 <= i < k ==> tasks[order[i]].state.Succeeded?
    ensures k < |order| ==> !tasks[order[k]].state.Succeeded?
  {
    if order == [] then 0
    else
      assert forall i :: 0 <= i < |order| - 1 ==> order[..|order| - 1][i] == order[i];
      var k := Returned(tasks, order[..|order| - 1]);
      if k == |order| - 1 && tasks[order[|order| - 1]].state.Succeeded? then k + 1 else k
  }

  /**
    In every interleaving the callables run one at a time in CAS order: what has been entered
    and left is a prefix of that order, of which only the last callable may be unfinished or
    have thrown.  In particular no callable starts twice.
   */
  lemma {:induction false} CallablesRunInOrder(s: State)
    requires Reachable(s)
    ensures forall i :: 0 <= i < |s.order| ==> s.order[i] < |s.tasks|
    ensures var k := Returned(s.tasks, s.order);
            s.log == Serial(s.order, k) + if k < |s.order| then Marks(s.tasks, s.order[k]) else []
  {
    ReachableInv(s);
    var k := Returned(s.tasks, s.order);
    TranscriptOfPrefix(s.tasks, s.order, |s.order|, k);
  }

  /**
    Once a callable throws, nothing behind it is ever entered and every later task of the
    chain that ends, ends with an exception; the callables that returned normally are a prefix.
    Packaged callables never break the chain.
   */
  lemma {:induction false} FailureStopsChain(s: State, i: nat, j: nat)
    requires Reachable(s) && i < j < |s.order|
    ensures s.order[i] < |s.tasks| && s.order[j] < |s.tasks|
    ensures s.tasks[s.order[i]].call < |s.calls|
    ensures s.tasks[s.order[i]].state.Threw? ==> !s.calls[s.tasks[s.order[i]].call].packaged
    ensures s.tasks[s.order[i]].state.Threw? || s.tasks[s.order[i]].state.Aborted?
            ==> var state := s.tasks[s.order[j]].state; Ended(state) <==> state.Aborted?
    ensures !s.tasks[s.order[i]].state.Succeeded? ==> !HasRun(s.tasks[s.order[j]].state)
    ensures s.tasks[s.order[j]].state.Succeeded? ==> s.tasks[s.order[i]].state.Succeeded?
  {
    ReachableInv(s);
    ChainedIsWinner(s, s.order[i]);
    ChainedIsWinner(s, s.order[j]);
    assert TaskOk(s, s.order[i]) && PackagedOk(s, s.order[i]);
    assert Linked(s.tasks, s.order);
    if !s.tasks[s.order[i]].state.Succeeded? {
      LaterIdle(s.tasks, s.order, i, j);
    }
  }

  lemma {:induction false} CauseOfAbort(tasks: seq<Task>, order: seq<nat>, j: nat) returns (i: nat)
    requires Linked(tasks, order) && forall t :: 0 <= t < |tasks| ==> ExecOk(tasks, t)
    requires j < |order| && tasks[order[j]].state.Aborted?
    ensures i < j && tasks[order[i]].state.Threw?
  {
    assert ExecOk(tasks, order[j]) && tasks[order[j]].prev == LinkBefore(order, j);
    i := j - 1;
    if !tasks[order[i]].state.Threw? { i := CauseOfAbort(tasks, order, i); }
  }

  // An aborted task always has a throwing callable in front of it.
  lemma {:induction false} AbortHasCause(s: State, j: nat) returns (i: nat)
    requires Reachable(s) && j < |s.order| && s.order[j] < |s.tasks|
    requires s.tasks[s.order[j]].state.Aborted?
    ensures i < j && s.order[i] < |s.tasks| && s.tasks[s.order[i]].state.Threw?
  {
    ReachableInv(s);
    i := CauseOfAbort(s.tasks, s.order, j);
  }

  lemma {:induction false} EndedBefore(tasks: seq<Task>, order: seq<nat>, i: nat, j: nat)
    requires Linked(tasks, order) && forall t :: 0 <= t < |tasks| ==> ExecOk(tasks, t)
    requires i <= j < |order| && Ended(tasks[order[j]].state) && !tasks[order[j]].state.Skipped?
    ensures Ended(tasks[order[i]].state)
  {
    assert ExecOk(tasks, order[j]) && tasks[order[j]].prev == LinkBefore(order, j);
    if i < j { EndedBefore(tasks, order, i, j - 1); }
  }

  // When wait returns, every task up to the head it loaded has ended.
  lemma {:induction false} WaitCoversChain(s: State, w: nat) returns (n: nat)
    requires Reachable(s) && w < |s.waiters| && s.waiters[w].Released?
    ensures n <= |s.order| && s.waiters[w].head == LinkBefore(s.order, n)
    ensures forall i :: 0 <= i < n ==> s.order[i] < |s.tasks| && Ended(s.tasks[s.order[i]].state)
  {
    ReachableInv(s);
    n := 0;
    assert WaiterOk(s, s.waiters[w]);
    if s.waiters[w].head.Some? {
      var j :| 0 <= j < |s.order| && s.order[j] == s.waiters[w].head.value;
      n := j + 1;
      ChainedIsWinner(s, s.order[j]);
      assert Linked(s.tasks, s.order);
      forall i | 0 <= i < n ensures Ended(s.tasks[s.order[i]].state) {
        EndedBefore(s.tasks, s.order, i, j);
      }
    }
  }

  // After abort_and_wait has set canceled_, no append that starts later joins the chain.
  lemma {:induction false} CancelRefuses(s: State, run: seq<Event>, end: State, c: nat)
    requires Inv(s) && s.canceled && IsRun(s, run, end)
    requires c >= |s.calls| || s.calls[c].pc.Entered? || s.calls[c].pc.Refused?
    ensures c < |end.calls| ==> end.calls[c].pc.Entered? || end.calls[c].pc.Refused?
    ensures forall t :: t in end.order ==> t < |end.tasks| && end.tasks[t].call != c
    decreases |run|
  {
    if run == [] {
      forall t | t in end.order ensures t < |end.tasks| && end.tasks[t].call != c {
        ChainedIsWinner(end, t);
      }
    } else {
      StepKeepsInv(s, run[0]);
      CancelRefuses(Apply(s, run[0]), run[1..], end, c);
    }
  }

  /**
    The chain cannot stall: as long as some installed task has not ended, the first such task,
    or the append that owes it its signal, has a step to take.
   */
  lemma {:induction false} ChainProgresses(s: State, stalled: nat) returns (i: nat, e: Event)
    requires Reachable(s)
    requires stalled < |s.order| && s.order[stalled] < |s.tasks| && !Ended(s.tasks[s.order[stalled]].state)
    ensures i <= stalled && s.order[i] < |s.tasks|
    ensures forall j :: 0 <= j < i ==> s.order[j] < |s.tasks| && Ended(s.tasks[s.order[j]].state)
    ensures Enabled(s, e)
    ensures e in {TestSignal(s.order[i]), JoinPredecessor(s.order[i]), Finish(s.order[i], false),
                  SetSignal(s.tasks[s.order[i]].call)}
  {
    ReachableInv(s);
    i := FirstUnended(s.tasks, s.order, stalled);
    e := NextOf(s, i);
  }

  lemma {:induction false} FirstUnended(tasks: seq<Task>, order: seq<nat>, stalled: nat) returns (i: nat)
    requires forall j :: 0 <= j < |order| ==> order[j] < |tasks|
    requires stalled < |order| && !Ended(tasks[order[stalled]].state)
    ensures i <= stalled && !Ended(tasks[order[i]].state)
    ensures forall j :: 0 <= j < i ==> Ended(tasks[order[j]].state)
  {
    i := 0;
    while Ended(tasks[order[i]].state)
      invariant 0 <= i <= stalled
      invariant forall j :: 0 <= j < i ==> Ended(tasks[order[j]].state)
      decreases stalled - i
    {
      i := i + 1;
    }
  }

  lemma {:induction false} NextOf(s: State, i: nat) returns (e: Event)
    requires OrderOk(s) && CallsOk(s) && TasksOk(s)
    requires i < |s.order| && !Ended(s.tasks[s.order[i]].state)
    requires i > 0 ==> Ended(s.tasks[s.order[i - 1]].state)
    ensures s.order[i] < |s.tasks| && Enabled(s, e)
    ensures e in {TestSignal(s.order[i]), JoinPredecessor(s.order[i]), Finish(s.order[i], false),
                  SetSignal(s.tasks[s.order[i]].call)}
  {
    var t := s.order[i];
    ChainedIsWinner(s, t);
    assert s.tasks[t].prev == LinkBefore(s.order, i);
    match s.tasks[t].state
    case AwaitSignal =>
      e := if s.calls[s.tasks[t].call].pc.Signalled? then TestSignal(t) else SetSignal(s.tasks[t].call);
    case AwaitPredecessor => e := JoinPredecessor(t);
    case Running => e := Finish(t, false);
  }

  // ---------- The object ----------

  /**
    The chain object together with the calls, tasks and waiters working on it.  Every method
    is one atomic operation of the source and moves the object exactly as its event does.
   */
  class Chain {
    var pending: Link
    var canceled: bool
    var calls: seq<Call>
    var tasks: seq<Task>
    var waiters: seq<Waiter>
    ghost var order: seq<nat>
    ghost var log: seq<Mark>

    ghost function View(): State
      reads this
    {
      State(pending, canceled, calls, tasks, waiters, order, log)
    }

    constructor ()
      ensures View() == Init
    {
      pending, canceled, calls, tasks, waiters := None, false, [], [], [];
      order, log := [], [];
    }

    method BeginAppend(packaged: bool) returns (c: nat)
      modifies this
      ensures View() == Apply(old(View()), Enter(packaged))
      ensures c == |old(calls)|
    {
      c := |calls|;
      calls := calls + [Call(packaged, Entered)];
    }

    method ReadCanceled(c: nat) returns (refused: bool)
      requires Enabled(View(), CheckCanceled(c))
      modifies this
      ensures View() == Apply(old(View()), CheckCanceled(c))
      ensures refused == old(canceled)
    {
      refused := canceled;
      calls := calls[c := calls[c].(pc := if canceled then Refused else Loading)];
    }

    method LoadPendingHead(c: nat)
      requires Enabled(View(), LoadPending(c))
      modifies this
      ensures View() == Apply(old(View()), LoadPending(c))
    {
      calls := calls[c := calls[c].(pc := Spawning(pending))];
    }

    method SpawnTask(c: nat)
      requires Enabled(View(), Spawn(c))
      modifies this
      ensures View() == Apply(old(View()), Spawn(c))
    {
      var prev := calls[c].pc.prev;
      calls := calls[c := calls[c].(pc := Exchanging(prev, |tasks|))];
      tasks := tasks + [Task(c, prev, AwaitSignal)];
    }

    method ExchangePending(c: nat) returns (won: bool)
      requires Enabled(View(), CompareExchange(c))
      modifies this
      ensures View() == Apply(old(View()), CompareExchange(c))
      ensures won == (old(pending) == old(calls[c].pc.prev))
    {
      var Exchanging(prev, node) := calls[c].pc;
      won := pending == prev;
      if won {
        pending := Some(node);
        order := order + [node];
        calls := calls[c := calls[c].(pc := Signalling(prev, node))];
      } else {
        calls := calls[c := calls[c].(pc := Spawning(pending))];
      }
    }

    method PublishSignal(c: nat)
      requires Enabled(View(), SetSignal(c))
      modifies this
      ensures View() == Apply(old(View()), SetSignal(c))
    {
      var Signalling(prev, node) := calls[c].pc;
      calls := calls[c := calls[c].(pc := Signalled(prev, node))];
    }

    method CompareSignal(t: nat) returns (mine: bool)
      requires Enabled(View(), TestSignal(t))
      modifies this
      ensures View() == Apply(old(View()), TestSignal(t))
      ensures mine == PassesTest(old(View()), t)
    {
      mine := tasks[t].prev == calls[tasks[t].call].pc.prev;
      tasks := tasks[t := tasks[t].(state := if mine then AwaitPredecessor else Skipped)];
    }

    method GetPredecessor(t: nat) returns (entered: bool)
      requires Enabled(View(), JoinPredecessor(t))
      modifies this
      ensures View() == Apply(old(View()), JoinPredecessor(t))
      ensures entered <==> log == old(log) + [Start(t)]
    {
      var prev := tasks[t].prev;
      entered := prev.None? || !(tasks[prev.value].state.Threw? || tasks[prev.value].state.Aborted?);
      tasks := tasks[t := tasks[t].(state := if entered then Running else Aborted)];
      if entered { log := log + [Start(t)]; }
    }

    method LeaveCallable(t: nat, threw: bool)
      requires Enabled(View(), Finish(t, threw))
      modifies this
      ensures View() == Apply(old(View()), Finish(t, threw))
    {
      var failed := threw && !calls[tasks[t].call].packaged;
      tasks := tasks[t := tasks[t].(state := if failed then Threw else Succeeded)];
      log := log + [Stop(t)];
    }

    method SetCanceled()
      modifies this
      ensures View() == Apply(old(View()), Cancel)
    {
      canceled := true;
    }

    method BeginWait() returns (w: nat)
      modifies this
      ensures View() == Apply(old(View()), LoadHead)
      ensures w == |old(waiters)|
    {
      w := |waiters|;
      waiters := waiters + [Waiting(pending)];
    }

    method EndWait(w: nat)
      requires Enabled(View(), Release(w))
      modifies this
      ensures View() == Apply(old(View()), Release(w))
    {
      waiters := waiters[w := Released(waiters[w].head)];
    }
  }
}
