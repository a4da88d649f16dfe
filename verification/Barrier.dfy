/**
  The cyclic barrier of core/barrier.hpp as a transition system: one event per atomic
  operation on count_, dropped_, threshold_ and generation_, so that drops, which take no
  lock, interleave with every step of an arrival.  Threads are numbered from 0; thread t
  calls arrive_and_wait any number of times and then possibly arrive_and_drop once.
 */
module Barrier {
  import opened Wrappers

  datatype Pc =
    | Idle                       // outside the barrier, still a participant
    | Locked                     // holds the mutex, before the decrement of count_
    | Counted(before: int)       // holds the mutex, count_ was `before`
    | Blocked(gen: nat)          // in condition_.wait, mutex released
    | Woken(gen: nat)            // left the wait queue, mutex not yet reacquired
    | Advanced(gen: nat)         // turner of generation gen: generation_ bumped
    | Settled(gen: nat)          // ... dropped_ exchanged into threshold_
    | Restored(gen: nat)         // ... count_ stored
    | Completed(gen: nat)        // ... completion_ invoked
    | Notifying(gen: nat)        // ... mutex released, notify_all pending
    | Dropping                   // dropped_ bumped, count_ not yet decremented
    | Gone

  // History of one finished generation.
  datatype Phase = Phase(members: set<nat>, arrived: set<nat>, departed: set<nat>)

  datatype Last = Fresh | Arrival | Departure

  datatype State = State(
    count: int,
    dropped: int,
    threshold: int,
    generation: nat,
    owner: Option<nat>,          // holder of the mutex
    pcs: seq<Pc>,
    // history of the current generation
    members: set<nat>,           // participants at its start
    arrived: set<nat>,
    dropping: set<nat>,
    departed: set<nat>,
    last: Last,                  // which operation decremented count_ last
    notifier: Option<nat>,       // who owes the waiters a notify_all
    past: seq<Phase>,
    completions: nat)

  datatype Event =
    | Lock(t: nat) | FetchSub(t: nat) | Sleep(t: nat)
    | Advance(t: nat) | Settle(t: nat) | Store(t: nat) | Complete(t: nat) | Unlock(t: nat) | Notify(t: nat)
    | Wake(t: nat)               // spurious
    | Resume(t: nat)
    | AnnounceDrop(t: nat) | FinishDrop(t: nat)

  function All(n: nat): (r: set<nat>)
    ensures forall t: nat :: t in r <==> t < n
    ensures |r| == n
  {
    if n == 0 then {} else All(n - 1) + {n - 1}
  }

  function Init(n: nat): State {
    State(n, 0, n, 0, None, seq(n, _ => Idle), All(n), {}, {}, {}, Fresh, None, [], 0)
  }

  predicate Enabled(s: State, e: Event) {
    && e.t < |s.pcs|
    && var pc := s.pcs[e.t];
       match e
       case Lock(_) => pc.Idle? && s.owner.None?
       case FetchSub(_) => pc.Locked?
       case Sleep(_) => pc.Counted? && pc.before > 1
       case Advance(_) => pc.Counted? && pc.before <= 1
       case Settle(_) => pc.Advanced?
       case Store(_) => pc.Settled?
       case Complete(_) => pc.Restored?
       case Unlock(_) => pc.Completed?
       case Notify(_) => pc.Notifying?
       case Wake(_) => pc.Blocked?
       case Resume(_) => pc.Woken? && s.owner.None?
       case AnnounceDrop(_) => pc.Idle?
       case FinishDrop(_) => pc.Dropping?
  }

  function Move(s: State, t: nat, pc: Pc): State
    requires t < |s.pcs|
  {
    s.(pcs := s.pcs[t := pc])
  }

  // notify_all moves every blocked thread out of the wait queue.
  function WakeAll(pcs: seq<Pc>): (r: seq<Pc>)
    ensures |r| == |pcs|
    ensures forall i :: 0 <= i < |pcs| ==> r[i] == if pcs[i].Blocked? then Woken(pcs[i].gen) else pcs[i]
  {
    seq(|pcs|, i requires 0 <= i < |pcs| => if pcs[i].Blocked? then Woken(pcs[i].gen) else pcs[i])
  }

  function Apply(s: State, e: Event): State
    requires Enabled(s, e)
  {
    var t := e.t;
    var pc := s.pcs[t];
    match e
    case Lock(_) => Move(s, t, Locked).(owner := Some(t))
    case FetchSub(_) =>
      Move(s, t, Counted(s.count)).(count := s.count - 1, arrived := s.arrived + {t}, last := Arrival)
    case Sleep(_) => Move(s, t, Blocked(s.generation)).(owner := None)
    case Advance(_) =>
      Move(s, t, Advanced(s.generation)).(
        generation := s.generation + 1, notifier := Some(t),
        past := s.past + [Phase(s.members, s.arrived, s.departed)],
        members := s.members - s.departed, arrived := {}, departed := {}, last := Fresh)
    case Settle(_) => Move(s, t, Settled(pc.gen)).(threshold := s.threshold - s.dropped, dropped := 0)
    case Store(_) => Move(s, t, Restored(pc.gen)).(count := s.threshold)
    case Complete(_) => Move(s, t, Completed(pc.gen)).(completions := s.completions + 1)
    case Unlock(_) => Move(s, t, Notifying(pc.gen)).(owner := None)
    case Notify(_) => Move(s, t, Idle).(pcs := WakeAll(s.pcs[t := Idle]), notifier := None)
    case Wake(_) => Move(s, t, Woken(pc.gen))
    case Resume(_) => if pc.gen != s.generation then Move(s, t, Idle) else Move(s, t, Blocked(pc.gen))
    case AnnounceDrop(_) => Move(s, t, Dropping).(dropped := s.dropped + 1, dropping := s.dropping + {t})
    case FinishDrop(_) =>
      Move(s, t, Gone).(count := s.count - 1, dropping := s.dropping - {t}, departed := s.departed + {t}, last := Departure)
  }

  // ---------- Invariant ----------

  predicate InTurn(pc: Pc) {
    pc.Advanced? || pc.Settled? || pc.Restored? || pc.Completed?
  }

  predicate Holds(pc: Pc) {
    pc.Locked? || pc.Counted? || InTurn(pc)
  }

  predicate MidTurn(s: State) {
    s.owner.Some? && s.owner.value < |s.pcs| && (s.pcs[s.owner.value].Advanced? || s.pcs[s.owner.value].Settled?)
  }

  // Still owes the current generation its decrement of count_.
  ghost predicate Owes(s: State, t: nat) {
    t in s.members && t !in s.arrived && t !in s.dropping && t !in s.departed
  }

  ghost predicate ThreadOk(s: State, t: nat)
    requires t < |s.pcs|
  {
    && (s.owner == Some(t) <==> Holds(s.pcs[t]))
    && (s.notifier == Some(t) <==> InTurn(s.pcs[t]) || s.pcs[t].Notifying?)
    && match s.pcs[t]
       case Idle => Owes(s, t)
       case Locked => Owes(s, t)
       case Counted(before) => t in s.arrived && (before <= 1 ==> s.count == 0 && s.last == Arrival)
       case Blocked(g) => if g == s.generation then t in s.arrived else g + 1 == s.generation && Owes(s, t) && s.notifier.Some?
       case Woken(g) => if g == s.generation then t in s.arrived else g + 1 == s.generation && Owes(s, t)
       case Dropping => t in s.dropping
       case Gone => t !in s.members || t in s.departed
       case Restored(g) => g + 1 == s.generation && Owes(s, t)
       case Completed(g) => g + 1 == s.generation && Owes(s, t)
       case Notifying(g) => g + 1 == s.generation && Owes(s, t)
       case Advanced(g) => g + 1 == s.generation && Owes(s, t)
       case Settled(g) => g + 1 == s.generation && Owes(s, t)
  }

  ghost predicate SetsOk(s: State) {
    && s.members <= All(|s.pcs|)
    && s.arrived <= s.members && s.dropping <= s.members && s.departed <= s.members
    && s.arrived !! s.dropping && s.arrived !! s.departed && s.dropping !! s.departed
    && (s.owner.Some? ==> s.owner.value < |s.pcs|)
    && (s.notifier.Some? ==> s.notifier.value < |s.pcs|)
    && (s.last.Fresh? <==> s.arrived == {} && s.departed == {})
  }

  ghost predicate CountersOk(s: State) {
    if MidTurn(s) then
      && s.arrived == {} && s.dropping == {} && s.departed == {}
      && s.count == 0
      && s.threshold == |s.members| + s.dropped
      && (s.pcs[s.owner.value].Settled? ==> s.dropped == 0)
    else
      && s.count == |s.members| - |s.arrived| - |s.departed|
      && s.threshold == |s.members|
      && s.dropped == |s.dropping| + |s.departed|
      && (s.count == 0 && s.last == Arrival ==> s.owner.Some? && s.owner.value < |s.pcs| && s.pcs[s.owner.value].Counted? && s.pcs[s.owner.value].before <= 1)
  }

  // While a generation is being turned everyone else is inside the barrier.
  ghost predicate TurnOk(s: State, t: nat)
    requires t < |s.pcs|
  {
    s.owner.Some? && s.owner.value < |s.pcs| && InTurn(s.pcs[s.owner.value]) && t != s.owner.value ==>
      s.pcs[t].Blocked? || s.pcs[t].Woken? || s.pcs[t].Gone?
  }

  ghost predicate PhaseDone(p: Phase) {
    p.members == p.arrived + p.departed
  }

  ghost predicate PastOk(s: State) {
    |s.past| == s.generation && forall g :: 0 <= g < |s.past| ==> PhaseDone(s.past[g])
  }

  // Every generation turned so far has run its completion, but for one still being turned.
  ghost predicate CompletionsOk(s: State) {
    s.completions == s.generation -
      if s.owner.Some? && s.owner.value < |s.pcs| && (MidTurn(s) || s.pcs[s.owner.value].Restored?) then 1 else 0
  }

  ghost predicate ThreadsOk(s: State) { forall t :: 0 <= t < |s.pcs| ==> ThreadOk(s, t) && TurnOk(s, t) }

  ghost predicate Inv(s: State) {
    SetsOk(s) && CountersOk(s) && ThreadsOk(s) && PastOk(s) && CompletionsOk(s)
  }

  lemma {:induction false} InitInv(n: nat)
    ensures Inv(Init(n))
  {
  }

  // ---------- Preservation ----------

  // Outside a turn count_ is the number of participants that still owe their decrement.
  ghost predicate CountMeans(s: State) {
    !MidTurn(s) ==>
      && s.count >= 0
      && (s.count == 0 <==> s.members == s.arrived + s.departed)
      && (forall t :: t in s.members && t !in s.arrived && t !in s.departed ==> s.count >= 1)
  }

  lemma {:induction false} CountersMean(s: State)
    requires SetsOk(s) && CountersOk(s)
    ensures CountMeans(s)
  {
    if !MidTurn(s) {
      var done := s.arrived + s.departed;
      assert |done| == |s.arrived| + |s.departed|;
      var rest := s.members - done;
      assert |rest| == |s.members| - |done|;
      assert s.members == done + rest;
    }
  }

  lemma {:induction false} KeepThread(s: State, e: Event, t: nat)
    requires Enabled(s, e) && t < |s.pcs| && SetsOk(s) && CountMeans(s)
    requires ThreadOk(s, t) && ThreadOk(s, e.t) && TurnOk(s, t) && TurnOk(s, e.t)
    requires !e.Advance? && !e.Notify?
    ensures ThreadOk(Apply(s, e), t) && TurnOk(Apply(s, e), t)
  {
    if e.FetchSub? || e.FinishDrop? { assert s.count >= 1 by { OwesOne(s, e); } }
    hide ThreadOk, TurnOk, CountMeans, SetsOk, Apply, Enabled;
    if e.t == t { KeepOwnThread(s, e); } else { KeepOtherThread(s, e, t); }
  }

  // Whoever is about to decrement count_ is still counted in it.
  lemma {:induction false} OwesOne(s: State, e: Event)
    requires Enabled(s, e) && SetsOk(s) && CountMeans(s) && ThreadOk(s, e.t) && TurnOk(s, e.t)
    requires e.FetchSub? || e.FinishDrop?
    ensures s.count >= 1
  {
    hide Apply, WakeAll;
    assert !MidTurn(s);
    assert e.t in s.members && e.t !in s.arrived && e.t !in s.departed;
  }

  lemma {:induction false} KeepOtherThread(s: State, e: Event, t: nat)
    requires Enabled(s, e) && t < |s.pcs| && t != e.t
    requires ThreadOk(s, t) && ThreadOk(s, e.t) && TurnOk(s, t) && TurnOk(s, e.t)
    requires !e.Advance? && !e.Notify? && (e.FetchSub? || e.FinishDrop? ==> s.count >= 1)
    ensures ThreadOk(Apply(s, e), t) && TurnOk(Apply(s, e), t)
  {
    hide WakeAll;
    assert Apply(s, e).pcs[t] == s.pcs[t];
  }

  lemma {:induction false} KeepOwnThread(s: State, e: Event)
    requires Enabled(s, e) && ThreadOk(s, e.t) && TurnOk(s, e.t)
    requires !e.Advance? && !e.Notify? && (e.FetchSub? || e.FinishDrop? ==> s.count >= 1)
    ensures ThreadOk(Apply(s, e), e.t) && TurnOk(Apply(s, e), e.t)
  {
    hide WakeAll;
  }

  // When the last arrival takes count_ to zero everybody else is waiting or has left.
  lemma {:induction false} KeepThreadAdvance(s: State, e: Event, t: nat)
    requires Enabled(s, e) && e.Advance? && t < |s.pcs| && SetsOk(s) && CountMeans(s)
    requires ThreadOk(s, t) && ThreadOk(s, e.t)
    requires s.notifier.Some? ==> ThreadOk(s, s.notifier.value)
    ensures ThreadOk(Apply(s, e), t) && TurnOk(Apply(s, e), t)
  {
    assert s.members == s.arrived + s.departed;
    assert s.notifier.None?;
  }

  lemma {:induction false} KeepThreadNotify(s: State, e: Event, t: nat)
    requires Enabled(s, e) && e.Notify? && t < |s.pcs| && SetsOk(s)
    requires ThreadOk(s, t) && ThreadOk(s, e.t) && TurnOk(s, t) && TurnOk(s, e.t)
    requires s.owner.Some? ==> ThreadOk(s, s.owner.value)
    ensures ThreadOk(Apply(s, e), t) && TurnOk(Apply(s, e), t)
  {
  }

  lemma {:induction false} KeepThreads(s: State, e: Event)
    requires Inv(s) && Enabled(s, e)
    ensures ThreadsOk(Apply(s, e))
  {
    CountersMean(s);
    assert ThreadOk(s, e.t) && TurnOk(s, e.t);
    forall t | 0 <= t < |Apply(s, e).pcs| ensures ThreadOk(Apply(s, e), t) && TurnOk(Apply(s, e), t) {
      assert ThreadOk(s, t) && TurnOk(s, t);
      if e.Advance? { KeepThreadAdvance(s, e, t); }
      else if e.Notify? { KeepThreadNotify(s, e, t); }
      else { KeepThread(s, e, t); }
    }
  }

  lemma {:induction false} KeepSets(s: State, e: Event)
    requires SetsOk(s) && Enabled(s, e) && ThreadOk(s, e.t) && TurnOk(s, e.t)
    ensures SetsOk(Apply(s, e))
  {
  }

  lemma {:induction false} KeepCountersAdvance(s: State, e: Event)
    requires SetsOk(s) && CountersOk(s) && CountMeans(s) && Enabled(s, e) && ThreadOk(s, e.t) && e.Advance?
    ensures CountersOk(Apply(s, e))
  {
    hide WakeAll, Owes;
    assert s.members == s.arrived + s.departed;
    assert s.dropping == {};
    assert |s.members - s.departed| == |s.members| - |s.departed|;
  }

  lemma {:induction false} KeepCountersTurning(s: State, e: Event)
    requires SetsOk(s) && CountersOk(s) && Enabled(s, e) && ThreadOk(s, e.t)
    requires e.Settle? || e.Store? || e.Complete? || e.Unlock?
    ensures CountersOk(Apply(s, e))
  {
    hide WakeAll, Owes;
  }

  lemma {:induction false} KeepCountersWaiting(s: State, e: Event)
    requires CountersOk(s) && Enabled(s, e) && ThreadOk(s, e.t) && TurnOk(s, e.t)
    requires e.Lock? || e.Sleep? || e.Notify? || e.Wake? || e.Resume?
    ensures CountersOk(Apply(s, e))
  {
    hide Owes;
  }

  lemma {:induction false} KeepCountersArrival(s: State, e: Event)
    requires SetsOk(s) && CountersOk(s) && CountMeans(s) && Enabled(s, e) && ThreadOk(s, e.t)
    requires e.FetchSub?
    ensures CountersOk(Apply(s, e))
  {
    assert |s.arrived + {e.t}| == |s.arrived| + 1;
  }

  lemma {:induction false} KeepCountersDrop(s: State, e: Event)
    requires SetsOk(s) && CountersOk(s) && Enabled(s, e) && ThreadOk(s, e.t) && TurnOk(s, e.t)
    requires e.AnnounceDrop? || e.FinishDrop?
    ensures CountersOk(Apply(s, e))
  {
    if e.AnnounceDrop? {
      assert |s.dropping + {e.t}| == |s.dropping| + 1;
    } else {
      assert |s.departed + {e.t}| == |s.departed| + 1;
      assert |s.dropping - {e.t}| == |s.dropping| - 1;
    }
  }

  lemma {:induction false} KeepCounters(s: State, e: Event)
    requires SetsOk(s) && CountersOk(s) && CountMeans(s) && Enabled(s, e) && ThreadOk(s, e.t) && TurnOk(s, e.t)
    ensures CountersOk(Apply(s, e))
  {
    if e.FetchSub? { KeepCountersArrival(s, e); }
    else if e.AnnounceDrop? || e.FinishDrop? { KeepCountersDrop(s, e); }
    else if e.Lock? || e.Sleep? || e.Notify? || e.Wake? || e.Resume? { KeepCountersWaiting(s, e); }
    else if e.Advance? { KeepCountersAdvance(s, e); }
    else { KeepCountersTurning(s, e); }
  }

  lemma {:induction false} KeepPast(s: State, e: Event)
    requires PastOk(s) && CountMeans(s) && Enabled(s, e) && ThreadOk(s, e.t)
    ensures PastOk(Apply(s, e))
  {
    if e.Advance? { assert PhaseDone(Phase(s.members, s.arrived, s.departed)); }
  }

  lemma {:induction false} KeepCompletions(s: State, e: Event)
    requires CompletionsOk(s) && Enabled(s, e) && ThreadOk(s, e.t)
    requires s.owner.Some? ==> s.owner.value < |s.pcs| && ThreadOk(s, s.owner.value)
    ensures CompletionsOk(Apply(s, e))
  {
  }

  lemma {:induction false} StepKeepsInv(s: State, e: Event)
    requires Inv(s) && Enabled(s, e)
    ensures Inv(Apply(s, e))
  {
    CountersMean(s);
    assert ThreadOk(s, e.t) && TurnOk(s, e.t);
    KeepSets(s, e);
    KeepCounters(s, e);
    KeepPast(s, e);
    KeepCompletions(s, e);
    KeepThreads(s, e);
  }

  // ---------- Whole runs ----------

  ghost predicate IsRun(s: State, run: seq<Event>, end: State)
    decreases |run|
  {
    if run == [] then s == end
    else Enabled(s, run[0]) && IsRun(Apply(s, run[0]), run[1..], end)
  }

  lemma {:induction false} RunKeepsInv(s: State, run: seq<Event>, end: State)
    requires Inv(s) && IsRun(s, run, end)
    ensures Inv(end)
    decreases |run|
  {
    if run != [] {
      StepKeepsInv(s, run[0]);
      RunKeepsInv(Apply(s, run[0]), run[1..], end);
    }
  }

  // Reached from a barrier whose threshold is the number of participants.
  ghost predicate Reachable(s: State) {
    exists run :: IsRun(Init(|s.pcs|), run, s)
  }

  lemma {:induction false} ReachableInv(s: State)
    requires Reachable(s)
    ensures Inv(s)
  {
    var run :| IsRun(Init(|s.pcs|), run, s);
    InitInv(|s.pcs|);
    RunKeepsInv(Init(|s.pcs|), run, s);
  }

  // ---------- Main results ----------

  // Thread t leaves arrive_and_wait of generation g by this event.
  ghost predicate Returns(s: State, e: Event, g: nat) {
    && Enabled(s, e)
    && var pc := s.pcs[e.t];
       || (e.Resume? && pc.gen != s.generation && g == pc.gen)
       || (e.Notify? && g == pc.gen)
  }

  /**
    Nobody leaves generation g before everyone who was a participant at its start has arrived
    or dropped out, and before its completion has run.  The generation left is the latest one,
    so comparing generations for inequality is safe even if the counter wraps around.
   */
  lemma {:induction false} NoEarlyReturn(s: State, e: Event, g: nat)
    requires Reachable(s) && Returns(s, e, g)
    ensures g + 1 == s.generation == |s.past|
    ensures s.past[g].members == s.past[g].arrived + s.past[g].departed
    ensures s.completions == s.generation
  {
    ReachableInv(s);
    assert ThreadOk(s, e.t) && TurnOk(s, e.t);
    assert PhaseDone(s.past[g]);
    if s.owner.Some? { assert ThreadOk(s, s.owner.value); }
  }

  // Participants that have not left.
  ghost function Live(s: State): set<nat> {
    set t | t in All(|s.pcs|) && !s.pcs[t].Gone?
  }

  // A turn sets threshold_ and count_ to the number of participants still live.
  lemma {:induction false} TurnCountsTheLiving(s: State, e: Event)
    requires Reachable(s) && Enabled(s, e) && e.Store?
    ensures var s' := Apply(s, e);
            s'.count == s'.threshold == |Live(s')| && s'.dropped == 0 && s'.members == Live(s')
  {
    ReachableInv(s);
    var s' := Apply(s, e);
    StepKeepsInv(s, e);
    assert ThreadOk(s, e.t);
    forall t | t in All(|s.pcs|) ensures t in s'.members <==> !s'.pcs[t].Gone? {
      assert ThreadOk(s', t);
    }
    assert s'.members == Live(s');
  }

  // At most one arrival turns a generation, and no drop is half done while it does.
  lemma {:induction false} OneTurner(s: State, t: nat, u: nat)
    requires Reachable(s) && t < |s.pcs| && u < |s.pcs| && t != u
    requires InTurn(s.pcs[t]) || (s.pcs[t].Counted? && s.pcs[t].before <= 1)
    ensures !InTurn(s.pcs[u]) && !s.pcs[u].Counted? && !s.pcs[u].Dropping? && !s.pcs[u].Idle?
  {
    ReachableInv(s);
    CountersMean(s);
    assert ThreadOk(s, t) && ThreadOk(s, u) && TurnOk(s, u);
  }

  // Everyone is blocked or gone.
  ghost predicate Quiet(s: State) {
    forall e: Event :: Enabled(s, e) ==> e.Wake?
  }

  // The current generation can no longer be turned: its last decrement was a drop.
  ghost predicate Jammed(s: State) {
    !MidTurn(s) && s.count == 0 && s.last == Departure
  }

  /**
    The only way to get stuck: if nothing but a spurious wake-up can happen and somebody is
    still waiting, then count_ was taken to zero by arrive_and_drop.
   */
  lemma {:induction false} StuckOnlyByDrop(s: State, w: nat)
    requires Reachable(s) && Quiet(s)
    requires w < |s.pcs| && s.pcs[w].Blocked?
    ensures Jammed(s) && s.pcs[w].gen == s.generation
  {
    ReachableInv(s);
    CountersMean(s);
    if s.owner.Some? || s.notifier.Some? { BusyCanMove(s); }
    assert ThreadOk(s, w);
    forall t | t in s.members ensures t in s.arrived + s.departed { QuietMember(s, t); }
    assert s.members == s.arrived + s.departed;
  }

  lemma {:induction false} QuietMember(s: State, t: nat)
    requires SetsOk(s) && Quiet(s) && s.owner.None? && s.notifier.None? && t in s.members && t < |s.pcs| && ThreadOk(s, t)
    ensures t in s.arrived + s.departed
  {
    assert !Enabled(s, Lock(t)) && !Enabled(s, FinishDrop(t)) && !Enabled(s, Resume(t));
  }

  lemma {:induction false} BusyCanMove(s: State)
    requires SetsOk(s) && ThreadsOk(s) && (s.owner.Some? || s.notifier.Some?)
    ensures exists e: Event :: Enabled(s, e) && !e.Wake?
  {
    var t := if s.owner.Some? then s.owner.value else s.notifier.value;
    assert ThreadOk(s, t);
    var pc := s.pcs[t];
    var e := if pc.Locked? then FetchSub(t)
             else if pc.Counted? then (if pc.before > 1 then Sleep(t) else Advance(t))
             else if pc.Advanced? then Settle(t)
             else if pc.Settled? then Store(t)
             else if pc.Restored? then Complete(t)
             else if pc.Completed? then Unlock(t)
             else Notify(t);
    assert Enabled(s, e);
  }

  lemma {:induction false} JammedLetsNobodyOut(s: State, e: Event, g: nat)
    requires Inv(s) && Jammed(s)
    ensures !Returns(s, e, g)
  {
    CountersMean(s);
    if Enabled(s, e) { assert ThreadOk(s, e.t); }
  }

  // ... and a jammed generation stays jammed: no later step lets anyone out.
  lemma {:induction false} JammedForever(s: State, run: seq<Event>, end: State)
    requires Inv(s) && Jammed(s) && IsRun(s, run, end)
    ensures Jammed(end) && end.generation == s.generation
    ensures forall e, g :: !Returns(end, e, g)
    decreases |run|
  {
    if run == [] {
      forall e, g ensures !Returns(end, e, g) { JammedLetsNobodyOut(s, e, g); }
    } else {
      StepKeepsInv(s, run[0]);
      CountersMean(s);
      assert ThreadOk(s, run[0].t) && TurnOk(s, run[0].t);
      JammedForever(Apply(s, run[0]), run[1..], end);
    }
  }

  lemma {:induction false} RunExtends(s: State, run: seq<Event>, mid: State, e: Event)
    requires IsRun(s, run, mid) && Enabled(mid, e)
    ensures IsRun(s, run + [e], Apply(mid, e))
    decreases |run|
  {
    hide Enabled, Apply;
    if run == [] {
      assert (run + [e])[0] == e && (run + [e])[1..] == [];
      assert IsRun(Apply(mid, e), [], Apply(mid, e));
    } else {
      RunExtends(Apply(s, run[0]), run[1..], mid, e);
      assert (run + [e])[0] == run[0] && (run + [e])[1..] == run[1..] + [e];
    }
  }

  lemma {:induction false} Reaches(s: State, e: Event) returns (next: State)
    requires Reachable(s) && Enabled(s, e)
    ensures Reachable(next) && next == Apply(s, e)
  {
    SameThreads(s, e);
    hide Apply, Enabled, IsRun, Init;
    var run :| IsRun(Init(|s.pcs|), run, s);
    RunExtends(Init(|s.pcs|), run, s, e);
    next := Apply(s, e);
  }

  lemma {:induction false} SameThreads(s: State, e: Event)
    requires Enabled(s, e)
    ensures |Apply(s, e).pcs| == |s.pcs|
  {
  }

  lemma {:induction false} TwoStart() returns (s: State)
    ensures Reachable(s) && s == Init(2) && s.pcs == [Idle, Idle]
  {
    s := Init(2);
    assert |s.pcs| == 2 && s.pcs[0] == Idle && s.pcs[1] == Idle;
    assert IsRun(Init(|s.pcs|), [], s);
  }

  lemma {:induction false} OneWaits() returns (s: State)
    ensures Reachable(s) && s.pcs == [Blocked(0), Idle]
    ensures s.count == 1 && s.generation == 0 && s.owner.None? && s.notifier.None?
  {
    hide Reachable, IsRun, WakeAll, All;
    s := TwoStart();
    s := Reaches(s, Lock(0));
    assert s.pcs == [Locked, Idle];
    s := Reaches(s, FetchSub(0));
    assert s.pcs == [Counted(2), Idle];
    s := Reaches(s, Sleep(0));
  }

  // It happens: of two participants one arrives and waits, then the other drops out.
  lemma {:induction false} JamHappens()
    ensures exists s :: Reachable(s) && Jammed(s) && s.pcs == [Blocked(0), Gone]
  {
    hide Reachable, IsRun, WakeAll, All;
    var s := OneWaits();
    s := Reaches(s, AnnounceDrop(1));
    assert s.pcs == [Blocked(0), Dropping];
    s := Reaches(s, FinishDrop(1));
    assert Jammed(s) && s.pcs == [Blocked(0), Gone];
  }

  // ---------- The object ----------

  /**
    The barrier object with the threads working on it.  Every method is one atomic operation
    of arrive_and_wait or arrive_and_drop and moves the object exactly as its event does.
   */
  class CyclicBarrier {
    var count: int
    var dropped: int
    var threshold: int
    var generation: nat
    var owner: Option<nat>
    var pcs: seq<Pc>
    ghost var members: set<nat>
    ghost var arrived: set<nat>
    ghost var dropping: set<nat>
    ghost var departed: set<nat>
    ghost var last: Last
    ghost var notifier: Option<nat>
    ghost var past: seq<Phase>
    ghost var completions: nat

    ghost function View(): State
      reads this
    {
      State(count, dropped, threshold, generation, owner, pcs,
            members, arrived, dropping, departed, last, notifier, past, completions)
    }

    constructor (participants: nat)
      ensures View() == Init(participants)
    {
      count, dropped, threshold, generation := participants, 0, participants, 0;
      owner, pcs := None, seq(participants, _ => Idle);
      members, arrived, dropping, departed := All(participants), {}, {}, {};
      last, notifier, past, completions := Fresh, None, [], 0;
    }

    // count_down_and_lock, first half
    method LockMutex(t: nat)
      requires Enabled(View(), Lock(t))
      modifies this
      ensures View() == Apply(old(View()), Lock(t))
    {
      owner, pcs := Some(t), pcs[t := Locked];
    }

    // count_down_and_lock, second half
    method CountDown(t: nat) returns (before: int)
      requires Enabled(View(), FetchSub(t))
      modifies this
      ensures View() == Apply(old(View()), FetchSub(t))
      ensures before == old(count)
    {
      before := count;
      count, pcs := count - 1, pcs[t := Counted(before)];
      arrived, last := arrived + {t}, Arrival;
    }

    // wait_next_generation: the predicate is false here, the thread goes to sleep
    method WaitNextGeneration(t: nat)
      requires Enabled(View(), Sleep(t))
      modifies this
      ensures View() == Apply(old(View()), Sleep(t))
    {
      owner, pcs := None, pcs[t := Blocked(generation)];
    }

    // turn_next_generation, its three updates
    method BumpGeneration(t: nat)
      requires Enabled(View(), Advance(t))
      modifies this
      ensures View() == Apply(old(View()), Advance(t))
    {
      ClosePhase(t);
      generation, pcs := generation + 1, pcs[t := Advanced(generation)];
    }

    ghost method ClosePhase(t: nat)
      modifies this
      ensures View() == old(View().(past := past + [Phase(members, arrived, departed)], members := members - departed,
                                    arrived := {}, departed := {}, last := Fresh, notifier := Some(t)))
    {
      past := past + [Phase(members, arrived, departed)];
      members, arrived, departed, last, notifier := members - departed, {}, {}, Fresh, Some(t);
    }

    method ExchangeDropped(t: nat)
      requires Enabled(View(), Settle(t))
      modifies this
      ensures View() == Apply(old(View()), Settle(t))
    {
      pcs := pcs[t := Settled(pcs[t].gen)];
      threshold, dropped := threshold - dropped, 0;
    }

    method StoreCount(t: nat)
      requires Enabled(View(), Store(t))
      modifies this
      ensures View() == Apply(old(View()), Store(t))
    {
      pcs := pcs[t := Restored(pcs[t].gen)];
      count := threshold;
    }

    method InvokeCompletion(t: nat)
      requires Enabled(View(), Complete(t))
      modifies this
      ensures View() == Apply(old(View()), Complete(t))
    {
      pcs := pcs[t := Completed(pcs[t].gen)];
      completions := completions + 1;
    }

    // unlock_and_notify
    method UnlockMutex(t: nat)
      requires Enabled(View(), Unlock(t))
      modifies this
      ensures View() == Apply(old(View()), Unlock(t))
    {
      owner, pcs := None, pcs[t := Notifying(pcs[t].gen)];
    }

    method NotifyAll(t: nat)
      requires Enabled(View(), Notify(t))
      modifies this
      ensures View() == Apply(old(View()), Notify(t))
    {
      pcs := WakeAll(pcs[t := Idle]);
      notifier := None;
    }

    method WakeSpuriously(t: nat)
      requires Enabled(View(), Wake(t))
      modifies this
      ensures View() == Apply(old(View()), Wake(t))
    {
      pcs := pcs[t := Woken(pcs[t].gen)];
    }

    // Reacquires the mutex, tests the generation and either returns or sleeps again.
    method TestGeneration(t: nat) returns (done: bool)
      requires Enabled(View(), Resume(t))
      modifies this
      ensures View() == Apply(old(View()), Resume(t))
      ensures done <==> pcs[t].Idle?
    {
      var gen := pcs[t].gen;
      done := gen != generation;
      pcs := pcs[t := if done then Idle else Blocked(gen)];
    }

    // arrive_and_drop, its two updates
    method AddDropped(t: nat)
      requires Enabled(View(), AnnounceDrop(t))
      modifies this
      ensures View() == Apply(old(View()), AnnounceDrop(t))
    {
      dropped, pcs := dropped + 1, pcs[t := Dropping];
      dropping := dropping + {t};
    }

    method DropCount(t: nat)
      requires Enabled(View(), FinishDrop(t))
      modifies this
      ensures View() == Apply(old(View()), FinishDrop(t))
    {
      count, pcs := count - 1, pcs[t := Gone];
      dropping, departed, last := dropping - {t}, departed + {t}, Departure;
    }
  }
}
