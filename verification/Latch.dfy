/**
  The countdown latch of core/latch.hpp as a transition system over any number of threads,
  each of which performs one operation.
 */
module Latch {
  import opened Wrappers

  datatype Pc =
    | Idle
    | Setting       // saw the count run out, completion_.set_value pending
    | Waiting       // in signal_.wait
    | Returned
    | Threw         // set_value on a promise already satisfied

  datatype Last = Untouched | ByCountDown | ByCountDownAndWait

  datatype State = State(
    count: int,
    ready: bool,             // completion_ has its value
    pcs: seq<Pc>,
    initial: int,            // history: constructor argument
    setters: set<nat>,       // history: threads that saw the count run out
    last: Last)              // history: which operation decremented last

  datatype Event =
    | CountDownAndWait(t: nat)
    | CountDown(t: nat, n: nat)
    | Wait(t: nat)
    | SetValue(t: nat)
    | Return(t: nat)

  function Init(threads: nat, count: int): State {
    State(count, false, seq(threads, _ => Idle), count, {}, Untouched)
  }

  predicate Enabled(s: State, e: Event) {
    && e.t < |s.pcs|
    && match e
       case SetValue(t) => s.pcs[t].Setting?
       case Return(t) => s.pcs[t].Waiting? && s.ready
       case _ => s.pcs[e.t].Idle?
  }

  // The caller's duty: the decrements do not exceed the initial count.
  predicate WithinBudget(s: State, e: Event) {
    match e
    case CountDownAndWait(_) => s.count >= 1
    case CountDown(_, n) => s.count >= n
    case _ => true
  }

  function Apply(s: State, e: Event): State
    requires Enabled(s, e)
  {
    match e
    case CountDownAndWait(t) =>
      if s.count > 1 then
        s.(count := s.count - 1, pcs := s.pcs[t := Waiting], last := ByCountDownAndWait)
      else
        s.(count := s.count - 1, pcs := s.pcs[t := Setting], last := ByCountDownAndWait, setters := s.setters + {t})
    case CountDown(t, n) =>
      s.(count := s.count - n, pcs := s.pcs[t := Returned], last := if n > 0 then ByCountDown else s.last)
    case Wait(t) => s.(pcs := s.pcs[t := Waiting])
    case SetValue(t) =>
      if s.ready then s.(pcs := s.pcs[t := Threw]) else s.(ready := true, pcs := s.pcs[t := Returned])
    case Return(t) => s.(pcs := s.pcs[t := Returned])
  }

  predicate IsReady(s: State) {
    s.count <= 0
  }

  ghost predicate IsRun(s: State, run: seq<Event>, end: State)
    decreases |run|
  {
    if run == [] then s == end
    else Enabled(s, run[0]) && WithinBudget(s, run[0]) && IsRun(Apply(s, run[0]), run[1..], end)
  }

  ghost predicate Reachable(s: State) {
    s.initial >= 0 && exists run :: IsRun(Init(|s.pcs|, s.initial), run, s)
  }

  // ---------- Invariant ----------

  ghost predicate ThreadOk(s: State, t: nat)
    requires t < |s.pcs|
  {
    && !s.pcs[t].Threw?
    && (s.pcs[t].Setting? ==> t in s.setters && !s.ready)
    && (t in s.setters ==> s.pcs[t].Setting? || s.ready)
  }

  ghost predicate Inv(s: State) {
    && s.initial >= 0
    && 0 <= s.count <= s.initial
    && (s.setters != {} ==> s.count == 0 && s.last == ByCountDownAndWait)
    && (forall t, u :: t in s.setters && u in s.setters ==> t == u)
    && (forall t :: t in s.setters ==> t < |s.pcs|)
    && (s.ready ==> s.setters != {})
    && (s.count == 0 && s.last == ByCountDownAndWait ==> s.setters != {})
    && (s.last == Untouched ==> s.count == s.initial)
    && (forall t :: 0 <= t < |s.pcs| ==> ThreadOk(s, t))
  }

  lemma {:induction false} StepKeepsInv(s: State, e: Event)
    requires Inv(s) && Enabled(s, e) && WithinBudget(s, e)
    ensures Inv(Apply(s, e))
  {
    var s' := Apply(s, e);
    assert ThreadOk(s, e.t);
    forall t | 0 <= t < |s'.pcs| ensures ThreadOk(s', t) { assert ThreadOk(s, t); }
  }

  lemma {:induction false} RunKeepsInv(s: State, run: seq<Event>, end: State)
    requires Inv(s) && IsRun(s, run, end)
    ensures Inv(end)
    decreases |run|
  {
    if run != [] {
      StepKeepsInv(s, run[0]);
      RunKeepsInv(Apply(s, run[0]), run[1..], end);
    }
  }

  lemma {:induction false} ReachableInv(s: State)
    requires Reachable(s)
    ensures Inv(s)
  {
    var run :| IsRun(Init(|s.pcs|, s.initial), run, s);
    RunKeepsInv(Init(|s.pcs|, s.initial), run, s);
  }

  // ---------- Main results ----------

  // The promise is set at most once: set_value never meets a satisfied promise.
  lemma {:induction false} SetOnce(s: State, e: Event)
    requires Reachable(s) && Enabled(s, e)
    ensures e.SetValue? ==> !s.ready && Apply(s, e).ready
    ensures forall t :: 0 <= t < |s.pcs| ==> !s.pcs[t].Threw?
  {
    ReachableInv(s);
    forall t | 0 <= t < |s.pcs| ensures !s.pcs[t].Threw? { assert ThreadOk(s, t); }
    assert ThreadOk(s, e.t);
  }

  // A set promise implies is_ready, and nobody waiting returns before the count is used up.
  lemma {:induction false} NoEarlyReturn(s: State, e: Event)
    requires Reachable(s) && (s.ready || (Enabled(s, e) && e.Return?))
    ensures IsReady(s) && s.count == 0 && s.last == ByCountDownAndWait
  {
    ReachableInv(s);
  }

  /**
    If a thread is waiting and no thread can take a step that leads to the promise, the count is
    still positive, or the decrement that used it up was a plain count_down (or there was nothing
    to count).
   */
  lemma {:induction false} StuckOnlyByCountDown(s: State, w: nat)
    requires Reachable(s) && w < |s.pcs| && s.pcs[w].Waiting?
    requires !exists e: Event :: Enabled(s, e) && (e.SetValue? || e.Return?)
    ensures s.count > 0 || s.last == ByCountDown || s.initial == 0
  {
    ReachableInv(s);
    assert s.ready ==> Enabled(s, Return(w));
    if s.count == 0 && s.last == ByCountDownAndWait { SetterCanMove(s); }
  }

  lemma {:induction false} SetterCanMove(s: State)
    requires Inv(s) && s.count == 0 && s.last == ByCountDownAndWait && !s.ready
    ensures exists e: Event :: Enabled(s, e) && e.SetValue?
  {
    var t :| t in s.setters;
    assert ThreadOk(s, t);
    assert Enabled(s, SetValue(t));
  }

  // ... and then it waits forever: no later step within the budget sets the promise.
  lemma {:induction false} StuckForever(s: State, run: seq<Event>, end: State)
    requires Inv(s) && IsRun(s, run, end)
    requires s.count == 0 && s.last != ByCountDownAndWait
    ensures !end.ready && end.count == 0
    ensures forall t :: 0 <= t < |s.pcs| && s.pcs[t].Waiting? ==> t < |end.pcs| && end.pcs[t].Waiting?
    decreases |run|
  {
    if run != [] {
      StepKeepsInv(s, run[0]);
      assert ThreadOk(s, run[0].t);
      var next := Apply(s, run[0]);
      StuckForever(next, run[1..], end);
      forall t | 0 <= t < |s.pcs| && s.pcs[t].Waiting? ensures t < |end.pcs| && end.pcs[t].Waiting? {
        assert next.pcs[t].Waiting?;
      }
    }
  }

  // It happens: of two, one arrives and waits, then the other only counts down.
  lemma {:induction false} StuckHappens()
    ensures exists s :: Reachable(s) && s.count == 0 && s.last == ByCountDown && s.pcs == [Waiting, Returned]
  {
    var a := Apply(Init(2, 2), CountDownAndWait(0));
    assert a.pcs == [Waiting, Idle];
    var b := Apply(a, CountDown(1, 1));
    assert b.pcs == [Waiting, Returned];
    var run := [CountDownAndWait(0), CountDown(1, 1)];
    assert run[1..] == [CountDown(1, 1)] && run[1..][1..] == [];
    assert IsRun(a, run[1..], b);
    assert IsRun(Init(2, 2), run, b);
    assert Reachable(b);
  }

  // A latch that starts at zero is ready, yet whoever waits on it waits for ever.
  lemma {:induction false} ZeroSticks()
    ensures exists s :: Reachable(s) && s.initial == 0 && IsReady(s) && s.pcs == [Waiting]
  {
    var s := Apply(Init(1, 0), Wait(0));
    assert s.pcs == [Waiting];
    assert [Wait(0)][1..] == [];
    assert IsRun(Init(1, 0), [Wait(0)], s);
    assert Reachable(s);
  }

  // The budget is needed: one decrement too many sets the promise twice.
  lemma {:induction false} OverdraftSetsTwice()
    ensures exists s: State, e :: s.initial == 1 && Enabled(s, e) && Apply(s, e).pcs == [Returned, Threw]
              && s == Apply(Apply(Apply(Init(2, 1), CountDownAndWait(0)), CountDownAndWait(1)), SetValue(0))
  {
    var a := Apply(Init(2, 1), CountDownAndWait(0));
    assert a.pcs == [Setting, Idle];
    var b := Apply(a, CountDownAndWait(1));
    assert b.pcs == [Setting, Setting];
    var c := Apply(b, SetValue(0));
    assert c.pcs == [Returned, Setting];
    assert Apply(c, SetValue(1)).pcs == [Returned, Threw];
  }

  // ---------- The object ----------

  class CountdownLatch {
    var count: int
    var ready: bool
    var pcs: seq<Pc>
    ghost var initial: int
    ghost var setters: set<nat>
    ghost var last: Last

    ghost function View(): State
      reads this
    {
      State(count, ready, pcs, initial, setters, last)
    }

    constructor (threads: nat, count: int)
      ensures View() == Init(threads, count)
    {
      this.count, ready, pcs := count, false, seq(threads, _ => Idle);
      initial, setters, last := count, {}, Untouched;
    }

    // count_down_and_wait up to the wait or to set_value
    method Arrive(t: nat)
      requires Enabled(View(), CountDownAndWait(t))
      modifies this
      ensures View() == Apply(old(View()), CountDownAndWait(t))
    {
      var before := count;
      count, last := count - 1, ByCountDownAndWait;
      if before > 1 {
        pcs := pcs[t := Waiting];
      } else {
        pcs, setters := pcs[t := Setting], setters + {t};
      }
    }

    method Decrement(t: nat, n: nat)
      requires Enabled(View(), CountDown(t, n))
      modifies this
      ensures View() == Apply(old(View()), CountDown(t, n))
    {
      count, pcs := count - n, pcs[t := Returned];
      if n > 0 { last := ByCountDown; }
    }

    method BeginWait(t: nat)
      requires Enabled(View(), Wait(t))
      modifies this
      ensures View() == Apply(old(View()), Wait(t))
    {
      pcs := pcs[t := Waiting];
    }

    method Complete(t: nat)
      requires Enabled(View(), SetValue(t))
      modifies this
      ensures View() == Apply(old(View()), SetValue(t))
    {
      if ready {
        pcs := pcs[t := Threw];
      } else {
        ready, pcs := true, pcs[t := Returned];
      }
    }

    method EndWait(t: nat)
      requires Enabled(View(), Return(t))
      modifies this
      ensures View() == Apply(old(View()), Return(t))
    {
      pcs := pcs[t := Returned];
    }
  }
}
