/**
  Who gets past the latch of core/latch.hpp: a waiting thread can return exactly as long as the
  promise is set or about to be, or the threads that have not moved yet can still use up the count
  so that an arrival is the last.
 */
module LatchProgress {
  import opened Latch

  ghost predicate CanReturn(s: State, w: nat) {
    exists run, end :: IsRun(s, run, end) && w < |end.pcs| && end.pcs[w].Returned?
  }

  // Another thread that has not performed its operation yet.
  ghost predicate IdleThread(s: State, t: nat) {
    t < |s.pcs| && s.pcs[t].Idle?
  }

  ghost predicate Hope(s: State) {
    || s.ready || s.setters != {}
    || (s.count == 1 && exists t :: IdleThread(s, t))
    || (s.count > 1 && exists t, u :: t != u && IdleThread(s, t) && IdleThread(s, u))
  }

  // ---------- With hope ----------

  lemma {:induction false} Prepend(s: State, e: Event, run: seq<Event>, end: State)
    requires Enabled(s, e) && WithinBudget(s, e) && IsRun(Apply(s, e), run, end)
    ensures IsRun(s, [e] + run, end)
  {
    hide Enabled, Apply, WithinBudget;
    assert ([e] + run)[0] == e && ([e] + run)[1..] == run;
  }

  lemma {:induction false} StepThenReturn(s: State, e: Event, w: nat)
    requires Enabled(s, e) && WithinBudget(s, e) && CanReturn(Apply(s, e), w)
    ensures CanReturn(s, w)
  {
    hide Enabled, Apply, WithinBudget;
    var run, end :| IsRun(Apply(s, e), run, end) && w < |end.pcs| && end.pcs[w].Returned?;
    Prepend(s, e, run, end);
  }

  // A wait ends once the promise is set.
  lemma {:induction false} ReadyReturns(s: State, w: nat)
    requires w < |s.pcs| && s.pcs[w].Waiting? && s.ready
    ensures CanReturn(s, w)
  {
    var end := Apply(s, Return(w));
    assert IsRun(end, [], end) && end.pcs[w].Returned?;
    assert CanReturn(end, w);
    StepThenReturn(s, Return(w), w);
  }

  lemma {:induction false} SetterReturns(s: State, w: nat)
    requires Inv(s) && w < |s.pcs| && s.pcs[w].Waiting? && !s.ready && s.setters != {}
    ensures CanReturn(s, w)
  {
    var t :| t in s.setters;
    assert ThreadOk(s, t);
    ReadyReturns(Apply(s, SetValue(t)), w);
    StepThenReturn(s, SetValue(t), w);
  }

  lemma {:induction false} LastArrivalReturns(s: State, w: nat, t: nat)
    requires Inv(s) && w < |s.pcs| && s.pcs[w].Waiting? && !s.ready && s.count == 1 && IdleThread(s, t)
    ensures CanReturn(s, w)
  {
    var e := CountDownAndWait(t);
    StepKeepsInv(s, e);
    assert t in Apply(s, e).setters;
    SetterReturns(Apply(s, e), w);
    StepThenReturn(s, e, w);
  }

  lemma {:induction false} TwoReturn(s: State, w: nat, t: nat, u: nat)
    requires Inv(s) && w < |s.pcs| && s.pcs[w].Waiting? && !s.ready && s.count > 1
    requires t != u && IdleThread(s, t) && IdleThread(s, u)
    ensures CanReturn(s, w)
  {
    var e := CountDown(t, s.count - 1);
    StepKeepsInv(s, e);
    LastArrivalReturns(Apply(s, e), w, u);
    StepThenReturn(s, e, w);
  }

  // ---------- Without ----------

  lemma {:induction false} StaysHopeless(s: State, e: Event, w: nat)
    requires Inv(s) && !Hope(s) && Enabled(s, e) && WithinBudget(s, e) && w < |s.pcs| && s.pcs[w].Waiting?
    ensures !Hope(Apply(s, e)) && w < |Apply(s, e).pcs| && Apply(s, e).pcs[w].Waiting?
  {
    assert ThreadOk(s, e.t);
    var s' := Apply(s, e);
    assert forall t :: IdleThread(s', t) ==> IdleThread(s, t) && t != e.t;
    if s.pcs[e.t].Idle? { assert IdleThread(s, e.t); }
  }

  lemma {:induction false} HopelessForever(s: State, run: seq<Event>, end: State, w: nat)
    requires Inv(s) && !Hope(s) && IsRun(s, run, end) && w < |s.pcs| && s.pcs[w].Waiting?
    ensures w < |end.pcs| && end.pcs[w].Waiting?
    decreases |run|
  {
    if run != [] {
      StaysHopeless(s, run[0], w);
      StepKeepsInv(s, run[0]);
      hide Inv, Hope, Enabled, Apply, WithinBudget;
      HopelessForever(Apply(s, run[0]), run[1..], end, w);
    }
  }

  /**
    A waiting thread can still return, within the budget, exactly if the promise is set, or some
    thread is to set it, or the count can still be taken to zero by an arrival: by one thread that
    has yet to move if it is one, by two if it is more.
   */
  lemma {:induction false} ReturnsIff(s: State, w: nat)
    requires Reachable(s) && w < |s.pcs| && s.pcs[w].Waiting?
    ensures CanReturn(s, w) <==> Hope(s)
  {
    ReachableInv(s);
    if Hope(s) {
      if s.ready {
        ReadyReturns(s, w);
      } else if s.setters != {} {
        SetterReturns(s, w);
      } else if s.count == 1 {
        var t :| IdleThread(s, t);
        LastArrivalReturns(s, w, t);
      } else {
        var t, u :| t != u && IdleThread(s, t) && IdleThread(s, u);
        TwoReturn(s, w, t, u);
      }
    } else {
      forall run, end | IsRun(s, run, end) ensures !(w < |end.pcs| && end.pcs[w].Returned?) {
        HopelessForever(s, run, end, w);
      }
    }
  }
}
