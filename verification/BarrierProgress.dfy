/**
  Who gets out of the cyclic barrier of core/barrier.hpp: a waiter whose generation has been turned
  can always leave, and a generation can be turned exactly as long as somebody still owes it an
  arrival.  The runs given contain no spurious wake-up and no decision to drop.
 */
module BarrierProgress {
  import opened Barrier
  import opened Wrappers

  // ---------- Runs in pieces ----------

  ghost predicate Plain(run: seq<Event>) {
    forall e :: e in run ==> !e.Wake? && !e.AnnounceDrop?
  }

  lemma {:induction false} RunsJoin(s: State, a: seq<Event>, mid: State, b: seq<Event>, end: State)
    requires IsRun(s, a, mid) && IsRun(mid, b, end)
    ensures IsRun(s, a + b, end) && (Plain(a) && Plain(b) ==> Plain(a + b))
    decreases |a|
  {
    hide Enabled, Apply, Plain;
    if a == [] {
      assert a + b == b;
    } else {
      RunsJoin(Apply(s, a[0]), a[1..], mid, b, end);
      assert (a + b)[0] == a[0] && (a + b)[1..] == a[1..] + b;
    }
    assert Plain(a) && Plain(b) ==> Plain(a + b) by { PlainJoin(a, b); }
  }

  lemma {:induction false} PlainJoin(a: seq<Event>, b: seq<Event>)
    ensures Plain(a) && Plain(b) ==> Plain(a + b)
  {
  }

  lemma {:induction false} RunOfOne(s: State, e: Event)
    requires Enabled(s, e)
    ensures IsRun(s, [e], Apply(s, e)) && (!e.Wake? && !e.AnnounceDrop? ==> Plain([e]))
  {
    hide Enabled, Apply;
    assert [e][0] == e && [e][1..] == [];
    assert IsRun(Apply(s, e), [], Apply(s, e));
  }

  // ---------- Coming home ----------

  /** A thread that returns is outside the barrier afterwards, ready for the next generation. */
  lemma {:induction false} ReturnGoesHome(s: State, e: Event, g: nat)
    requires Reachable(s) && Returns(s, e, g)
    ensures e.t < |Apply(s, e).pcs| && Apply(s, e).pcs[e.t].Idle?
  {
    ReachableInv(s);
    assert ThreadOk(s, e.t);
  }

  // ... and that is the only way from the inside to the outside.
  lemma {:induction false} HomeOnlyByReturn(s: State, e: Event, t: nat)
    requires Enabled(s, e) && t < |s.pcs| && !s.pcs[t].Idle?
    requires t < |Apply(s, e).pcs| && Apply(s, e).pcs[t].Idle?
    ensures e.t == t && exists g :: Returns(s, e, g)
  {
    assert e.t == t;
    assert Returns(s, e, s.pcs[t].gen);
  }

  // A spurious wake-up is possible at any time and undone by the test of the generation.
  lemma {:induction false} SpuriousWakeHarmless(s: State, t: nat)
    requires t < |s.pcs| && s.pcs[t].Blocked? && s.pcs[t].gen == s.generation
    ensures Enabled(s, Wake(t)) && Apply(s, Wake(t)).pcs[t] == Woken(s.generation)
    ensures s.owner.None? ==> Enabled(Apply(s, Wake(t)), Resume(t)) && Apply(Apply(s, Wake(t)), Resume(t)) == s
  {
  }

  /** A participant may drop out whenever it is outside the barrier, whoever holds the mutex. */
  lemma {:induction false} DropServed(s: State, t: nat) returns (end: State)
    requires t < |s.pcs| && s.pcs[t].Idle?
    ensures IsRun(s, [AnnounceDrop(t), FinishDrop(t)], end)
    ensures end.pcs == s.pcs[t := Gone] && end.owner == s.owner && end.count == s.count - 1 && end.dropped == s.dropped + 1
  {
    var run := [AnnounceDrop(t), FinishDrop(t)];
    assert run[1..] == [FinishDrop(t)] && [FinishDrop(t)][1..] == [];
    var mid := Apply(s, AnnounceDrop(t));
    end := Apply(mid, FinishDrop(t));
    assert IsRun(end, [], end) && IsRun(mid, [FinishDrop(t)], end);
  }

  predicate Waits(pc: Pc) {
    pc.Blocked? || pc.Woken?
  }

  // What the holder of the mutex, or the one who owes the notification, does next.
  function HolderStep(s: State, u: nat): Event
    requires u < |s.pcs|
  {
    match s.pcs[u]
    case Locked => FetchSub(u)
    case Counted(before) => if before > 1 then Sleep(u) else Advance(u)
    case Advanced(_) => Settle(u)
    case Settled(_) => Store(u)
    case Restored(_) => Complete(u)
    case Completed(_) => Unlock(u)
    case _ => Notify(u)
  }

  function HolderLeft(pc: Pc): nat {
    match pc
    case Locked => 2
    case Counted(_) => 1
    case Advanced(_) => 5
    case Settled(_) => 4
    case Restored(_) => 3
    case Completed(_) => 2
    case Notifying(_) => 1
    case _ => 0
  }

  // Whoever has to move before t can: the notifier while t is blocked, else the mutex's holder.
  function Hinders(s: State, t: nat): Option<nat>
    requires t < |s.pcs|
  {
    if s.pcs[t].Blocked? then s.notifier else s.owner
  }

  function HomeLeft(s: State, t: nat): nat
    requires t < |s.pcs|
  {
    if !Waits(s.pcs[t]) then 0
    else
      var h := Hinders(s, t);
      (if s.pcs[t].Blocked? then 10 else 1) + if h.Some? && h.value < |s.pcs| then HolderLeft(s.pcs[h.value]) else 0
  }

  function NextHome(s: State, t: nat): Event
    requires t < |s.pcs|
  {
    var h := Hinders(s, t);
    if h.Some? && h.value < |s.pcs| then HolderStep(s, h.value) else Resume(t)
  }

  // A waiter of an earlier generation, or one that has already left.
  ghost predicate Released(s: State, t: nat) {
    t < |s.pcs| && (Waits(s.pcs[t]) ==> s.pcs[t].gen != s.generation)
  }

  lemma {:induction false} HomeStep(s: State, t: nat)
    requires Inv(s) && Released(s, t) && Waits(s.pcs[t])
    ensures var e := NextHome(s, t);
            && Enabled(s, e) && !e.Wake? && !e.AnnounceDrop?
            && Released(Apply(s, e), t) && (Waits(Apply(s, e).pcs[t]) || Apply(s, e).pcs[t].Idle?)
            && HomeLeft(Apply(s, e), t) < HomeLeft(s, t)
  {
    hide CompletionsOk, PastOk;
    CountersMean(s);
    assert ThreadOk(s, t);
    var h := Hinders(s, t);
    if h.Some? {
      assert ThreadOk(s, h.value);
      if s.pcs[h.value].Counted? && s.pcs[h.value].before <= 1 { StillOwed(s, t); }
      hide Inv;
      HinderedStep(s, t, h.value);
    }
  }

  // The one in the way of t makes a step.
  lemma {:induction false} HinderedStep(s: State, t: nat, u: nat)
    requires t < |s.pcs| && u < |s.pcs| && Waits(s.pcs[t]) && s.pcs[t].gen != s.generation
    requires ThreadOk(s, t) && ThreadOk(s, u) && Hinders(s, t) == Some(u)
    requires s.pcs[u].Counted? ==> s.pcs[u].before > 1
    ensures var e := HolderStep(s, u);
            && Enabled(s, e) && !e.Wake? && !e.AnnounceDrop? && !e.Advance?
            && Released(Apply(s, e), t) && Waits(Apply(s, e).pcs[t])
            && HomeLeft(Apply(s, e), t) < HomeLeft(s, t)
  {
  }

  // As long as somebody owes the generation a decrement, nobody is about to turn it.
  lemma {:induction false} StillOwed(s: State, t: nat)
    requires Inv(s) && CountMeans(s) && Owes(s, t) && !MidTurn(s)
    ensures s.count >= 1
  {
  }

  /**
    Whoever waits on a generation that has been turned can leave, whatever the others are doing:
    there is a run that ends with it outside.
   */
  lemma {:induction false} ComesHome(s: State, t: nat) returns (run: seq<Event>, end: State)
    requires Inv(s) && t < |s.pcs| && Waits(s.pcs[t]) && s.pcs[t].gen != s.generation
    ensures IsRun(s, run, end) && Plain(run) && Inv(end) && t < |end.pcs| && end.pcs[t].Idle?
    decreases HomeLeft(s, t)
  {
    var e := NextHome(s, t);
    HomeStep(s, t);
    StepKeepsInv(s, e);
    RunOfOne(s, e);
    hide Enabled, Apply, Inv, HomeLeft, NextHome, Plain;
    if Waits(Apply(s, e).pcs[t]) {
      var rest;
      rest, end := ComesHome(Apply(s, e), t);
      run := [e] + rest;
      RunsJoin(s, [e], Apply(s, e), rest, end);
    } else {
      run, end := [e], Apply(s, e);
    }
  }

  // ---------- Turning a generation ----------

  // The last arrival has been counted and is about to turn the generation.
  ghost predicate Closing(s: State) {
    exists t :: 0 <= t < |s.pcs| && s.pcs[t].Counted? && s.pcs[t].before <= 1
  }

  ghost predicate CanTurn(s: State) {
    Closing(s) || exists t :: Owes(s, t)
  }

  // How far a thread is from having arrived in the generation.
  function Weight(pc: Pc, generation: nat): nat {
    match pc
    case Idle => 3
    case Locked => 2
    case Counted(_) => 1
    case Blocked(g) => if g == generation then 0 else 5
    case Woken(g) => if g == generation then 0 else 4
    case Advanced(_) => 8
    case Settled(_) => 7
    case Restored(_) => 6
    case Completed(_) => 5
    case Notifying(_) => 4
    case Dropping => 1
    case Gone => 0
  }

  function Weights(pcs: seq<Pc>, generation: nat): nat {
    if pcs == [] then 0 else Weights(pcs[..|pcs| - 1], generation) + Weight(pcs[|pcs| - 1], generation)
  }

  lemma {:induction false} WeightsFall(a: seq<Pc>, b: seq<Pc>, generation: nat)
    requires |a| == |b| && forall t :: 0 <= t < |a| ==> Weight(b[t], generation) <= Weight(a[t], generation)
    ensures Weights(b, generation) <= Weights(a, generation)
    ensures (exists t :: 0 <= t < |a| && Weight(b[t], generation) < Weight(a[t], generation)) ==>
            Weights(b, generation) < Weights(a, generation)
  {
    hide Weight;
    if a != [] { WeightsFall(a[..|a| - 1], b[..|b| - 1], generation); }
  }

  // A step that brings thread e.t nearer and takes nobody back.
  ghost predicate Nearer(s: State, e: Event) {
    && Enabled(s, e) && !e.Wake? && !e.AnnounceDrop? && !e.Advance?
    && var s' := Apply(s, e);
       && s'.generation == s.generation && |s'.pcs| == |s.pcs|
       && Weight(s'.pcs[e.t], s.generation) < Weight(s.pcs[e.t], s.generation)
       && forall t :: 0 <= t < |s.pcs| ==> Weight(s'.pcs[t], s.generation) <= Weight(s.pcs[t], s.generation)
  }

  ghost predicate NobodyDropping(s: State) {
    forall t :: 0 <= t < |s.pcs| ==> !s.pcs[t].Dropping?
  }

  // Nobody but t itself can make its debt disappear, short of a turn.
  lemma {:induction false} StillOwes(s: State, e: Event, t: nat)
    requires Enabled(s, e) && Owes(s, t) && !e.Advance? && (e.FetchSub? || e.FinishDrop? || e.AnnounceDrop? ==> e.t != t)
    ensures Owes(Apply(s, e), t)
  {
    hide WakeAll;
  }

  lemma {:induction false} StillClosing(s: State, e: Event)
    requires Enabled(s, e) && Closing(s) && !s.pcs[e.t].Counted?
    ensures Closing(Apply(s, e))
  {
    var t :| 0 <= t < |s.pcs| && s.pcs[t].Counted? && s.pcs[t].before <= 1;
    assert Apply(s, e).pcs[t] == s.pcs[t];
  }

  lemma {:induction false} DropStep(s: State, d: nat)
    requires Inv(s) && CanTurn(s) && d < |s.pcs| && s.pcs[d].Dropping?
    ensures Nearer(s, FinishDrop(d)) && CanTurn(Apply(s, FinishDrop(d)))
  {
    assert d in s.dropping by { assert ThreadOk(s, d); }
    hide Inv, ThreadOk;
    if Closing(s) {
      StillClosing(s, FinishDrop(d));
    } else {
      var t :| Owes(s, t);
      StillOwes(s, FinishDrop(d), t);
    }
  }

  // Who holds the mutex or owes the notification moves on.
  lemma {:induction false} HolderMoves(s: State, u: nat)
    requires Inv(s) && CanTurn(s) && NobodyDropping(s) && u < |s.pcs|
    requires s.owner == Some(u) || (s.owner.None? && s.notifier == Some(u))
    ensures var e := HolderStep(s, u);
            && Enabled(s, e) && (e.Advance? || (Nearer(s, e) && CanTurn(Apply(s, e))))
  {
    assert ThreadOk(s, u);
    if s.pcs[u].Locked? {
      ArrivalKeepsTurn(s, u);
    } else {
      HolderNearer(s, u);
      hide Inv, ThreadOk, Nearer, CanTurn;
      if !HolderStep(s, u).Advance? { HolderKeepsOwing(s, u); }
    }
  }

  lemma {:induction false} HolderNearer(s: State, u: nat)
    requires u < |s.pcs| && ThreadOk(s, u) && !s.pcs[u].Locked?
    requires s.owner == Some(u) || (s.owner.None? && s.notifier == Some(u))
    ensures var e := HolderStep(s, u); Enabled(s, e) && (e.Advance? || Nearer(s, e))
  {
  }

  lemma {:induction false} HolderKeepsOwing(s: State, u: nat)
    requires Inv(s) && CanTurn(s) && u < |s.pcs| && !s.pcs[u].Locked?
    requires s.owner == Some(u) || (s.owner.None? && s.notifier == Some(u))
    requires Enabled(s, HolderStep(s, u)) && !HolderStep(s, u).Advance?
    ensures CanTurn(Apply(s, HolderStep(s, u)))
  {
    assert !Closing(s) by {
      if Closing(s) { ClosingHolds(s); }
    }
    hide Inv, Apply, Closing;
    var t :| Owes(s, t);
    StillOwes(s, HolderStep(s, u), t);
  }

  // An arrival leaves somebody who still owes, or is the last one.
  lemma {:induction false} ArrivalKeepsTurn(s: State, u: nat)
    requires Inv(s) && NobodyDropping(s) && u < |s.pcs| && s.pcs[u].Locked?
    ensures Nearer(s, FetchSub(u)) && CanTurn(Apply(s, FetchSub(u)))
  {
    var s' := Apply(s, FetchSub(u));
    assert ThreadOk(s, u);
    StepKeepsInv(s, FetchSub(u));
    CountersMean(s');
    assert s'.pcs[u] == Counted(s.count);
    if s.count > 1 {
      var t :| t in s'.members && t !in s'.arrived + s'.departed;
      NobodyDrops(s, t);
      assert Owes(s', t);
    } else {
      assert Closing(s');
    }
  }

  lemma {:induction false} NobodyDrops(s: State, t: nat)
    requires Inv(s) && NobodyDropping(s) && t in s.members && t !in s.departed
    ensures t !in s.dropping
  {
    assert t < |s.pcs|;
    assert ThreadOk(s, t);
  }

  // With the mutex free and everybody notified, whoever owes an arrival can come nearer to it.
  lemma {:induction false} OwerMoves(s: State, t: nat) returns (e: Event)
    requires Inv(s) && Owes(s, t) && s.owner.None? && s.notifier.None?
    ensures Nearer(s, e) && CanTurn(Apply(s, e))
  {
    assert t < |s.pcs|;
    assert ThreadOk(s, t);
    e := if s.pcs[t].Idle? then Lock(t) else Resume(t);
    assert Owes(Apply(s, e), t);
  }

  lemma {:induction false} TurnStep(s: State) returns (e: Event)
    requires Inv(s) && CanTurn(s)
    ensures Enabled(s, e) && !e.Wake? && !e.AnnounceDrop?
    ensures e.Advance? || (Nearer(s, e) && CanTurn(Apply(s, e)))
  {
    if !NobodyDropping(s) {
      var d :| 0 <= d < |s.pcs| && s.pcs[d].Dropping?;
      DropStep(s, d);
      e := FinishDrop(d);
    } else if s.owner.Some? || s.notifier.Some? {
      var u := if s.owner.Some? then s.owner.value else s.notifier.value;
      HolderMoves(s, u);
      e := HolderStep(s, u);
    } else {
      if Closing(s) { ClosingHolds(s); }
      var t :| Owes(s, t);
      e := OwerMoves(s, t);
    }
  }

  lemma {:induction false} ClosingHolds(s: State)
    requires Inv(s) && Closing(s)
    ensures s.owner.Some? && s.owner.value < |s.pcs| && HolderStep(s, s.owner.value).Advance?
  {
    var t :| 0 <= t < |s.pcs| && s.pcs[t].Counted? && s.pcs[t].before <= 1;
    assert ThreadOk(s, t);
  }

  // Waiting on the current generation ends with its turn at the earliest.
  ghost predicate WaitersStay(s: State, s': State) {
    |s'.pcs| == |s.pcs| &&
    forall t :: 0 <= t < |s.pcs| && Waits(s.pcs[t]) && s.pcs[t].gen == s.generation ==>
      Waits(s'.pcs[t]) && s'.pcs[t].gen == s.generation
  }

  lemma {:induction false} StepKeepsWaiters(s: State, e: Event)
    requires Enabled(s, e)
    ensures WaitersStay(s, Apply(s, e))
  {
  }

  lemma {:induction false} Turns(s: State) returns (run: seq<Event>, end: State)
    requires Inv(s) && CanTurn(s)
    ensures IsRun(s, run, end) && Plain(run) && Inv(end) && end.generation == s.generation + 1
    ensures WaitersStay(s, end)
    decreases Weights(s.pcs, s.generation)
  {
    var e := TurnStep(s);
    StepKeepsInv(s, e);
    RunOfOne(s, e);
    StepKeepsWaiters(s, e);
    if e.Advance? {
      run, end := [e], Apply(s, e);
    } else {
      WeightsFall(s.pcs, Apply(s, e).pcs, s.generation);
      hide Enabled, Apply, Inv, Weights, CanTurn, Plain;
      var rest;
      rest, end := Turns(Apply(s, e));
      run := [e] + rest;
      RunsJoin(s, [e], Apply(s, e), rest, end);
    }
  }

  // ---------- Never turning ----------

  // The generation g is over for t: it waits on it, and nobody can turn it any more.
  ghost predicate Forsaken(s: State, t: nat, g: nat) {
    t < |s.pcs| && Waits(s.pcs[t]) && s.pcs[t].gen == g == s.generation && !CanTurn(s)
  }

  lemma {:induction false} StaysForsaken(s: State, e: Event, t: nat, g: nat)
    requires Inv(s) && Forsaken(s, t, g) && Enabled(s, e)
    ensures Forsaken(Apply(s, e), t, g)
  {
    var s' := Apply(s, e);
    assert ThreadOk(s, e.t) && ThreadOk(s, t) && TurnOk(s, e.t);
    assert !Owes(s, e.t);
    if s.pcs[e.t].Counted? { assert s.pcs[e.t].before > 1; }
    assert forall u :: 0 <= u < |s.pcs| && s'.pcs[u].Counted? ==> s.pcs[u] == s'.pcs[u];
    forall u ensures !Owes(s', u) { assert !Owes(s, u); }
  }

  lemma {:induction false} ForsakenForever(s: State, run: seq<Event>, end: State, t: nat, g: nat)
    requires Inv(s) && Forsaken(s, t, g) && IsRun(s, run, end)
    ensures Forsaken(end, t, g)
    decreases |run|
  {
    hide Enabled, Apply, Inv, Forsaken;
    if run != [] {
      StaysForsaken(s, run[0], t, g);
      StepKeepsInv(s, run[0]);
      ForsakenForever(Apply(s, run[0]), run[1..], end, t, g);
    }
  }

  ghost predicate CanLeave(s: State, t: nat) {
    exists run, end :: IsRun(s, run, end) && t < |end.pcs| && end.pcs[t].Idle?
  }

  /**
    Whoever waits can still leave exactly if its generation has been turned, or its last arrival
    is turning it, or some participant owes it neither a drop under way nor an arrival done.
    Participants who have begun to drop do not help: when only they are left, nobody gets out.
   */
  lemma {:induction false} LeavesIff(s: State, t: nat)
    requires Reachable(s) && t < |s.pcs| && Waits(s.pcs[t])
    ensures CanLeave(s, t) <==> s.pcs[t].gen != s.generation || CanTurn(s)
  {
    ReachableInv(s);
    hide Enabled, Apply, Inv, CanTurn;
    if s.pcs[t].gen != s.generation {
      var run, end := ComesHome(s, t);
    } else if CanTurn(s) {
      LeavesAfterTurn(s, t);
    } else {
      forall run, end | IsRun(s, run, end) ensures !(t < |end.pcs| && end.pcs[t].Idle?) {
        ForsakenForever(s, run, end, t, s.generation);
      }
    }
  }

  lemma {:induction false} LeavesAfterTurn(s: State, t: nat)
    requires Inv(s) && t < |s.pcs| && Waits(s.pcs[t]) && s.pcs[t].gen == s.generation && CanTurn(s)
    ensures CanLeave(s, t)
  {
    var a, mid := Turns(s);
    var b, end := ComesHome(mid, t);
    RunsJoin(s, a, mid, b, end);
  }
}
