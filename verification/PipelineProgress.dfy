/**
  What the tile pipeline of gallery/plugin.cpp achieves: release stops the decode threads, and
  nothing but release or a bad response does; what a decode thread has received reaches the render
  queue; a frame at the head of the render queue can be shown.
 */
module PipelineProgress {
  import opened Sequences
  import opened TilePipeline
  import opened Wrappers

  lemma {:induction false} Prepend(s: State, e: Event, es: seq<Event>)
    requires Enabled(s, e) && RunEnabled(Apply(s, e), es)
    ensures RunEnabled(s, [e] + es) && Run(s, [e] + es) == Run(Apply(s, e), es)
  {
    hide Enabled, Apply;
    assert ([e] + es)[0] == e && ([e] + es)[1..] == es;
  }

  // ---------- Release ----------

  lemma {:induction false} StepKeepsStreams(s: State, e: Event)
    requires Enabled(s, e)
    ensures |Apply(s, e).streams| == |s.streams| && (Apply(s, e).running <==> s.running && !e.Release?)
  {
    hide StreamStep, StreamEnabled, ActAsserts, BeginTexture, EndTexture;
  }

  // Only release clears running.
  lemma {:induction false} RunningIff(s: State, es: seq<Event>)
    requires RunEnabled(s, es)
    ensures |Run(s, es).streams| == |s.streams| && (Run(s, es).running <==> s.running && Release !in es)
    decreases |es|
  {
    hide Enabled, Apply;
    if es != [] {
      StepKeepsStreams(s, es[0]);
      RunningIff(Apply(s, es[0]), es[1..]);
      assert es == [es[0]] + es[1..];
    }
  }

  // What any event does to the decode side of a stream: its own step, or nothing.
  lemma {:induction false} StreamAfter(s: State, e: Event, i: nat)
    requires Enabled(s, e) && i < |s.streams|
    ensures i < |Apply(s, e).streams|
    ensures var st, st' := s.streams[i], Apply(s, e).streams[i];
            if Local(e) && e.i == i then StreamEnabled(st, e) && st' == StreamStep(st, e, s.running)
            else SameDecoding(st, st')
  {
    match e {
      case Act => ActAfter(s, i);
      case Enter(_) =>
        hide StreamStep, StreamEnabled, ActEvent, ActAsserts;
      case Release =>
        hide StreamStep, StreamEnabled, ActEvent, ActAsserts;
      case _ =>
        hide StreamStep, StreamEnabled, ActEvent, EnterEvent, ActAsserts;
    }
  }

  predicate SameDecoding(st: Stream, st': Stream) {
    st'.decoder == st.decoder && st'.written == st.written && st'.count == st.count && st'.decodeTry == st.decodeTry
  }

  lemma {:induction false} ActAfter(s: State, i: nat)
    requires Enabled(s, Act) && i < |s.streams|
    ensures i < |Apply(s, Act).streams| && SameDecoding(s.streams[i], Apply(s, Act).streams[i])
  {
    var op := s.render.value;
    if op.i < |s.streams| && ActAsserts(s.streams[op.i], op) {
      var st := s.streams[op.i];
      if op.begin {
        assert SameDecoding(st, BeginTexture(st, op.plane));
      } else {
        assert SameDecoding(st, EndTexture(st, op.plane));
      }
      hide ActAsserts, BeginTexture, EndTexture;
    }
  }

  // ---------- Polling ----------

  // A running system can be released and every stream polled, at any time.
  lemma {:induction false} AlwaysPossible(s: State, i: nat)
    requires !s.crashed && i < |s.streams|
    ensures Enabled(s, Release)
    ensures s.streams[i].inHand.None? ==> Enabled(s, Miss(i)) || Enabled(s, Take(i))
  {
  }

  predicate Polls(e: Event, i: nat) {
    e == Miss(i) || e == Take(i)
  }

  function PollCount(es: seq<Event>, i: nat): nat {
    if es == [] then 0 else (if Polls(es[0], i) then 1 else 0) + PollCount(es[1..], i)
  }

  /** decode_try counts the polls of a stream, with or without success. */
  lemma {:induction false} TriesCounted(s: State, es: seq<Event>, i: nat)
    requires RunEnabled(s, es) && i < |s.streams|
    ensures i < |Run(s, es).streams| && Run(s, es).streams[i].decodeTry == s.streams[i].decodeTry + PollCount(es, i)
    decreases |es|
  {
    if es != [] {
      TryCounted(s, es[0], i);
      hide Enabled, Apply;
      TriesCounted(Apply(s, es[0]), es[1..], i);
    }
  }

  lemma {:induction false} TryCounted(s: State, e: Event, i: nat)
    requires Enabled(s, e) && i < |s.streams|
    ensures i < |Apply(s, e).streams|
    ensures Apply(s, e).streams[i].decodeTry == s.streams[i].decodeTry + if Polls(e, i) then 1 else 0
  {
    StreamAfter(s, e, i);
    hide Apply, Enabled;
  }

  // ---------- Stopping ----------

  predicate Armed(st: Stream) {
    st.decoder.Writing? && st.decoder.armed
  }

  // Pictures written, and the one a thread will still try to write that has seen running set.
  function Committed(st: Stream): nat {
    st.count + if Armed(st) then 1 else 0
  }

  lemma {:induction false} CommitsNoMore(s: State, e: Event, i: nat)
    requires Enabled(s, e) && !s.running && i < |s.streams|
    ensures i < |Apply(s, e).streams| && Committed(Apply(s, e).streams[i]) <= Committed(s.streams[i])
  {
    StreamAfter(s, e, i);
    hide Apply, Enabled;
  }

  lemma {:induction false} RunCommitsNoMore(s: State, es: seq<Event>, i: nat)
    requires RunEnabled(s, es) && !s.running && i < |s.streams|
    ensures i < |Run(s, es).streams| && Committed(Run(s, es).streams[i]) <= Committed(s.streams[i])
    decreases |es|
  {
    hide Enabled, Apply, Committed;
    if es != [] {
      StepKeepsStreams(s, es[0]);
      CommitsNoMore(s, es[0], i);
      RunCommitsNoMore(Apply(s, es[0]), es[1..], i);
    }
  }

  // The pictures among the frames written: all but a null frame at the end.
  function Pictures(st: Stream): int {
    |st.written| - if EndsNull(st.written) then 1 else 0
  }

  /**
    Once running is cleared, a stream never gets more than one more picture, in this segment or
    any later one, and that only if its thread had already seen running set.
   */
  lemma {:induction false} ReleaseStops(s: State, es: seq<Event>, i: nat)
    requires Reachable(s) && !s.running && RunEnabled(s, es) && i < |s.streams|
    ensures i < |Run(s, es).streams|
    ensures Pictures(Run(s, es).streams[i]) <= Pictures(s.streams[i]) + if Armed(s.streams[i]) then 1 else 0
  {
    ReachableInv(s);
    RunInv(s, es);
    RunCommitsNoMore(s, es, i);
    assert StreamOk(s.streams[i]) && StreamOk(Run(s, es).streams[i]);
  }

  predicate Rests(st: Stream, st': Stream) {
    st'.decoder.Stopped? && st'.written == st.written && st'.count == st.count
  }

  lemma {:induction false} StaysStopped(s: State, es: seq<Event>, i: nat)
    requires RunEnabled(s, es) && i < |s.streams| && s.streams[i].decoder.Stopped?
    ensures i < |Run(s, es).streams| && Rests(s.streams[i], Run(s, es).streams[i])
    decreases |es|
  {
    if es != [] {
      StoppedStep(s, es[0], i);
      hide Enabled, Apply;
      StaysStopped(Apply(s, es[0]), es[1..], i);
    }
  }

  lemma {:induction false} StoppedStep(s: State, e: Event, i: nat)
    requires Enabled(s, e) && i < |s.streams| && s.streams[i].decoder.Stopped?
    ensures i < |Apply(s, e).streams| && Rests(s.streams[i], Apply(s, e).streams[i])
  {
    StreamAfter(s, e, i);
    hide Apply, Enabled;
  }

  /** A decode thread that finds running cleared has stopped for ever, without writing anything. */
  lemma {:induction false} LoadStops(s: State, es: seq<Event>, i: nat)
    requires RunEnabled(s, es) && es != [] && es[0] == Load(i) && !s.running
    ensures i < |s.streams| && i < |Run(s, es).streams| && Rests(s.streams[i], Run(s, es).streams[i])
  {
    StaysStopped(Apply(s, es[0]), es[1..], i);
  }

  // One that finds it set does not stop: it is about to write the same frame.
  lemma {:induction false} LoadGoesOn(s: State, i: nat)
    requires Enabled(s, Load(i)) && s.running
    ensures var st, s' := s.streams[i], Apply(s, Load(i));
            && s' == Update(s, i, st.(decoder := Writing(st.decoder.pending, true)))
            && Enabled(s', Write(i)) && !Enabled(s', Load(i))
  {
  }

  predicate Alive(st: Stream) {
    st.decoder.Waiting? || st.decoder.Writing?
  }

  /** As long as nothing is released, a decode thread is stopped by a bad response only. */
  lemma {:induction false} StopsOnlySo(s: State, es: seq<Event>, i: nat)
    requires RunEnabled(s, es) && i < |s.streams| && Alive(s.streams[i])
    requires s.running && Release !in es && DeliverBad(i) !in es
    ensures i < |Run(s, es).streams| && Alive(Run(s, es).streams[i])
    decreases |es|
  {
    if es != [] {
      assert es[0] in es;
      StaysAlive(s, es[0], i);
      StepKeepsStreams(s, es[0]);
      hide Enabled, Apply;
      StopsOnlySo(Apply(s, es[0]), es[1..], i);
    }
  }

  lemma {:induction false} StaysAlive(s: State, e: Event, i: nat)
    requires Enabled(s, e) && i < |s.streams| && Alive(s.streams[i]) && s.running && e != DeliverBad(i)
    ensures i < |Apply(s, e).streams| && Alive(Apply(s, e).streams[i])
  {
    StreamAfter(s, e, i);
    hide Apply, Enabled;
  }

  // ---------- Joining the decode threads ----------

  // Steps a decode thread takes without anybody else: no segment arrives and nobody polls.
  predicate OwnStep(e: Event, i: nat) {
    e in {Load(i), Write(i), Event.Drained(i), PutNull(i), PutFailure(i)}
  }

  predicate OwnSteps(es: seq<Event>, i: nat) {
    forall e :: e in es ==> OwnStep(e, i)
  }

  // After a release: it stands before a load of running, or has room for what it has to report.
  predicate MayEnd(st: Stream) {
    match st.decoder
    case Stopped => true
    case Writing(pending, armed) => pending != [] && !(armed && |pending| == 1 && HasRoom(st))
    case Failing => |st.decodeQueue| + 2 <= st.capacity
    case Reporting => |st.decodeQueue| + 1 <= st.capacity
    case Waiting => false
  }

  function EndLeft(st: Stream): nat {
    match st.decoder
    case Writing(_, armed) => if armed then 2 else 1
    case Failing => 2
    case Reporting => 1
    case _ => 0
  }

  function NextOwn(st: Stream, i: nat): Event {
    match st.decoder
    case Writing(_, armed) => if armed then Write(i) else Load(i)
    case Failing => PutNull(i)
    case _ => PutFailure(i)
  }

  lemma {:induction false} OwnStepEnds(st: Stream, i: nat)
    requires MayEnd(st) && !st.decoder.Stopped?
    ensures var e := NextOwn(st, i);
            && OwnStep(e, i) && e.i == i && Local(e) && StreamEnabled(st, e)
            && MayEnd(StreamStep(st, e, false)) && EndLeft(StreamStep(st, e, false)) < EndLeft(st)
  {
  }

  lemma {:induction false} OwnStepWaits(st: Stream, e: Event, i: nat)
    requires !MayEnd(st) && OwnStep(e, i) && StreamEnabled(st, e)
    ensures !MayEnd(StreamStep(st, e, false))
  {
  }

  lemma {:induction false} LocalStep(s: State, e: Event)
    requires !s.crashed && Local(e) && e.i < |s.streams| && StreamEnabled(s.streams[e.i], e)
    ensures Enabled(s, e)
    ensures var s' := Apply(s, e);
            && |s'.streams| == |s.streams| && s'.streams[e.i] == StreamStep(s.streams[e.i], e, s.running)
            && s'.running == s.running && s'.crashed == s.crashed
  {
    hide StreamStep, StreamEnabled;
  }

  lemma {:induction false} EndsAlone(s: State, i: nat) returns (es: seq<Event>)
    requires !s.running && !s.crashed && i < |s.streams| && MayEnd(s.streams[i])
    ensures RunEnabled(s, es) && OwnSteps(es, i) && i < |Run(s, es).streams| && Run(s, es).streams[i].decoder.Stopped?
    decreases EndLeft(s.streams[i])
  {
    if s.streams[i].decoder.Stopped? {
      es := [];
    } else {
      var e := NextOwn(s.streams[i], i);
      OwnStepEnds(s.streams[i], i);
      LocalStep(s, e);
      hide Enabled, Apply, MayEnd, NextOwn, StreamStep, StreamEnabled, EndLeft;
      var rest := EndsAlone(Apply(s, e), i);
      Prepend(s, e, rest);
      es := [e] + rest;
    }
  }

  lemma {:induction false} NeverEndsAlone(s: State, es: seq<Event>, i: nat)
    requires !s.running && i < |s.streams| && !MayEnd(s.streams[i]) && RunEnabled(s, es) && OwnSteps(es, i)
    ensures i < |Run(s, es).streams| && !MayEnd(Run(s, es).streams[i])
    decreases |es|
  {
    if es != [] {
      var e := es[0];
      assert e in es;
      OwnStepWaits(s.streams[i], e, i);
      LocalStep(s, e);
      hide Enabled, Apply, MayEnd, StreamStep, StreamEnabled;
      NeverEndsAlone(Apply(s, e), es[1..], i);
    }
  }

  ghost predicate EndsByItself(s: State, i: nat) {
    exists es :: RunEnabled(s, es) && OwnSteps(es, i) && i < |Run(s, es).streams| && Run(s, es).streams[i].decoder.Stopped?
  }

  /**
    Release waits for the decode threads.  By itself a thread comes to its end exactly if it
    stands before a load of running, or has room in its decode queue for everything it still has
    to report of a bad response; one that waits for a segment, or writes the last frame of one,
    needs the network, and one with a full queue needs polls that nobody may be making.
   */
  lemma {:induction false} EndsAloneIff(s: State, i: nat)
    requires !s.running && !s.crashed && i < |s.streams|
    ensures EndsByItself(s, i) <==> MayEnd(s.streams[i])
  {
    hide Enabled, Apply;
    if MayEnd(s.streams[i]) {
      var es := EndsAlone(s, i);
    } else {
      forall es | RunEnabled(s, es) && OwnSteps(es, i)
        ensures i < |Run(s, es).streams| && !Run(s, es).streams[i].decoder.Stopped?
      {
        NeverEndsAlone(s, es, i);
      }
    }
  }

  // It happens: the null frame has filled the queue, and the exception behind it finds no room.
  lemma {:induction false} ReleaseHangs()
    ensures exists s :: Reachable(s) && !s.running && !s.crashed && |s.streams| == 1 && !EndsByItself(s, 0) && s.streams[0].decoder.Reporting?
  {
    hide Reachable, RunEnabled, Run, Inv;
    var st := ReportsInVain();
    var s := Reaches(One(st), Release);
    EndsAloneIff(s, 0);
    assert !s.running && !MayEnd(s.streams[0]);
  }

  lemma {:induction false} ReportsInVain() returns (st: Stream)
    ensures Reachable(One(st)) && st.decoder == Reporting && st.capacity == 1 && |st.decodeQueue| == 1
  {
    hide Reachable, RunEnabled, Run, Apply, Enabled;
    st := SendsPicture();
    OneStep(st, Event.Drained(0));
    st := StreamStep(st, Event.Drained(0), true);
    OneStep(st, DeliverBad(0));
    st := StreamStep(st, DeliverBad(0), true);
    OneStep(st, PutNull(0));
    st := StreamStep(st, PutNull(0), true);
  }

  // ---------- From the decode thread to the render queue ----------

  // What the decode thread still has to write of what it has received.
  function Supply(st: Stream): seq<Frame> {
    match st.decoder
    case Writing(pending, _) => pending
    case Failing => [NullFrame]
    case _ => []
  }

  // An exception is on its way to the poll.
  predicate FailureDue(st: Stream) {
    st.decoder.Failing? || st.decoder.Reporting? || st.inHand == Some(Failure) || Failure in st.decodeQueue
  }

  // Nothing is left between the network and the render queue.
  predicate Drained(st: Stream) {
    st.inHand.None? && st.decodeQueue == [] && (st.decoder.Waiting? || st.decoder.Stopped?)
  }

  function NextStep(st: Stream, i: nat): Event {
    if st.inHand.Some? then Hand(i)
    else if st.decodeQueue != [] then Take(i)
    else
      match st.decoder
      case Writing(pending, armed) => if pending == [] then Event.Drained(i) else if armed then Write(i) else Load(i)
      case Failing => PutNull(i)
      case _ => PutFailure(i)
  }

  function DecoderLeft(decoder: Decoder): nat {
    match decoder
    case Writing(pending, armed) => 5 * |pending| + if armed then 1 else 2
    case Failing => 10
    case Reporting => 5
    case _ => 0
  }

  function StreamLeft(st: Stream): nat {
    DecoderLeft(st.decoder) + 2 * |st.decodeQueue| + if st.inHand.Some? then 1 else 0
  }

  // The rest of a stream does not move, and nothing of its supply is lost.
  ghost predicate Carries(st: Stream, st': Stream) {
    && st'.capacity == st.capacity && st'.popped == st.popped && st'.fetched == st.fetched
    && st'.written + Supply(st') == st.written + Supply(st)
  }

  lemma {:induction false} StreamMoves(st: Stream, i: nat)
    requires !Drained(st) && st.capacity > 0 && |st.decodeQueue| <= st.capacity
    ensures var e := NextStep(st, i);
            StreamEnabled(st, e) && Local(e) && e.i == i &&
            var st' := StreamStep(st, e, true);
            && Carries(st, st') && |st'.decodeQueue| <= st'.capacity && StreamLeft(st') < StreamLeft(st)
            && (FailureDue(st) <==> FailureDue(st') || Ends(st, e))
  {
    var e := NextStep(st, i);
    AppendNothing(st.written);
    match e {
      case Take(_) => assert st.decodeQueue == [st.decodeQueue[0]] + st.decodeQueue[1..];
      case Write(_) =>
        var frames := st.decoder.pending;
        assert frames == [frames[0]] + frames[1..];
        AppendAssociates(st.written, [frames[0]], frames[1..]);
      case PutNull(_) => AppendNothing(st.written + [NullFrame]);
      case _ =>
    }
  }

  // The other streams and the render thread stand still.
  ghost predicate OnlyStream(s: State, s': State, i: nat) {
    && |s'.streams| == |s.streams| && s'.running == s.running && s'.render == s.render
    && s'.noticed == s.noticed && s'.crashed == s.crashed
    && forall j :: 0 <= j < |s.streams| && j != i ==> s'.streams[j] == s.streams[j]
  }

  lemma {:induction false} SystemMoves(s: State, i: nat)
    requires Inv(s) && s.running && !s.crashed && i < |s.streams| && !Drained(s.streams[i]) && s.streams[i].capacity > 0
    ensures var e := NextStep(s.streams[i], i);
            Enabled(s, e) &&
            var s' := Apply(s, e);
            && OnlyStream(s, s', i) && Carries(s.streams[i], s'.streams[i])
            && StreamLeft(s'.streams[i]) < StreamLeft(s.streams[i])
            && (s'.endOfStream || FailureDue(s'.streams[i]) <==> s.endOfStream || FailureDue(s.streams[i]))
  {
    assert StreamOk(s.streams[i]);
    StreamMoves(s.streams[i], i);
    hide Inv, StreamStep, StreamEnabled, Carries, FailureDue, Drained, StreamLeft, NextStep;
  }

  /**
    While running is set, everything a decode thread has received can be carried to the render
    queue, by its own steps and polls alone and however small the queue between them: what it
    had still to write has been written, nothing waits in between, and an exception on its way
    has set the end of stream, which nothing else of this does.
   */
  lemma {:induction false} CarriesThrough(s: State, i: nat) returns (es: seq<Event>)
    requires Inv(s) && s.running && !s.crashed && i < |s.streams| && s.streams[i].capacity > 0
    ensures RunEnabled(s, es) && OnlyStream(s, Run(s, es), i)
    ensures var st, st' := s.streams[i], Run(s, es).streams[i];
            && Drained(st') && st'.popped == st.popped && st'.written == st.written + Supply(st)
            && st'.written == st'.popped + st'.renderQueue
    ensures Run(s, es).endOfStream <==> s.endOfStream || FailureDue(s.streams[i])
    decreases StreamLeft(s.streams[i])
  {
    if Drained(s.streams[i]) {
      es := [];
      DrainedHolds(s, i);
    } else {
      var e := NextStep(s.streams[i], i);
      SystemMoves(s, i);
      StepKeepsInv(s, e);
      hide Inv, Enabled, Apply, Supply, FailureDue, Drained, StreamLeft, NextStep;
      var rest := CarriesThrough(Apply(s, e), i);
      Prepend(s, e, rest);
      es := [e] + rest;
    }
  }

  lemma {:induction false} DrainedHolds(s: State, i: nat)
    requires Inv(s) && i < |s.streams| && Drained(s.streams[i])
    ensures var st := s.streams[i];
            st.written == st.written + Supply(st) && st.written == st.popped + st.renderQueue && !FailureDue(st)
  {
    var st := s.streams[i];
    assert StreamOk(st);
    AppendNothing(st.popped + st.renderQueue);
    AppendNothing(st.written);
  }

  // ---------- From the render queue to the textures ----------

  // One texture event of stream i, both halves.
  lemma {:induction false} Touches(s: State, i: nat)
    requires Inv(s) && !s.crashed && !s.endOfStream && !s.noticed && s.render.None? && i < |s.streams|
    requires s.streams[i].renderQueue != [] && s.streams[i].renderQueue[0].Picture?
    ensures Enabled(s, Enter(i)) && Enabled(Apply(s, Enter(i)), Act)
    ensures var st, s' := s.streams[i], Apply(Apply(s, Enter(i)), Act);
            && !s'.crashed && !s'.endOfStream && !s'.noticed && s'.render.None? && |s'.streams| == |s.streams|
            && var st' := s'.streams[i];
               if |st.touches| == 5 then st'.popped == st.popped + [st.renderQueue[0]] && st'.renderQueue == st.renderQueue[1..]
               else |st'.touches| == |st.touches| + 1 && st'.popped == st.popped && st'.renderQueue == st.renderQueue
  {
    var entered := Apply(s, Enter(i));
    KeepEnter(s, i);
    AssertionsHoldIff(entered);
    assert InStep(s, i) && StreamOk(s.streams[i]);
    PlanesStep(|s.streams[i].touches|);
  }

  /**
    While the end of stream is not set, a picture at the head of the render queue can be shown:
    the texture events left of its round take it off the queue.
   */
  lemma {:induction false} Shown(s: State, i: nat) returns (es: seq<Event>)
    requires Inv(s) && !s.crashed && !s.endOfStream && !s.noticed && s.render.None? && i < |s.streams|
    requires s.streams[i].renderQueue != [] && s.streams[i].renderQueue[0].Picture? && |s.streams[i].touches| < 6
    ensures RunEnabled(s, es) && i < |Run(s, es).streams| && |es| == 2 * (6 - |s.streams[i].touches|)
    ensures var st, st' := s.streams[i], Run(s, es).streams[i];
            st'.popped == st.popped + [st.renderQueue[0]] && st'.renderQueue == st.renderQueue[1..]
    decreases 6 - |s.streams[i].touches|
  {
    Touches(s, i);
    var entered := Apply(s, Enter(i));
    var acted := Apply(entered, Act);
    StepKeepsInv(s, Enter(i));
    StepKeepsInv(entered, Act);
    hide Inv, Enabled, Apply;
    var rest: seq<Event> := [];
    if |s.streams[i].touches| < 5 { rest := Shown(acted, i); }
    Prepend(entered, Act, rest);
    Prepend(s, Enter(i), [Act] + rest);
    es := [Enter(i)] + ([Act] + rest);
  }
}
