/**
  The client session of network/session.client.cpp: a strand-serialised queue of requests
  with at most one asynchronous operation outstanding.  Promises are numbered in the order in
  which the strand processes send_request.
 */
module ClientSession {
  import opened Http

  datatype Error = BadRequestError | BadResponseError | SessionClosedError

  datatype Promise = Pending | Fulfilled(response: Response) | Failed(error: Error)

  // The asynchronous operation under way on the socket.
  datatype Operation = NoOperation | Writing(index: int) | Reading(index: int)

  datatype Entry = Entry(request: Request, promise: nat)

  datatype State = State(
    active: bool,
    roundIndex: int,
    requestList: seq<Entry>,
    operation: Operation,
    promises: seq<Promise>,
    requests: seq<Request>,      // history: all requests processed
    failures: nat)               // history: how often the session failed its queue

  datatype Event =
    | Post(request: Request)
    | Sent(failed: bool, shutdownThrows: bool)
    | Received(failed: bool, response: Response, shutdownThrows: bool)

  const Init := State(true, -1, [], NoOperation, [], [], 0)

  // ---------- Invariant ----------

  function CountFulfilled(promises: seq<Promise>): nat {
    if promises == [] then 0
    else CountFulfilled(promises[..|promises| - 1]) + if promises[|promises| - 1].Fulfilled? then 1 else 0
  }

  // Promises below this number are completed, the others are queued.
  function Completed(s: State): int {
    |s.promises| - |s.requestList|
  }

  // No shutdown has thrown while the session was failing its queue.
  predicate Orderly(s: State) {
    s.failures == 0 || (s.failures == 1 && !s.active)
  }

  ghost predicate Inv(s: State) {
    && |s.requests| == |s.promises|
    && 0 <= Completed(s)
    && (forall i :: 0 <= i < |s.requestList| ==> s.requestList[i] == Entry(s.requests[Completed(s) + i], Completed(s) + i))
    && (forall p :: 0 <= p < |s.promises| ==> (s.promises[p].Pending? <==> Completed(s) <= p))
    && (s.operation != NoOperation <==> s.requestList != [])
    && (s.operation != NoOperation ==> s.operation.index == s.roundIndex)
    && (s.requestList != [] ==> s.active)
    && (s.active || s.failures > 0)
    && s.roundIndex + 1 == CountFulfilled(s.promises) + s.failures + (if s.operation != NoOperation then 1 else 0)
    && (Orderly(s) ==> forall p, q :: 0 <= p < q < |s.promises| && s.promises[q].Fulfilled? ==> s.promises[p].Fulfilled?)
    && (s.failures == 0 ==> forall p :: 0 <= p < Completed(s) ==> s.promises[p].Fulfilled?)
    && (s.failures > 0 ==> SomeFailed(s.promises))
  }

  ghost predicate SomeFailed(promises: seq<Promise>) {
    exists p :: 0 <= p < |promises| && promises[p].Failed?
  }

  // ---------- Handlers ----------

  predicate Enabled(s: State, e: Event) {
    match e
    case Post(_) => true
    case Sent(_, _) => s.operation.Writing?
    case Received(_, _, _) => s.operation.Reading?
  }

  function SendFront(s: State): State {
    s.(roundIndex := s.roundIndex + 1, operation := Writing(s.roundIndex + 1))
  }

  // The promises of the first n entries of the list fail.
  function FailFirst(promises: seq<Promise>, list: seq<Entry>, n: nat, error: Error): (r: seq<Promise>)
    requires n <= |list| && forall i :: 0 <= i < |list| ==> list[i].promise < |promises|
    ensures |r| == |promises|
  {
    if n == 0 then promises else FailFirst(promises, list, n - 1, error)[list[n - 1].promise := Failed(error)]
  }

  // A throwing shutdown skips the assignment to active_.
  function FailThenClose(s: State, error: Error, shutdownThrows: bool): State
    requires Inv(s)
  {
    s.(promises := FailFirst(s.promises, s.requestList, |s.requestList|, error), requestList := [],
       operation := NoOperation, active := s.active && shutdownThrows, failures := s.failures + 1)
  }

  function Apply(s: State, e: Event): State
    requires Inv(s) && Enabled(s, e)
  {
    match e
    case Post(request) =>
      var id := |s.promises|;
      if s.active then
        var s1 := s.(requestList := s.requestList + [Entry(request, id)], promises := s.promises + [Pending],
                     requests := s.requests + [request]);
        if |s1.requestList| == 1 then SendFront(s1) else s1
      else
        s.(promises := s.promises + [Failed(SessionClosedError)], requests := s.requests + [request])
    case Sent(failed, shutdownThrows) =>
      if failed then FailThenClose(s, BadRequestError, shutdownThrows)
      else s.(operation := Reading(s.operation.index))
    case Received(failed, response, shutdownThrows) =>
      if failed || response.status != Success then FailThenClose(s, BadResponseError, shutdownThrows)
      else
        var s1 := s.(promises := s.promises[s.requestList[0].promise := Fulfilled(response)],
                     requestList := s.requestList[1..], operation := NoOperation);
        if s1.requestList != [] then SendFront(s1) else s1
  }

  predicate Fails(e: Event) {
    match e
    case Post(_) => false
    case Sent(failed, _) => failed
    case Received(failed, response, _) => failed || response.status != Success
  }

  // ---------- Preservation ----------

  lemma {:induction false} CountUpdate(promises: seq<Promise>, i: nat, p: Promise)
    requires i < |promises| && !promises[i].Fulfilled?
    ensures CountFulfilled(promises[i := p]) == CountFulfilled(promises) + if p.Fulfilled? then 1 else 0
  {
    var n := |promises| - 1;
    if i < n {
      CountUpdate(promises[..n], i, p);
      assert promises[i := p][..n] == promises[..n][i := p];
    } else {
      assert promises[i := p][..n] == promises[..n];
    }
  }

  lemma {:induction false} CountAppend(promises: seq<Promise>, p: Promise)
    ensures CountFulfilled(promises + [p]) == CountFulfilled(promises) + if p.Fulfilled? then 1 else 0
  {
    assert (promises + [p])[..|promises|] == promises;
  }

  // Failing the queue touches exactly the queued promises.
  lemma {:induction false} FailFirstMeans(s: State, n: nat, error: Error)
    requires Inv(s) && n <= |s.requestList|
    ensures var r := FailFirst(s.promises, s.requestList, n, error);
            && CountFulfilled(r) == CountFulfilled(s.promises)
            && forall p :: 0 <= p < |r| ==>
                 r[p] == if Completed(s) <= p < Completed(s) + n then Failed(error) else s.promises[p]
  {
    if n > 0 {
      FailFirstMeans(s, n - 1, error);
      CountUpdate(FailFirst(s.promises, s.requestList, n - 1, error), s.requestList[n - 1].promise, Failed(error));
    }
  }

  lemma {:induction false} FailKeepsInv(s: State, error: Error, shutdownThrows: bool)
    requires Inv(s) && s.requestList != []
    ensures Inv(FailThenClose(s, error, shutdownThrows))
  {
    FailFirstMeans(s, |s.requestList|, error);
    assert FailThenClose(s, error, shutdownThrows).promises[Completed(s)].Failed?;
  }

  lemma {:induction false} FailedStays(before: seq<Promise>, after: seq<Promise>)
    requires |before| <= |after| && forall p :: 0 <= p < |before| && before[p].Failed? ==> after[p] == before[p]
    ensures SomeFailed(before) ==> SomeFailed(after)
  {
    if SomeFailed(before) {
      var p :| 0 <= p < |before| && before[p].Failed?;
      assert after[p].Failed?;
    }
  }

  lemma {:induction false} PostKeepsInv(s: State, e: Event)
    requires Inv(s) && e.Post?
    ensures Inv(Apply(s, e))
  {
    hide CountFulfilled, SomeFailed;
    FailedStays(s.promises, Apply(s, e).promises);
    CountAppend(s.promises, if s.active then Pending else Failed(SessionClosedError));
  }

  lemma {:induction false} ReceiveKeepsInv(s: State, e: Event)
    requires Inv(s) && Enabled(s, e) && e.Received? && !Fails(e)
    ensures Inv(Apply(s, e))
  {
    hide CountFulfilled, SomeFailed;
    FailedStays(s.promises, Apply(s, e).promises);
    CountUpdate(s.promises, s.requestList[0].promise, Fulfilled(e.response));
  }

  lemma {:induction false} StepKeepsInv(s: State, e: Event)
    requires Inv(s) && Enabled(s, e)
    ensures Inv(Apply(s, e))
  {
    if e.Post? { PostKeepsInv(s, e); }
    else if Fails(e) { FailKeepsInv(s, if e.Sent? then BadRequestError else BadResponseError, e.shutdownThrows); }
    else if e.Received? { ReceiveKeepsInv(s, e); }
  }

  // ---------- Whole runs ----------

  ghost predicate IsRun(s: State, run: seq<Event>, end: State)
    requires Inv(s)
    decreases |run|
  {
    if run == [] then s == end
    else Enabled(s, run[0]) && (StepKeepsInv(s, run[0]); IsRun(Apply(s, run[0]), run[1..], end))
  }

  lemma {:induction false} RunKeepsInv(s: State, run: seq<Event>, end: State)
    requires Inv(s) && IsRun(s, run, end)
    ensures Inv(end)
    decreases |run|
  {
    if run != [] {
      StepKeepsInv(s, run[0]);
      RunKeepsInv(Apply(s, run[0]), run[1..], end);
    }
  }

  // ---------- Main results ----------

  // Whatever happens later, a completed promise keeps its outcome: none is completed twice.
  lemma {:induction false} CompletedOnce(s: State, run: seq<Event>, end: State, p: nat)
    requires Inv(s) && IsRun(s, run, end)
    requires p < |s.promises| && s.promises[p] != Pending
    ensures p < |end.promises| && end.promises[p] == s.promises[p]
    decreases |run|
  {
    if run != [] {
      StepKeepsInv(s, run[0]);
      StepKeepsCompleted(s, run[0], p);
      CompletedOnce(Apply(s, run[0]), run[1..], end, p);
    }
  }

  lemma {:induction false} StepKeepsCompleted(s: State, e: Event, p: nat)
    requires Inv(s) && Enabled(s, e) && p < |s.promises| && s.promises[p] != Pending
    ensures p < |Apply(s, e).promises| && Apply(s, e).promises[p] == s.promises[p]
  {
    if Fails(e) {
      FailFirstMeans(s, |s.requestList|, if e.Sent? then BadRequestError else BadResponseError);
    }
  }

  /**
    A failure completes the request under way and everything queued behind it with the same
    error, leaves nothing queued and nothing outstanding, and closes the session unless the
    socket shutdown itself throws.
   */
  lemma {:induction false} FailureDrainsQueue(s: State, e: Event)
    requires Inv(s) && Enabled(s, e) && Fails(e)
    ensures var s' := Apply(s, e);
            && s'.requestList == [] && s'.operation == NoOperation
            && (s'.active <==> e.shutdownThrows)
            && |s'.promises| == |s.promises|
            && forall p :: 0 <= p < |s.promises| ==>
                 s'.promises[p] == if s.promises[p].Pending? then Failed(if e.Sent? then BadRequestError else BadResponseError)
                                   else s.promises[p]
  {
    FailFirstMeans(s, |s.requestList|, if e.Sent? then BadRequestError else BadResponseError);
  }

  // A closed session stays closed and empty and rejects every later request.
  lemma {:induction false} ClosedRejects(s: State, run: seq<Event>, end: State)
    requires Inv(s) && !s.active && IsRun(s, run, end)
    ensures !end.active && end.requestList == [] && end.operation == NoOperation && |s.promises| <= |end.promises|
    ensures forall p :: |s.promises| <= p < |end.promises| ==> end.promises[p] == Failed(SessionClosedError)
    decreases |run|
  {
    if run != [] {
      StepKeepsInv(s, run[0]);
      ClosedRejects(Apply(s, run[0]), run[1..], end);
      CompletedOnce(Apply(s, run[0]), run[1..], end, |s.promises|);
    }
  }

  // The run so far has kept order exactly as long as no shutdown has thrown.
  lemma {:induction false} OrderlyUntilShutdownThrows(s: State, e: Event)
    requires Inv(s) && Enabled(s, e) && Orderly(s)
    ensures Orderly(Apply(s, e)) <==> !(Fails(e) && e.shutdownThrows)
  {
  }

  /**
    In every run without a throwing shutdown the fulfilled promises come first: nothing behind a
    failed request is ever answered.
   */
  lemma {:induction false} OrderKept(s: State, run: seq<Event>, end: State, p: nat, q: nat)
    requires Inv(s) && Orderly(s) && IsRun(s, run, end)
    requires forall e :: e in run && Fails(e) ==> !e.shutdownThrows
    requires p < q < |end.promises| && end.promises[q].Fulfilled?
    ensures end.promises[p].Fulfilled?
    decreases |run|
  {
    if run == [] {
      assert Inv(end);
    } else {
      StepKeepsInv(s, run[0]);
      OrderlyUntilShutdownThrows(s, run[0]);
      OrderKept(Apply(s, run[0]), run[1..], end, p, q);
    }
  }

  ghost predicate FulfilledFirst(promises: seq<Promise>) {
    forall p, q :: 0 <= p < q < |promises| && promises[q].Fulfilled? ==> promises[p].Fulfilled?
  }

  // No socket shutdown throws in these events.
  predicate Quiet(run: seq<Event>) {
    forall e :: e in run && Fails(e) ==> !e.shutdownThrows
  }

  lemma {:induction false} RunOfOne(s: State, e: Event, run: seq<Event>, end: State)
    requires Inv(s) && Enabled(s, e) && Inv(Apply(s, e)) && IsRun(Apply(s, e), run, end)
    ensures IsRun(s, [e] + run, end)
  {
    hide Inv, Apply, Enabled;
    assert ([e] + run)[0] == e && ([e] + run)[1..] == run;
  }

  // The response to the request under way arrives.
  lemma {:induction false} AnswerRead(s: State, response: Response) returns (run: seq<Event>, end: State)
    requires Inv(s) && s.operation.Reading? && response.status == Success
    ensures Quiet(run) && IsRun(s, run, end)
    ensures Completed(s) < |end.promises| && end.promises[Completed(s)].Fulfilled?
  {
    var e := Received(false, response, false);
    ReceiveKeepsInv(s, e);
    end := Apply(s, e);
    assert end.promises[Completed(s)].Fulfilled?;
    hide Inv, Apply;
    run := [e] + [];
    assert IsRun(end, [], end);
    RunOfOne(s, e, [], end);
  }

  // The front request of a queue is sent, if that is still to be done, and answered.
  lemma {:induction false} AnswerFront(s: State, response: Response) returns (run: seq<Event>, end: State)
    requires Inv(s) && s.requestList != [] && response.status == Success
    ensures Quiet(run) && IsRun(s, run, end)
    ensures Completed(s) < |end.promises| && end.promises[Completed(s)].Fulfilled?
  {
    if s.operation.Writing? {
      var e := Sent(false, false);
      StepKeepsInv(s, e);
      var next := Apply(s, e);
      var rest;
      rest, end := AnswerRead(next, response);
      RunOfOne(s, e, rest, end);
      run := [e] + rest;
    } else {
      run, end := AnswerRead(s, response);
    }
  }

  // An open session can always have one more promise fulfilled, behind all completed ones.
  lemma {:induction false} AnswerNext(s: State, request: Request, response: Response) returns (run: seq<Event>, end: State)
    requires Inv(s) && s.active && response.status == Success
    ensures Quiet(run) && IsRun(s, run, end)
    ensures Completed(s) < |end.promises| && end.promises[Completed(s)].Fulfilled?
  {
    if s.requestList == [] {
      var e := Post(request);
      StepKeepsInv(s, e);
      var next := Apply(s, e);
      var rest;
      rest, end := AnswerFront(next, response);
      RunOfOne(s, e, rest, end);
      run := [e] + rest;
    } else {
      run, end := AnswerFront(s, response);
    }
  }

  lemma {:induction false} OrderLost(s: State, request: Request, response: Response) returns (run: seq<Event>, end: State)
    requires Inv(s) && s.active && s.failures > 0 && response.status == Success
    ensures Quiet(run) && IsRun(s, run, end) && !FulfilledFirst(end.promises)
  {
    run, end := AnswerNext(s, request, response);
    var p :| 0 <= p < |s.promises| && s.promises[p].Failed?;
    assert p < Completed(s);
    CompletedOnce(s, run, end, p);
  }

  /**
    For every open session: whatever happens next, short of a throwing shutdown, keeps the
    fulfilled promises first exactly when the session has never failed its queue.  An open
    session has failed its queue only if a shutdown threw.
   */
  lemma {:induction false} OrderKeptIff(s: State)
    requires Inv(s) && s.active
    ensures (forall run, end :: IsRun(s, run, end) && Quiet(run) ==> FulfilledFirst(end.promises)) <==> s.failures == 0
  {
    if s.failures == 0 {
      forall run, end | IsRun(s, run, end) && Quiet(run) ensures FulfilledFirst(end.promises) {
        forall p: nat, q: nat | p < q < |end.promises| && end.promises[q].Fulfilled? ensures end.promises[p].Fulfilled? {
          OrderKept(s, run, end, p, q);
        }
      }
    } else {
      var run, end := OrderLost(s, Request("/", true), Response(Success, [], false));
    }
  }

  // How an open session comes to have failed its queue: the step that does it has a throwing shutdown.
  lemma {:induction false} OpenAfterFailure(s: State, run: seq<Event>, end: State)
    requires Inv(s) && s.failures == 0 && s.active && IsRun(s, run, end) && end.active && end.failures > 0
    ensures exists e :: e in run && Fails(e) && e.shutdownThrows
    decreases |run|
  {
    if run != [] {
      StepKeepsInv(s, run[0]);
      if Fails(run[0]) {
        if !run[0].shutdownThrows { ClosedRejects(Apply(s, run[0]), run[1..], end); }
        assert run[0] in run;
      } else {
        OpenAfterFailure(Apply(s, run[0]), run[1..], end);
        var e :| e in run[1..] && Fails(e) && e.shutdownThrows;
        assert e in run;
      }
    }
  }

  ghost predicate Leads(s: State, e: Event, t: State) {
    Inv(s) && Inv(t) && Enabled(s, e) && Apply(s, e) == t
  }

  function AfterFailure(r: Request): State {
    State(true, 0, [], NoOperation, [Failed(BadRequestError)], [r], 1)
  }

  function SecondOut(r: Request, operation: Operation): State {
    State(true, 1, [Entry(r, 1)], operation, [Failed(BadRequestError), Pending], [r, r], 1)
  }

  function FirstOut(r: Request): State {
    State(true, 0, [Entry(r, 0)], Writing(0), [Pending], [r], 0)
  }

  lemma {:induction false} FirstSent(r: Request)
    ensures Leads(Init, Post(r), FirstOut(r))
  {
    assert Inv(Init);
    PostKeepsInv(Init, Post(r));
    hide Inv;
    assert Apply(Init, Post(r)) == FirstOut(r);
  }

  lemma {:induction false} FirstFails(r: Request)
    requires Inv(FirstOut(r))
    ensures Leads(FirstOut(r), Sent(true, true), AfterFailure(r))
  {
    hide CountFulfilled;
    var s := FirstOut(r);
    StepKeepsInv(s, Sent(true, true));
    FailFirstMeans(s, 1, BadRequestError);
    assert Apply(s, Sent(true, true)).promises == [Failed(BadRequestError)];
  }

  lemma {:induction false} SecondSent(r: Request)
    requires Inv(AfterFailure(r))
    ensures Leads(AfterFailure(r), Post(r), SecondOut(r, Writing(1)))
    ensures Leads(SecondOut(r, Writing(1)), Sent(false, false), SecondOut(r, Reading(1)))
  {
    PostKeepsInv(AfterFailure(r), Post(r));
    assert Apply(AfterFailure(r), Post(r)) == SecondOut(r, Writing(1));
    StepKeepsInv(SecondOut(r, Writing(1)), Sent(false, false));
  }

  // It does not keep order beyond that: a session whose shutdown threw goes on serving requests
  // behind the one that failed.
  lemma {:induction false} ThrowingShutdownBreaksOrder(request: Request, response: Response)
    requires response.status == Success
    ensures exists run, end :: IsRun(Init, run, end) && end.promises == [Failed(BadRequestError), Fulfilled(response)]
  {
    hide Inv, Apply, Enabled;
    FirstSent(request);
    FirstFails(request);
    var s1 := FirstOut(request);
    SecondSent(request);
    var s5 := SecondAnswered(request, response);
    var e1, e2, e3, e4, e5 := Post(request), Sent(true, true), Post(request), Sent(false, false), Received(false, response, false);
    assert IsRun(s5, [], s5);
    RunOfOne(SecondOut(request, Reading(1)), e5, [], s5);
    RunOfOne(SecondOut(request, Writing(1)), e4, [e5], s5);
    RunOfOne(AfterFailure(request), e3, [e4] + [e5], s5);
    RunOfOne(s1, e2, [e3] + ([e4] + [e5]), s5);
    RunOfOne(Init, e1, [e2] + ([e3] + ([e4] + [e5])), s5);
  }

  lemma {:induction false} SecondAnswered(r: Request, response: Response) returns (end: State)
    requires response.status == Success && Inv(SecondOut(r, Reading(1)))
    ensures Leads(SecondOut(r, Reading(1)), Received(false, response, false), end)
    ensures end.promises == [Failed(BadRequestError), Fulfilled(response)]
  {
    ReceiveKeepsInv(SecondOut(r, Reading(1)), Received(false, response, false));
    end := Apply(SecondOut(r, Reading(1)), Received(false, response, false));
  }

  // ---------- The object ----------

  class Session {
    var active: bool
    var roundIndex: int
    var requestList: seq<Entry>
    var operation: Operation
    var promises: seq<Promise>
    ghost var requests: seq<Request>
    ghost var failures: nat

    ghost function View(): State
      reads this
    {
      State(active, roundIndex, requestList, operation, promises, requests, failures)
    }

    ghost predicate Valid()
      reads this
    {
      Inv(View())
    }

    constructor ()
      ensures Valid() && View() == Init
    {
      active, roundIndex, requestList, operation, promises := true, -1, [], NoOperation, [];
      requests, failures := [], 0;
    }

    // The handler posted by send_request.
    method ProcessRequest(request: Request) returns (promise: nat)
      requires Valid()
      modifies this
      ensures Valid() && View() == Apply(old(View()), Post(request))
      ensures promise == |old(promises)|
    {
      PostKeepsInv(View(), Post(request));
      promise := |promises|;
      requests := requests + [request];
      if active {
        promises := promises + [Pending];
        requestList := requestList + [Entry(request, promise)];
        if |requestList| == 1 {
          SendFrontRequest();
        }
      } else {
        promises := promises + [Failed(SessionClosedError)];
      }
    }

    method SendFrontRequest()
      modifies this`roundIndex, this`operation
      ensures View() == SendFront(old(View()))
    {
      roundIndex := roundIndex + 1;
      operation := Writing(roundIndex);
    }

    method OnSendRequest(failed: bool, shutdownThrows: bool)
      requires Valid() && Enabled(View(), Sent(failed, shutdownThrows))
      modifies this
      ensures Valid() && View() == Apply(old(View()), Sent(failed, shutdownThrows))
    {
      StepKeepsInv(View(), Sent(failed, shutdownThrows));
      if failed {
        FailRequestThenClose(BadRequestError, shutdownThrows);
      } else {
        operation := Reading(operation.index);
      }
    }

    method OnRecvResponse(failed: bool, response: Response, shutdownThrows: bool)
      requires Valid() && Enabled(View(), Received(failed, response, shutdownThrows))
      modifies this
      ensures Valid() && View() == Apply(old(View()), Received(failed, response, shutdownThrows))
    {
      StepKeepsInv(View(), Received(failed, response, shutdownThrows));
      if failed || response.status != Success {
        FailRequestThenClose(BadResponseError, shutdownThrows);
        return;
      }
      promises := promises[requestList[0].promise := Fulfilled(response)];
      requestList := requestList[1..];
      operation := NoOperation;
      if requestList != [] {
        SendFrontRequest();
      }
    }

    method FailRequestThenClose(error: Error, shutdownThrows: bool)
      requires Valid() && requestList != []
      modifies this
      ensures Valid() && View() == FailThenClose(old(View()), error, shutdownThrows)
    {
      hide CountFulfilled, SomeFailed;
      FailKeepsInv(View(), error, shutdownThrows);
      var n := 0;
      while n < |requestList|
        invariant requestList == old(requestList) && 0 <= n <= |requestList|
        invariant View() == old(View()).(promises := FailFirst(old(promises), old(requestList), n, error))
      {
        promises := promises[requestList[n].promise := Failed(error)];
        n := n + 1;
      }
      requestList := [];
      operation := NoOperation;
      failures := failures + 1;
      if !shutdownThrows {
        active := false;
      }
    }
  }
}
