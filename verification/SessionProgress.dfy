/**
  What the two HTTP sessions achieve together when nothing fails: as long as the connection is good,
  everything queued can still be answered, and which lists of requests can be answered in full.
 */
module SessionProgress {
  import opened Http
  import opened Sequences
  import opened SessionWire
  import C = ClientSession
  import S = ServerSession

  lemma {:induction false} ClientOk(s: State)
    requires Inv(s)
    ensures C.Inv(s.client)
  {
  }

  lemma {:induction false} InitOk(root: string)
    ensures Inv(Init(root)) && Good(Init(root))
  {
  }

  lemma {:induction false} Prepend(s: State, e: Event, run: seq<Event>, end: State)
    requires Inv(s) && Enabled(s, e) && Inv(Apply(s, e)) && IsRun(Apply(s, e), run, end)
    ensures IsRun(s, [e] + run, end)
  {
    hide Inv, Apply, Enabled, C.Inv;
    assert ([e] + run)[0] == e && ([e] + run)[1..] == run;
  }

  // ---------- A good connection ----------

  // Both sides are open, and so far every answer was a success.
  ghost predicate Good(s: State) {
    && s.client.active && !s.server.phase.Closed?
    && (s.server.served != [] ==> s.server.served[|s.server.served| - 1].response.status == Success)
  }

  // The files on the server include what the queue asks for, on a connection that is to stay.
  predicate QueueServable(s: State, disk: map<string, Body>) {
    forall i :: 0 <= i < |s.client.requestList| ==> S.Servable(s.server.root, s.client.requestList[i].request, disk)
  }

  // The step that brings the answer to the front request nearer.
  function NextEvent(s: State, disk: map<string, Body>): Event {
    if s.client.operation.Writing? then ClientSent(false)
    else if s.toClient != [] then ClientReceived(false)
    else
      match s.server.phase
      case Created => ServerStarted
      case Sending(_) => ServerSent(false)
      case _ => ServerReceived(false, disk)
  }

  // How many such steps are left for the front request.
  function Left(s: State): nat {
    (if s.client.operation.Writing? then 1 else 0) +
    if s.toClient != [] then 1 else if s.server.phase.Receiving? then 2 else 3
  }

  ghost predicate Nearer(s: State, s': State) {
    && s'.client.requests == s.client.requests && s'.server.root == s.server.root
    && if s'.client.requestList == s.client.requestList then Left(s') < Left(s)
       else s.client.requestList != [] && s'.client.requestList == s.client.requestList[1..]
  }

  lemma {:induction false} ClientStep(s: State, disk: map<string, Body>)
    requires Inv(s) && Good(s) && s.client.requestList != []
    requires s.client.operation.Writing? || s.toClient != []
    ensures var e := NextEvent(s, disk);
            && Enabled(s, e) && Good(Apply(s, e)) && Nearer(s, Apply(s, e))
  {
    hide C.CountFulfilled, C.SomeFailed, S.Apply, S.Enabled;
  }

  lemma {:induction false} ServerStep(s: State, disk: map<string, Body>)
    requires Inv(s) && Good(s) && s.client.requestList != [] && QueueServable(s, disk)
    requires !s.client.operation.Writing? && s.toClient == []
    ensures var e := NextEvent(s, disk);
            && Enabled(s, e) && Good(Apply(s, e)) && Nearer(s, Apply(s, e))
  {
    FrontIsAsked(s);
    hide C.Inv, C.Apply, C.Orderly, Matched, SuccessOk, ServedOk;
  }

  // The request on its way to the server is the one at the front of the queue.
  lemma {:induction false} FrontIsAsked(s: State)
    requires Inv(s) && Good(s) && s.client.requestList != [] && s.toClient == []
    ensures s.toServer != [] && s.toServer[0] == s.client.requestList[0].request
  {
    hide C.CountFulfilled, C.SomeFailed, S.Inv, Matched, SuccessOk, ServedOk;
  }

  /**
    On a good connection everything queued can still be answered, if the files are there: a run
    without failures ends with the queue empty, every promise fulfilled and both sides open.
   */
  lemma {:induction false} QueueAnswered(s: State, disk: map<string, Body>) returns (run: seq<Event>, end: State)
    requires Inv(s) && Good(s) && QueueServable(s, disk)
    ensures IsRun(s, run, end) && Inv(end) && Good(end)
    ensures end.client.requests == s.client.requests && end.client.requestList == []
    ensures forall p :: 0 <= p < |end.client.promises| ==> end.client.promises[p].Fulfilled?
    decreases |s.client.requestList|, Left(s)
  {
    if s.client.requestList == [] {
      run, end := [], s;
    } else {
      var e := NextEvent(s, disk);
      if s.client.operation.Writing? || s.toClient != [] { ClientStep(s, disk); } else { ServerStep(s, disk); }
      StepKeepsInv(s, e);
      ClientOk(s);
      hide Enabled, Apply, Inv, Good, NextEvent, Left, C.Inv;
      assert QueueServable(Apply(s, e), disk) by { StillServable(s, Apply(s, e), disk); }
      var rest;
      rest, end := QueueAnswered(Apply(s, e), disk);
      run := [e] + rest;
      Prepend(s, e, rest, end);
    }
  }

  lemma {:induction false} StillServable(s: State, s': State, disk: map<string, Body>)
    requires QueueServable(s, disk) && Nearer(s, s')
    ensures QueueServable(s', disk)
  {
  }

  // ---------- From the start ----------

  lemma {:induction false} PostStep(s: State, request: Request)
    requires Inv(s) && Good(s)
    ensures Enabled(s, Post(request)) && Good(Apply(s, Post(request)))
    ensures var s' := Apply(s, Post(request));
            && s'.client.requests == s.client.requests + [request] && s'.server.root == s.server.root
            && |s'.client.requestList| == |s.client.requestList| + 1
            && s'.client.requestList[..|s.client.requestList|] == s.client.requestList
            && s'.client.requestList[|s.client.requestList|].request == request
  {
    hide C.CountFulfilled, C.SomeFailed, S.Inv;
  }

  // Post them all, then let the queue be answered.
  lemma {:induction false} PostThenAnswer(s: State, requests: seq<Request>, disk: map<string, Body>)
    returns (run: seq<Event>, end: State)
    requires Inv(s) && Good(s) && QueueServable(s, disk)
    requires forall k :: 0 <= k < |requests| ==> S.Servable(s.server.root, requests[k], disk)
    ensures IsRun(s, run, end) && end.client.requests == s.client.requests + requests
    ensures forall p :: 0 <= p < |end.client.promises| ==> end.client.promises[p].Fulfilled?
    decreases |requests|
  {
    hide S.Servable;
    if requests == [] {
      hide Enabled, Apply, Inv, Good;
      run, end := QueueAnswered(s, disk);
      AppendNothing(s.client.requests);
    } else {
      var e := Post(requests[0]);
      PostStep(s, requests[0]);
      StepKeepsInv(s, e);
      ClientOk(s);
      hide Enabled, Apply, Inv, Good, QueueServable, C.Inv;
      assert QueueServable(Apply(s, e), disk) by { PostedServable(s, Apply(s, e), requests[0], disk); }
      var rest;
      rest, end := PostThenAnswer(Apply(s, e), requests[1..], disk);
      run := [e] + rest;
      Prepend(s, e, rest, end);
      assert requests == [requests[0]] + requests[1..];
      AppendAssociates(s.client.requests, [requests[0]], requests[1..]);
    }
  }

  lemma {:induction false} PostedServable(s: State, s': State, request: Request, disk: map<string, Body>)
    requires QueueServable(s, disk) && S.Servable(s.server.root, request, disk) && s'.server.root == s.server.root
    requires |s'.client.requestList| == |s.client.requestList| + 1
    requires s'.client.requestList[..|s.client.requestList|] == s.client.requestList
    requires s'.client.requestList[|s.client.requestList|].request == request
    ensures QueueServable(s', disk)
  {
    forall i | 0 <= i < |s'.client.requestList| ensures S.Servable(s'.server.root, s'.client.requestList[i].request, disk) {
      if i < |s.client.requestList| { assert s'.client.requestList[i] == s.client.requestList[..][i]; }
    }
  }

  // A server on which every file asked for exists.
  function Disk(root: string, requests: seq<Request>): (disk: map<string, Body>)
    ensures forall k :: 0 <= k < |requests| ==> S.TargetPath(root, requests[k].target) in disk
  {
    map r | r in requests :: S.TargetPath(root, r.target) := []
  }

  ghost predicate Answerable(root: string, requests: seq<Request>) {
    InitOk(root);
    exists run, end ::
      && IsRun(Init(root), run, end) && end.client.requests == requests
      && forall p :: 0 <= p < |end.client.promises| ==> end.client.promises[p].Fulfilled?
  }

  lemma {:induction false} FulfilledKeepsAlive(s: State, p: nat)
    requires Inv(s) && p < |s.client.promises| && s.client.promises[p].Fulfilled?
    ensures p < |s.client.requests| && s.client.requests[p].keepAlive
  {
    hide C.CountFulfilled, C.SomeFailed;
    assert s.server.served[p].request == s.client.requests[p];
  }

  /**
    A list of requests, however long, can be answered in full, each promise fulfilled, exactly if
    each of them asks for the connection to stay: the server never answers one that does not.
   */
  lemma {:induction false} AllAnsweredIff(root: string, requests: seq<Request>)
    ensures Answerable(root, requests) <==> forall k :: 0 <= k < |requests| ==> requests[k].keepAlive
  {
    InitOk(root);
    hide Enabled, Apply, Inv, Good;
    if Answerable(root, requests) {
      var run, end :|
        && IsRun(Init(root), run, end) && end.client.requests == requests
        && forall p :: 0 <= p < |end.client.promises| ==> end.client.promises[p].Fulfilled?;
      KeepAliveThroughout(root, run, end);
    }
    if forall k :: 0 <= k < |requests| ==> requests[k].keepAlive {
      var disk := Disk(root, requests);
      var run, end := PostThenAnswer(Init(root), requests, disk);
      PrependNothing(requests);
    }
  }

  lemma {:induction false} KeepAliveThroughout(root: string, run: seq<Event>, end: State)
    requires Inv(Init(root)) && IsRun(Init(root), run, end)
    requires forall p :: 0 <= p < |end.client.promises| ==> end.client.promises[p].Fulfilled?
    ensures forall k :: 0 <= k < |end.client.requests| ==> end.client.requests[k].keepAlive
  {
    RunKeepsInv(Init(root), run, end);
    assert |end.client.promises| == |end.client.requests|;
    hide Inv;
    forall k | 0 <= k < |end.client.requests| ensures end.client.requests[k].keepAlive { FulfilledKeepsAlive(end, k); }
  }
}
