/**
  A client session and a server session joined by a connection that delivers messages in order.
  Every handler runs atomically; any operation may fail at any time.  A message is on the wire
  from the moment its write is started.
 */
module SessionWire {
  import opened Http
  import C = ClientSession
  import S = ServerSession

  datatype State = State(
    client: C.State,
    server: S.State,
    toServer: seq<Request>,
    toClient: seq<Response>)

  datatype Event =
    | Post(request: Request)
    | ClientSent(failed: bool)
    | ClientReceived(failed: bool)
    | ServerStarted
    | ServerReceived(failed: bool, files: map<string, Body>)
    | ServerSent(failed: bool)

  function Init(root: string): State {
    State(C.Init, S.Init(root), [], [])
  }

  const NoResponse := Response(OtherStatus(0), [], true)

  // The handler invocation an event stands for.  Socket shutdowns do not throw here.
  function ClientEvent(s: State, e: Event): C.Event
    requires e.Post? || e.ClientSent? || e.ClientReceived?
  {
    match e
    case Post(request) => C.Post(request)
    case ClientSent(failed) => C.Sent(failed, false)
    case ClientReceived(failed) =>
      C.Received(failed, if failed || s.toClient == [] then NoResponse else s.toClient[0], false)
  }

  predicate OfClient(e: Event) {
    e.Post? || e.ClientSent? || e.ClientReceived?
  }

  function ServerEvent(s: State, e: Event): S.Event
    requires !OfClient(e)
    requires e.ServerReceived? && !e.failed ==> s.toServer != []
  {
    match e
    case ServerStarted => S.Start
    case ServerReceived(failed, files) => S.Received(failed, if failed then Request("", false) else s.toServer[0], files)
    case ServerSent(failed) => S.Sent(failed)
  }

  predicate Enabled(s: State, e: Event) {
    if OfClient(e) then
      C.Enabled(s.client, ClientEvent(s, e)) && (e.ClientReceived? && !e.failed ==> s.toClient != [])
    else
      && (e.ServerReceived? && !e.failed ==> s.toServer != [])
      && S.Enabled(s.server, ServerEvent(s, e))
  }

  function Apply(s: State, e: Event): State
    requires C.Inv(s.client) && Enabled(s, e)
  {
    if OfClient(e) then
      var client := C.Apply(s.client, ClientEvent(s, e));
      var rest := if e.ClientReceived? && !e.failed then s.toClient[1..] else s.toClient;
      var started := if client.operation.Writing? && client.roundIndex != s.client.roundIndex && client.requestList != []
                     then [client.requestList[0].request] else [];
      s.(client := client, toClient := rest, toServer := s.toServer + started)
    else
      var server := S.Apply(s.server, ServerEvent(s, e));
      var rest := if e.ServerReceived? && !e.failed then s.toServer[1..] else s.toServer;
      var started := if server.phase.Sending? && |server.served| != |s.server.served| then [server.phase.response] else [];
      s.(server := server, toServer := rest, toClient := s.toClient + started)
  }

  // ---------- Invariant ----------

  // Answers given so far are to the first requests submitted, in order.
  ghost predicate ServedOk(s: State) {
    && |s.server.served| <= |s.client.requests|
    && (forall i :: 0 <= i < |s.server.served| ==> s.server.served[i].request == s.client.requests[i])
  }

  ghost predicate Matched(s: State) {
    forall p :: 0 <= p < |s.client.promises| && s.client.promises[p].Fulfilled? ==>
      p < |s.server.served| && s.server.served[p].response == s.client.promises[p].response
  }

  // Only successful answers fulfil a promise.
  ghost predicate SuccessOk(s: State) {
    forall p :: 0 <= p < |s.client.promises| && s.client.promises[p].Fulfilled? ==>
      s.client.promises[p].response.status == Success
  }

  // At most one message is under way: the next request to be answered or the last answer.
  ghost predicate WireOk(s: State) {
    && |s.toServer| + |s.toClient| <= 1
    && (s.toServer != [] ==>
          |s.server.served| < |s.client.requests| && s.toServer[0] == s.client.requests[|s.server.served|])
    && (s.toClient != [] ==> s.server.served != [] && s.toClient[0] == s.server.served[|s.server.served| - 1].response)
  }

  // What an open client's outstanding operation is waiting for.
  ghost predicate OpenOk(s: State) {
    s.client.active ==>
      var k := C.Completed(s.client);
      && s.client.failures == 0
      && (s.client.operation == C.NoOperation ==> s.toServer == [] && s.toClient == [] && |s.server.served| == k)
      && (s.client.operation != C.NoOperation ==>
            || (|s.server.served| == k && s.toClient == [] && (s.server.phase.Closed? || s.toServer != []))
            || (|s.server.served| == k + 1 && |s.toClient| == 1))
  }

  ghost predicate Inv(s: State) {
    && C.Inv(s.client) && C.Orderly(s.client) && S.Inv(s.server)
    && ServedOk(s) && Matched(s) && SuccessOk(s) && WireOk(s) && OpenOk(s)
  }

  lemma {:induction false} PostKeepsInv(s: State, e: Event)
    requires Inv(s) && Enabled(s, e) && e.Post?
    ensures Inv(Apply(s, e))
  {
    hide C.CountFulfilled, C.SomeFailed, S.Inv, S.Apply, S.Enabled;
    var s' := Apply(s, e);
    C.StepKeepsInv(s.client, ClientEvent(s, e));
    assert |s'.client.promises| == |s.client.promises| + 1;
    assert Matched(s') && SuccessOk(s') by { KeepsMatched(s, s'); }
  }

  // Promises fulfilled before an event that fulfils none stay matched.
  lemma {:induction false} KeepsMatched(s: State, s': State)
    requires Matched(s) && SuccessOk(s) && s'.server == s.server
    requires |s.client.promises| <= |s'.client.promises|
    requires forall p :: 0 <= p < |s'.client.promises| && s'.client.promises[p].Fulfilled? ==>
               p < |s.client.promises| && s.client.promises[p] == s'.client.promises[p]
    ensures Matched(s') && SuccessOk(s')
  {
  }

  lemma {:induction false} FailureKeepsInv(s: State, e: Event)
    requires Inv(s) && Enabled(s, e) && (e.ClientSent? || e.ClientReceived?) && C.Fails(ClientEvent(s, e))
    ensures Inv(Apply(s, e))
  {
    hide C.CountFulfilled, C.SomeFailed, S.Inv, S.Apply, S.Enabled;
    C.StepKeepsInv(s.client, ClientEvent(s, e));
    C.FailureDrainsQueue(s.client, ClientEvent(s, e));
    KeepsMatched(s, Apply(s, e));
  }

  lemma {:induction false} SentKeepsInv(s: State, e: Event)
    requires Inv(s) && Enabled(s, e) && e.ClientSent? && !e.failed
    ensures Inv(Apply(s, e))
  {
    hide C.CountFulfilled, C.SomeFailed, S.Inv, S.Apply, S.Enabled;
    C.StepKeepsInv(s.client, ClientEvent(s, e));
    KeepsMatched(s, Apply(s, e));
  }

  lemma {:induction false} ReceivedKeepsInv(s: State, e: Event)
    requires Inv(s) && Enabled(s, e) && e.ClientReceived? && !C.Fails(ClientEvent(s, e))
    ensures Inv(Apply(s, e))
  {
    hide C.CountFulfilled, C.SomeFailed, S.Inv, S.Apply, S.Enabled;
    C.StepKeepsInv(s.client, ClientEvent(s, e));
    var s' := Apply(s, e);
    var k := C.Completed(s.client);
    assert s'.client.promises == s.client.promises[k := C.Fulfilled(s.toClient[0])];
    assert s'.server == s.server && s'.toClient == [];
  }

  lemma {:induction false} AnswerKeepsInv(s: State, e: Event)
    requires Inv(s) && Enabled(s, e) && e.ServerReceived?
    ensures Inv(Apply(s, e))
  {
    hide C.Inv, C.Apply, C.Orderly;
    S.StepKeepsInv(s.server, ServerEvent(s, e));
  }

  lemma {:induction false} ServerKeepsInv(s: State, e: Event)
    requires Inv(s) && Enabled(s, e) && (e.ServerStarted? || e.ServerSent?)
    ensures Inv(Apply(s, e))
  {
    hide C.Inv, C.Apply, C.Orderly, S.Respond;
    S.StepKeepsInv(s.server, ServerEvent(s, e));
    assert Apply(s, e).server.served == s.server.served;
  }

  lemma {:induction false} StepKeepsInv(s: State, e: Event)
    requires Inv(s) && Enabled(s, e)
    ensures Inv(Apply(s, e))
  {
    match e
    case Post(_) => PostKeepsInv(s, e);
    case ClientSent(failed) => if failed { FailureKeepsInv(s, e); } else { SentKeepsInv(s, e); }
    case ClientReceived(_) => if C.Fails(ClientEvent(s, e)) { FailureKeepsInv(s, e); } else { ReceivedKeepsInv(s, e); }
    case ServerReceived(_, _) => AnswerKeepsInv(s, e);
    case _ => ServerKeepsInv(s, e);
  }

  ghost predicate IsRun(s: State, run: seq<Event>, end: State)
    requires Inv(s)
    decreases |run|
  {
    if run == [] then s == end
    else Enabled(s, run[0]) && (StepKeepsInv(s, run[0]); IsRun(Apply(s, run[0]), run[1..], end))
  }

  lemma {:induction false} RunKeepsInv(s: State, run: seq<Event>, end: State)
    requires Inv(s) && IsRun(s, run, end)
    ensures Inv(end)
    decreases |run|
  {
    if run != [] {
      StepKeepsInv(s, run[0]);
      RunKeepsInv(Apply(s, run[0]), run[1..], end);
    }
  }

  ghost predicate Reachable(s: State) {
    exists run :: IsRun(Init(s.server.root), run, s)
  }

  lemma {:induction false} ReachableInv(s: State)
    requires Reachable(s)
    ensures Inv(s)
  {
    var run :| IsRun(Init(s.server.root), run, s);
    RunKeepsInv(Init(s.server.root), run, s);
  }

  // ---------- Main results ----------

  // The k-th promise holds the server's answer to the k-th request: the file it named.
  ghost predicate Answered(s: State, k: nat)
    requires k < |s.client.promises| && k < |s.client.requests|
  {
    && k < |s.server.served|
    && var x := s.server.served[k];
       && x.request == s.client.requests[k]
       && s.client.promises[k] == C.Fulfilled(x.response)
       && S.TargetPath(s.server.root, x.request.target) in x.files
       && x.response.body == x.files[S.TargetPath(s.server.root, x.request.target)]
  }

  /**
    In every run the promises split in two: the first n hold the server's answers to the first n
    requests, in order; the others are all still queued while the session is open, and have all
    failed once it is closed.  At most one message is on the wire.
   */
  lemma {:induction false} PromisesMatchAnswers(s: State) returns (n: nat)
    requires Reachable(s)
    ensures |s.client.promises| == |s.client.requests| && n <= |s.client.promises|
    ensures forall k :: 0 <= k < n ==> Answered(s, k)
    ensures forall k :: n <= k < |s.client.promises| ==>
              if s.client.active then s.client.promises[k].Pending? else s.client.promises[k].Failed?
    ensures |s.toServer| + |s.toClient| <= 1
  {
    ReachableInv(s);
    n := 0;
    while n < |s.client.promises| && s.client.promises[n].Fulfilled?
      invariant n <= |s.client.promises|
      invariant forall k :: 0 <= k < n ==> s.client.promises[k].Fulfilled?
    {
      n := n + 1;
    }
    forall k | 0 <= k < n ensures Answered(s, k) {
      FulfilledIsAnswered(s, k);
    }
  }

  lemma {:induction false} FulfilledIsAnswered(s: State, k: nat)
    requires Inv(s) && SuccessOk(s) && k < |s.client.promises| && s.client.promises[k].Fulfilled?
    ensures Answered(s, k)
  {
    assert s.server.served[k].response == S.Respond(s.server.root, s.server.served[k].request, s.server.served[k].files);
  }

  // The server's completion is fulfilled at most once, exactly when its loop has ended, and an
  // answer that ends the connection is its last.
  lemma {:induction false} ServerCompletesOnce(s: State)
    requires Reachable(s)
    ensures s.server.completions == (if s.server.phase.Closed? then 1 else 0)
    ensures forall i :: 0 <= i < |s.server.served| && s.server.served[i].response.needEof ==> i == |s.server.served| - 1
  {
    ReachableInv(s);
  }
}
