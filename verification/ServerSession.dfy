/**
  The server session of network/session.server.cpp: read one request, answer it, repeat until
  an error or a message that ends the connection; then close and fulfil the completion.
 */
module ServerSession {
  import opened Http
  import opened Sequences
  import opened Wrappers

  // What process_requests is waiting for.
  datatype Phase = Created | Receiving | Sending(response: Response) | Closed

  // One answered request and the files present when it was answered.
  datatype Exchange = Exchange(request: Request, files: map<string, Body>, response: Response)

  datatype State = State(
    root: string,
    phase: Phase,
    completions: nat,                       // how often completion_ has been fulfilled
    served: seq<Exchange>)       // history

  datatype Event =
    | Start
    | Received(failed: bool, request: Request, files: map<string, Body>)
    | Sent(failed: bool)

  function Init(root: string): State {
    State(root, Created, 0, [])
  }

  // The root is only put in front: nothing keeps the target below it.
  function TargetPath(root: string, target: string): (path: string)
    ensures root <= path && path[|root|..] == target
  {
    root + target
  }

  // A file answer lasts as long as the client wants; an error answer has no length and ends
  // the connection.
  function Respond(root: string, request: Request, files: map<string, Body>): Response {
    var path := TargetPath(root, request.target);
    if path in files then Response(Success, files[path], !request.keepAlive)
    else Response(BadRequest, [], true)
  }

  predicate Enabled(s: State, e: Event) {
    match e
    case Start => s.phase.Created?
    case Received(_, _, _) => s.phase.Receiving?
    case Sent(_) => s.phase.Sending?
  }

  function CloseThenComplete(s: State): State {
    s.(phase := Closed, completions := s.completions + 1)
  }

  function Apply(s: State, e: Event): State
    requires Enabled(s, e)
  {
    match e
    case Start => s.(phase := Receiving)
    case Received(failed, request, files) =>
      if failed || !request.keepAlive then CloseThenComplete(s)
      else
        var response := Respond(s.root, request, files);
        s.(phase := Sending(response), served := s.served + [Exchange(request, files, response)])
    case Sent(failed) =>
      if failed || s.phase.response.needEof then CloseThenComplete(s) else s.(phase := Receiving)
  }

  // The completion is fulfilled exactly when the loop has ended, and only once.
  ghost predicate Inv(s: State) {
    && s.completions == (if s.phase.Closed? then 1 else 0)
    && (s.phase.Sending? ==> s.served != [] && s.served[|s.served| - 1].response == s.phase.response)
    && (s.phase.Created? ==> s.served == [])
    // every answer but the last keeps the connection open
    && (forall i :: 0 <= i < |s.served| - 1 ==> s.served[i].response.status == Success && !s.served[i].response.needEof)
    && (s.phase.Receiving? && s.served != [] ==> s.served[|s.served| - 1].response.status == Success)
    && (forall i :: 0 <= i < |s.served| ==>
          && s.served[i].request.keepAlive
          && s.served[i].response == Respond(s.root, s.served[i].request, s.served[i].files)
          && (s.served[i].response.status == Success <==> !s.served[i].response.needEof))
  }

  lemma {:induction false} StepKeepsInv(s: State, e: Event)
    requires Inv(s) && Enabled(s, e)
    ensures Inv(Apply(s, e))
  {
  }

  // ---------- Whole runs ----------

  ghost predicate IsRun(s: State, run: seq<Event>, end: State)
    decreases |run|
  {
    if run == [] then s == end
    else Enabled(s, run[0]) && IsRun(Apply(s, run[0]), run[1..], end)
  }

  // The requests received in a run that ask for the connection to stay, each with its answer.
  function Answers(root: string, run: seq<Event>): seq<Exchange> {
    if run == [] then [] else Answer(root, run[0]) + Answers(root, run[1..])
  }

  function Answer(root: string, e: Event): seq<Exchange> {
    if e.Received? && !e.failed && e.request.keepAlive
    then [Exchange(e.request, e.files, Respond(root, e.request, e.files))] else []
  }

  lemma {:induction false} RunAnswers(s: State, run: seq<Event>, end: State)
    requires Inv(s) && IsRun(s, run, end)
    ensures Inv(end) && end.root == s.root && end.served == s.served + Answers(s.root, run)
    decreases |run|
  {
    hide Inv, Respond;
    if run == [] {
      AppendNothing(s.served);
    } else {
      StepKeepsInv(s, run[0]);
      RunAnswers(Apply(s, run[0]), run[1..], end);
      AppendNothing(s.served);
      AppendAssociates(s.served, Answer(s.root, run[0]), Answers(s.root, run[1..]));
    }
  }

  /**
    In every run each request received that asks for the connection to stay gets one answer, in
    order: the file it names, or bad_request if there is none, which then is the last answer.
    The completion is fulfilled once, exactly when the loop has ended.
   */
  lemma {:induction false} OneAnswerEach(root: string, run: seq<Event>, end: State)
    requires IsRun(Init(root), run, end)
    ensures end.served == Answers(root, run)
    ensures end.completions == if end.phase.Closed? then 1 else 0
    ensures forall i :: 0 <= i < |end.served| ==>
              var x := end.served[i];
              && (x.response.status == Success <==> TargetPath(root, x.request.target) in x.files)
              && (x.response.status == Success ==> x.response.body == x.files[TargetPath(root, x.request.target)])
              && (x.response.status != Success ==> i == |end.served| - 1 && !end.phase.Receiving?)
  {
    RunAnswers(Init(root), run, end);
    AnswersMean(end);
    hide Answers, IsRun, Inv;
    PrependNothing(Answers(root, run));
  }

  lemma {:induction false} AnswersMean(s: State)
    requires Inv(s)
    ensures s.completions == if s.phase.Closed? then 1 else 0
    ensures forall i :: 0 <= i < |s.served| ==>
              var x := s.served[i];
              && (x.response.status == Success <==> TargetPath(s.root, x.request.target) in x.files)
              && (x.response.status == Success ==> x.response.body == x.files[TargetPath(s.root, x.request.target)])
              && (x.response.status != Success ==> i == |s.served| - 1 && !s.phase.Receiving?)
  {
  }

  // After this event, with these answers given, the loop ends: something failed, the client asked
  // for an end, or the answer sent was not a success.
  predicate EndsLoop(served: seq<Exchange>, e: Event) {
    match e
    case Start => false
    case Received(failed, request, _) => failed || !request.keepAlive
    case Sent(failed) => failed || served == [] || served[|served| - 1].response.status != Success
  }

  /**
    Where a run leaves the loop is decided by its last event: it has ended exactly if that event
    ends it; otherwise it waits for the next request after a start or an answer sent, and sends
    after a request received.
   */
  lemma {:induction false} PhaseMeans(root: string, run: seq<Event>, end: State)
    requires IsRun(Init(root), run, end)
    ensures end.phase.Created? <==> run == []
    ensures end.phase.Closed? <==> run != [] && EndsLoop(end.served, run[|run| - 1])
    ensures end.phase.Receiving? <==> run != [] && !run[|run| - 1].Received? && !EndsLoop(end.served, run[|run| - 1])
    ensures end.phase.Sending? <==> run != [] && run[|run| - 1].Received? && !EndsLoop(end.served, run[|run| - 1])
  {
    if run != [] { LastEvent(Init(root), run, end); }
  }

  lemma {:induction false} LastEvent(s: State, run: seq<Event>, end: State)
    requires Inv(s) && run != [] && IsRun(s, run, end)
    ensures var e := run[|run| - 1];
            && (end.phase.Closed? <==> EndsLoop(end.served, e))
            && (!EndsLoop(end.served, e) ==> if e.Received? then end.phase.Sending? else end.phase.Receiving?)
    decreases |run|
  {
    if |run| == 1 {
      assert end == Apply(s, run[0]);
    } else {
      StepKeepsInv(s, run[0]);
      hide Inv, Apply, Enabled, EndsLoop;
      LastEvent(Apply(s, run[0]), run[1..], end);
    }
  }

  // A request for a file that is there, on a connection that is to stay.
  predicate Servable(root: string, request: Request, files: map<string, Body>) {
    request.keepAlive && TargetPath(root, request.target) in files
  }

  lemma {:induction false} ServesOne(s: State, request: Request, files: map<string, Body>) returns (run: seq<Event>, end: State)
    requires s.phase.Receiving? && Servable(s.root, request, files)
    ensures IsRun(s, run, end) && end.phase.Receiving? && end.root == s.root
    ensures end.served == s.served + [Exchange(request, files, Response(Success, files[TargetPath(s.root, request.target)], false))]
  {
    var e := Received(false, request, files);
    var sending := Apply(s, e);
    end := Apply(sending, Sent(false));
    run := [e, Sent(false)];
    assert run[1..] == [Sent(false)] && [Sent(false)][1..] == [];
    assert IsRun(end, [], end) && IsRun(sending, [Sent(false)], end);
  }

  /**
    The loop goes on for as long as it is asked for files that are there: for every list of such
    requests there is a run that answers each with its file and ends waiting for more.
   */
  lemma {:induction false} ServesAll(root: string, requests: seq<Request>, files: seq<map<string, Body>>)
    returns (run: seq<Event>, end: State)
    requires |requests| == |files| && forall k :: 0 <= k < |requests| ==> Servable(root, requests[k], files[k])
    ensures IsRun(Init(root), run, end) && end.phase.Receiving? && end.root == root && |end.served| == |requests|
    ensures forall k :: 0 <= k < |requests| ==>
              && Servable(root, requests[k], files[k])
              && end.served[k] == Exchange(requests[k], files[k], Response(Success, files[k][TargetPath(root, requests[k].target)], false))
    decreases |requests|
  {
    if requests == [] {
      run, end := [Start], Apply(Init(root), Start);
      assert [Start][1..] == [];
      assert IsRun(end, [], end);
    } else {
      var n := |requests| - 1;
      var a, mid := ServesAll(root, requests[..n], files[..n]);
      var b;
      b, end := ServesOne(mid, requests[n], files[n]);
      run := a + b;
      RunsJoin(Init(root), a, mid, b, end);
    }
  }

  lemma {:induction false} RunsJoin(s: State, a: seq<Event>, mid: State, b: seq<Event>, end: State)
    requires IsRun(s, a, mid) && IsRun(mid, b, end)
    ensures IsRun(s, a + b, end)
    decreases |a|
  {
    hide Enabled, Apply;
    if a == [] {
      assert a + b == b;
    } else {
      RunsJoin(Apply(s, a[0]), a[1..], mid, b, end);
      assert (a + b)[0] == a[0] && (a + b)[1..] == a[1..] + b;
    }
  }

  // Once the loop has ended nothing happens any more.
  lemma {:induction false} ClosedIsFinal(s: State, e: Event)
    requires s.phase.Closed?
    ensures !Enabled(s, e)
  {
  }

  // ---------- The object ----------

  class Session {
    var root: string
    var phase: Phase
    var completions: nat
    ghost var served: seq<Exchange>

    ghost function View(): State
      reads this
    {
      State(root, phase, completions, served)
    }

    ghost predicate Valid()
      reads this
    {
      Inv(View())
    }

    constructor (root: string)
      ensures Valid() && View() == Init(root)
    {
      this.root, phase, completions, served := root, Created, 0, [];
    }

    method ProcessRequests()
      requires Valid() && Enabled(View(), Start)
      modifies this
      ensures Valid() && View() == Apply(old(View()), Start)
    {
      ReceiveRequest();
    }

    method ReceiveRequest()
      modifies this`phase
      ensures phase == Receiving
    {
      phase := Receiving;
    }

    method OnRecvRequest(failed: bool, request: Request, files: map<string, Body>)
      requires Valid() && Enabled(View(), Received(failed, request, files))
      modifies this
      ensures Valid() && View() == Apply(old(View()), Received(failed, request, files))
    {
      if failed || !request.keepAlive {
        CloseSocketThenComplete();
        return;
      }
      var path := TargetPath(root, request.target);
      var response;
      if path in files {
        response := Response(Success, files[path], !request.keepAlive);
      } else {
        response := Response(BadRequest, [], true);
      }
      phase, served := Sending(response), served + [Exchange(request, files, response)];
    }

    method OnSendResponse(failed: bool)
      requires Valid() && Enabled(View(), Sent(failed))
      modifies this
      ensures Valid() && View() == Apply(old(View()), Sent(failed))
    {
      if failed || phase.response.needEof {
        CloseSocketThenComplete();
        return;
      }
      ReceiveRequest();
    }

    // Promise fulfilment throws the second time, so it is only legal while open.
    method CloseSocketThenComplete()
      requires completions == 0
      modifies this`phase, this`completions
      ensures phase == Closed && completions == 1
    {
      phase, completions := Closed, completions + 1;
    }
  }
}
