/**
  The segment streamer of one tile (network/dash.manager.cpp): each call predicts a
  representation, requests its initial segment if nobody has yet, and requests the next data
  segment.  The predictor is a real number per call.
 */
module TileStreamer {
  import opened Decimal
  import opened Sequences
  import opened Wrappers
  import MpdReader

  const TRACE_CAPACITY := 120

  datatype Request = Initial(represent: nat) | Data(represent: nat, segment: nat)

  datatype Error = StreamDrained

  // ---------- Prediction ----------

  // The conversion to an unsigned integer truncates.
  function Predict(size: nat, probability: real): nat
    requires size > 0 && 0.0 <= probability <= 1.0
  {
    Bounds(size, probability);
    var index := (size as real * (1.0 - probability)).Floor;
    if index < size - 1 then index else size - 1
  }

  lemma {:induction false} Bounds(size: nat, probability: real)
    requires 0.0 <= probability <= 1.0
    ensures 0.0 <= size as real * (1.0 - probability) <= size as real
  {
    Monotone(size, probability, 1.0);
    Monotone(size, 0.0, probability);
  }

  lemma {:induction false} Monotone(size: nat, p: real, q: real)
    requires p <= q
    ensures size as real * (1.0 - p) >= size as real * (1.0 - q)
  {
  }

  lemma {:induction false} FloorMonotone(x: real, y: real)
    requires x <= y
    ensures x.Floor <= y.Floor
  {
  }

  /**
    The index is valid, the more likely the view the lower it is, and certainty and
    impossibility select the first and the last representation.
   */
  lemma {:induction false} PredictOrders(size: nat, p: real, q: real)
    requires size > 0 && 0.0 <= p <= q <= 1.0
    ensures Predict(size, q) <= Predict(size, p) < size
    ensures Predict(size, 1.0) == 0 && Predict(size, 0.0) == size - 1
  {
    PredictFalls(size, p, q);
    assert size as real * (1.0 - 1.0) == 0.0;
    assert size as real * (1.0 - 0.0) == size as real;
  }

  lemma {:induction false} PredictFalls(size: nat, p: real, q: real)
    requires size > 0 && 0.0 <= p <= q <= 1.0
    ensures Predict(size, q) <= Predict(size, p) < size
  {
    Bounds(size, p);
    Bounds(size, q);
    Monotone(size, p, q);
    var x, y := size as real * (1.0 - p), size as real * (1.0 - q);
    assert y <= x;
    FloorMonotone(y, x);
  }

  /**
    The index is the whole part of the share of representations that the probability leaves out,
    and the last one when it leaves out all.
   */
  lemma {:induction false} PredictMeans(size: nat, p: real)
    requires size > 0 && 0.0 <= p <= 1.0
    ensures var k := Predict(size, p) as real;
            if p > 0.0 then k <= size as real * (1.0 - p) < k + 1.0 else k == size as real - 1.0
  {
    Bounds(size, p);
    if p > 0.0 { assert size as real * (1.0 - p) < size as real; }
  }

  lemma {:induction false} Fraction(k: nat, size: nat)
    requires k < size
    ensures 0.0 <= k as real / size as real <= 1.0
    ensures size as real * (k as real / size as real) == k as real
  {
  }

  // Every representation can be picked.
  lemma {:induction false} PredictReaches(size: nat, k: nat)
    requires k < size
    ensures var p := 1.0 - k as real / size as real;
            0.0 <= p <= 1.0 && Predict(size, p) == k
  {
    Fraction(k, size);
    var p := 1.0 - k as real / size as real;
    assert 1.0 - p == k as real / size as real;
    Bounds(size, p);
  }

  // ---------- One call ----------

  datatype State = State(
    size: nat,                   // number of representations
    trace: seq<nat>,             // circular buffer of the last indices
    traceIndex: nat,
    initialized: set<nat>,       // representations whose initial_buffer is set
    drain: bool,
    sent: seq<Request>)          // history: requests in the order they were sent

  function Fresh(size: nat): State {
    State(size, [], 0, {}, false, [])
  }

  function PushBack(trace: seq<nat>, index: nat): seq<nat> {
    if |trace| < TRACE_CAPACITY then trace + [index] else trace[1..] + [index]
  }

  function Call(s: State, probability: real): State
    requires s.size > 0 && 0.0 <= probability <= 1.0
  {
    if s.drain then s
    else
      var r := Predict(s.size, probability);
      var s1 := s.(trace := PushBack(s.trace, r), traceIndex := s.traceIndex + 1);
      var s2 := if r in s1.initialized then s1 else s1.(initialized := s1.initialized + {r}, sent := s1.sent + [Initial(r)]);
      s2.(sent := s2.sent + [Data(r, s2.traceIndex)])
  }

  // ---------- All calls ----------

  predicate Probabilities(ps: seq<real>) {
    forall k :: 0 <= k < |ps| ==> 0.0 <= ps[k] <= 1.0
  }

  function Calls(size: nat, ps: seq<real>): (r: State)
    requires size > 0 && Probabilities(ps)
    ensures r.size == size && !r.drain
  {
    if ps == [] then Fresh(size) else Call(Calls(size, ps[..|ps| - 1]), ps[|ps| - 1])
  }

  // What the calls picked, one after the other.
  function Picks(size: nat, ps: seq<real>): (r: seq<nat>)
    requires size > 0 && Probabilities(ps)
    ensures |r| == |ps| && forall k :: 0 <= k < |r| ==> r[k] == Predict(size, ps[k])
  {
    seq(|ps|, k requires 0 <= k < |ps| => Predict(size, ps[k]))
  }

  function Last(picks: seq<nat>): seq<nat> {
    if |picks| <= TRACE_CAPACITY then picks else picks[|picks| - TRACE_CAPACITY..]
  }

  // What a streamer must have sent for these picks.
  function Expected(picks: seq<nat>): (r: seq<Request>) {
    if picks == [] then []
    else
      var n := |picks| - 1;
      Expected(picks[..n]) + Ahead(picks[n], picks[..n]) + [Data(picks[n], n + 1)]
  }

  function Ahead(r: nat, picks: seq<nat>): seq<Request> {
    if r in picks then [] else [Initial(r)]
  }

  lemma {:induction false} ExpectedStep(picks: seq<nat>, r: nat)
    ensures Expected(picks + [r]) == Expected(picks) + Ahead(r, picks) + [Data(r, |picks| + 1)]
  {
    assert (picks + [r])[..|picks|] == picks;
  }

  lemma {:induction false} PushKeepsLast(picks: seq<nat>, r: nat)
    ensures PushBack(Last(picks), r) == Last(picks + [r])
  {
  }

  ghost predicate Meets(s: State, picks: seq<nat>) {
    && s.traceIndex == |picks| && s.trace == Last(picks) && s.sent == Expected(picks)
    && forall r :: r in s.initialized <==> r in picks
  }

  lemma {:induction false} CallMeets(s: State, picks: seq<nat>, p: real)
    requires s.size > 0 && !s.drain && 0.0 <= p <= 1.0 && Meets(s, picks)
    ensures Meets(Call(s, p), picks + [Predict(s.size, p)])
  {
    hide Predict, Expected, Last;
    var r := Predict(s.size, p);
    ExpectedStep(picks, r);
    PushKeepsLast(picks, r);
    AppendNothing(s.sent);
  }

  lemma {:induction false} CallsMeet(size: nat, ps: seq<real>)
    requires size > 0 && Probabilities(ps)
    ensures Meets(Calls(size, ps), Picks(size, ps))
    decreases |ps|
  {
    hide Meets, Predict, Call;
    var picks := Picks(size, ps);
    if ps == [] {
      assert Meets(Fresh(size), []) by { EmptyMeets(size); }
    } else {
      var n := |ps| - 1;
      CallsMeet(size, ps[..n]);
      CallMeets(Calls(size, ps[..n]), Picks(size, ps[..n]), ps[n]);
      assert picks == Picks(size, ps[..n]) + [Predict(size, ps[n])];
    }
  }

  lemma {:induction false} EmptyMeets(size: nat)
    ensures Meets(Fresh(size), [])
  {
  }

  // A drained streamer requests nothing more, however often it is called.
  lemma {:induction false} DrainedIsSilent(s: State, ps: seq<real>)
    requires s.size > 0 && s.drain && Probabilities(ps)
    ensures CallsFrom(s, ps) == s
  {
    if ps != [] { DrainedIsSilent(s, ps[..|ps| - 1]); }
  }

  function CallsFrom(s: State, ps: seq<real>): (r: State)
    requires s.size > 0 && Probabilities(ps)
    ensures r.size == s.size
  {
    if ps == [] then s else Call(CallsFrom(s, ps[..|ps| - 1]), ps[|ps| - 1])
  }

  function DataOf(requests: seq<Request>): seq<Request> {
    if requests == [] then []
    else DataOf(requests[..|requests| - 1]) + if requests[|requests| - 1].Data? then [requests[|requests| - 1]] else []
  }

  lemma {:induction false} DataOfAppended(requests: seq<Request>, r: Request)
    ensures DataOf(requests + [r]) == DataOf(requests) + if r.Data? then [r] else []
  {
    assert (requests + [r])[..|requests|] == requests;
  }

  function Numbered(picks: seq<nat>): seq<Request> {
    seq(|picks|, k requires 0 <= k < |picks| => Data(picks[k], k + 1))
  }

  lemma {:induction false} ExpectedData(picks: seq<nat>)
    ensures DataOf(Expected(picks)) == Numbered(picks)
    decreases |picks|
  {
    if picks != [] {
      var n := |picks| - 1;
      ExpectedData(picks[..n]);
      StepData(Expected(picks[..n]), picks[n], picks[..n]);
      assert Numbered(picks) == Numbered(picks[..n]) + [Data(picks[n], n + 1)];
    }
  }

  lemma {:induction false} StepData(before: seq<Request>, r: nat, picks: seq<nat>)
    ensures DataOf(before + Ahead(r, picks) + [Data(r, |picks| + 1)]) == DataOf(before) + [Data(r, |picks| + 1)]
  {
    hide DataOf;
    AppendNothing(before);
    AppendNothing(DataOf(before));
    DataOfAppended(before, Initial(r));
    DataOfAppended(before + Ahead(r, picks), Data(r, |picks| + 1));
  }

  // The request for a representation's initial segment stands at place j.
  predicate InitialAt(sent: seq<Request>, j: int, r: nat) {
    0 <= j < |sent| && sent[j] == Initial(r)
  }

  ghost predicate Prepared(sent: seq<Request>, picks: seq<nat>) {
    && (forall j, k, r :: InitialAt(sent, j, r) && InitialAt(sent, k, r) ==> j == k)
    && (forall j, r :: InitialAt(sent, j, r) ==> r in picks)
    && (forall k :: 0 <= k < |sent| && sent[k].Data? ==> exists j :: j < k && InitialAt(sent, j, sent[k].represent))
    && (forall r :: r in picks ==> exists j :: InitialAt(sent, j, r))
  }

  lemma {:induction false} ExpectedPrepared(picks: seq<nat>)
    ensures Prepared(Expected(picks), picks)
    decreases |picks|
  {
    if picks != [] {
      var n := |picks| - 1;
      ExpectedPrepared(picks[..n]);
      assert picks == picks[..n] + [picks[n]];
      var before := Expected(picks[..n]);
      if picks[n] in picks[..n] {
        AppendNothing(before);
        DataPrepared(before, picks[..n], picks[n], n + 1);
      } else {
        InitialPrepared(before, picks[..n], picks[n]);
        DataPrepared(before + [Initial(picks[n])], picks[..n] + [picks[n]], picks[n], n + 1);
      }
      assert Prepared(Expected(picks), picks);
    }
  }

  lemma {:induction false} InitialPrepared(sent: seq<Request>, picks: seq<nat>, r: nat)
    requires Prepared(sent, picks) && r !in picks
    ensures Prepared(sent + [Initial(r)], picks + [r])
  {
    var sent' := sent + [Initial(r)];
    assert forall j, q :: InitialAt(sent', j, q) <==> InitialAt(sent, j, q) || (j == |sent| && q == r);
    assert InitialAt(sent', |sent|, r);
    forall k | 0 <= k < |sent'| && sent'[k].Data? ensures exists j :: j < k && InitialAt(sent', j, sent'[k].represent) {
      assert sent'[k] == sent[k];
      var j :| j < k && InitialAt(sent, j, sent[k].represent);
      assert InitialAt(sent', j, sent'[k].represent);
    }
  }

  lemma {:induction false} DataPrepared(sent: seq<Request>, picks: seq<nat>, r: nat, segment: nat)
    requires Prepared(sent, picks) && r in picks
    ensures Prepared(sent + [Data(r, segment)], picks) && Prepared(sent + [Data(r, segment)], picks + [r])
  {
    var sent' := sent + [Data(r, segment)];
    assert forall j, q :: InitialAt(sent', j, q) <==> InitialAt(sent, j, q);
    forall k | 0 <= k < |sent'| && sent'[k].Data? ensures exists j :: j < k && InitialAt(sent', j, sent'[k].represent) {
      var q := sent'[k].represent;
      if k < |sent| {
        var j :| j < k && InitialAt(sent, j, q);
        assert InitialAt(sent', j, q);
      } else {
        var j :| InitialAt(sent, j, q);
        assert InitialAt(sent', j, q);
      }
    }
  }

  /**
    The k-th call requests data segment k of the representation it picked and nothing is
    requested out of that order; each representation's initial segment is requested at most
    once, only if it was picked, and before its first data segment.
   */
  lemma {:induction false} StreamingOrder(size: nat, ps: seq<real>)
    requires size > 0 && Probabilities(ps)
    ensures var s, picks := Calls(size, ps), Picks(size, ps);
            && DataOf(s.sent) == Numbered(picks)
            && Prepared(s.sent, picks)
            && s.traceIndex == |ps| && s.trace == Last(picks) && |s.trace| == if |ps| < 120 then |ps| else 120
  {
    CallsMeet(size, ps);
    ExpectedData(Picks(size, ps));
    ExpectedPrepared(Picks(size, ps));
  }

  // ---------- Names of segments ----------

  predicate NoBraces(s: string) {
    forall k :: 0 <= k < |s| ==> s[k] != '{' && s[k] != '}'
  }

  // fmt::format with one argument; patterns with other braces are not formatted here.
  function FormatNumber(pattern: string, n: nat): Option<string> {
    var i := MpdReader.FindText(pattern, "{}", 0);
    if i == |pattern| || !NoBraces(pattern[..i]) || !NoBraces(pattern[i + 2..]) then None
    else Some(pattern[..i] + Digits(n) + pattern[i + 2..])
  }

  lemma {:induction false} FoundBraces(s: string, from: nat, i: nat)
    requires from <= i && i + 2 <= |s| && s[i..i + 2] == "{}"
    requires forall k :: from <= k < i ==> s[k] != '{'
    ensures MpdReader.FindText(s, "{}", from) == i
    decreases i - from
  {
    if from < i {
      if from + 2 <= |s| { assert s[from..from + 2][0] == s[from]; }
      FoundBraces(s, from + 1, i);
    }
  }

  /**
    From template to request: the number's place in a template's media attribute, turned into a
    format by the reader, is filled with the number of the call.
   */
  lemma {:induction false} SegmentName(media: string, n: nat)
    requires NoBraces(media) && MpdReader.Format(media).Some?
    ensures var i := MpdReader.FindText(media, MpdReader.NUMBER, 0);
            FormatNumber(MpdReader.Format(media).value, n) == Some(media[..i] + Digits(n) + media[i + |MpdReader.NUMBER|..])
  {
    hide MpdReader.FindText, Digits;
    var i := MpdReader.FindText(media, MpdReader.NUMBER, 0);
    var pre, post := media[..i], media[i + |MpdReader.NUMBER|..];
    var pattern := pre + "{}" + post;
    assert pattern[i..i + 2] == "{}" && pattern[..i] == pre && pattern[i + 2..] == post;
    FoundBraces(pattern, 0, i);
  }

  // Different calls on one representation ask for different names.
  lemma {:induction false} SegmentNamesDiffer(pattern: string, m: nat, n: nat)
    requires FormatNumber(pattern, m).Some? && FormatNumber(pattern, m) == FormatNumber(pattern, n)
    ensures m == n
  {
    var i := MpdReader.FindText(pattern, "{}", 0);
    var pre, post := pattern[..i], pattern[i + 2..];
    var a, b := pre + Digits(m) + post, pre + Digits(n) + post;
    assert |Digits(m)| == |Digits(n)|;
    assert a[i..i + |Digits(m)|] == Digits(m) && b[i..i + |Digits(n)|] == Digits(n);
    ValueOfDigits(m);
    ValueOfDigits(n);
  }

  // ---------- The object ----------

  /** A video adaptation set with its context, as the streamer of its tile uses it. */
  class VideoSet {
    const size: nat
    var trace: seq<nat>
    var traceIndex: nat
    var initialized: set<nat>
    var drain: bool
    ghost var sent: seq<Request>

    ghost function View(): State
      reads this
    {
      State(size, trace, traceIndex, initialized, drain, sent)
    }

    constructor (size: nat)
      ensures View() == Fresh(size)
    {
      this.size := size;
      trace, traceIndex, initialized, drain, sent := [], 0, {}, false, [];
    }

    method PredictRepresent(probability: real) returns (index: nat)
      requires size > 0 && 0.0 <= probability <= 1.0
      modifies this`trace, this`traceIndex
      ensures index == Predict(size, probability)
      ensures trace == PushBack(old(trace), index) && traceIndex == old(traceIndex) + 1
    {
      Bounds(size, probability);
      var predicted := (size as real * (1.0 - probability)).Floor;
      index := if predicted < size - 1 then predicted else size - 1;
      trace := if |trace| < TRACE_CAPACITY then trace + [index] else trace[1..] + [index];
      traceIndex := traceIndex + 1;
    }

    method RequestInitialIfNull(index: nat)
      modifies this`initialized, this`sent
      ensures initialized == old(initialized) + {index}
      ensures sent == old(sent) + if index in old(initialized) then [] else [Initial(index)]
    {
      if index !in initialized {
        sent := sent + [Initial(index)];
        initialized := initialized + {index};
      }
    }

    // One call of the streamer.
    method Stream(probability: real) returns (r: Result<Request, Error>)
      requires size > 0 && 0.0 <= probability <= 1.0
      modifies this
      ensures View() == Call(old(View()), probability)
      ensures r == if old(drain) then Err(StreamDrained) else Ok(Data(Predict(size, probability), old(traceIndex) + 1))
    {
      if drain { return Err(StreamDrained); }
      var index := PredictRepresent(probability);
      RequestInitialIfNull(index);
      sent := sent + [Data(index, traceIndex)];
      return Ok(Data(index, traceIndex));
    }

    // drainCount is the manager's, over all its video sets.
    method MarkDrained(drainCount: nat) returns (r: nat)
      modifies this`drain
      ensures drain && r == drainCount + 1
    {
      drain := true;
      r := drainCount + 1;
    }
  }
}
