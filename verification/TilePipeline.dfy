/**
  The tile pipeline of gallery/plugin.cpp: per stream, a decode thread fills a bounded decode
  queue, polling moves frames to the render queue, and the texture events of the render thread
  consume them plane by plane.  One event per step on state that two threads share; the render
  thread's handler is two steps, since polling may set the end of stream between its first
  check and its work.
 */
module TilePipeline {
  import opened Sequences
  import opened Wrappers

  datatype Frame = NullFrame | Picture(id: nat)

  // An element of the decode queue: a frame, or the exception that ended the stream.
  datatype Item = Carry(frame: Frame) | Failure

  datatype Decoder =
    | Waiting                                      // for the next segment
    | Writing(pending: seq<Frame>, armed: bool)    // armed: has just seen running set
    | Failing                                      // the null frame is to be written
    | Reporting                                    // the exception is to be written
    | Stopped

  // A texture event as the render thread saw it: which plane of which frame.
  datatype Touch = Touch(begin: bool, plane: nat, frame: Frame)

  datatype Stream = Stream(
    capacity: nat,
    decoder: Decoder,
    requested: nat,
    decodeQueue: seq<Item>,
    count: nat,
    inHand: Option<Item>,        // taken by a poll that has not finished
    decodeTry: nat,
    decodeSuccess: nat,
    renderQueue: seq<Frame>,
    frame: Option<Frame>,        // render.frame: what the pointer points to
    begin: nat,
    end: nat,
    renderFinish: nat,
    texture: set<nat>,
    // history
    fetched: seq<seq<Frame>>,    // segments received, as the frames they decode to
    written: seq<Frame>,
    popped: seq<Frame>,
    reported: nat,               // exceptions polled
    next: nat,                   // place of the next texture event in its round of six
    touches: seq<Touch>,         // of the current round
    rounds: seq<seq<Touch>>)     // finished rounds

  function Fresh(capacity: nat): Stream {
    Stream(capacity, Waiting, 1, [], 0, None, 0, 0, [], None, 0, 0, 0, {}, [], [], [], 0, 0, [], [])
  }

  // ---------- Steps of one stream ----------

  predicate AllPictures(frames: seq<Frame>) {
    forall k :: 0 <= k < |frames| ==> frames[k].Picture?
  }

  // A segment arrives; the next one is requested before it is decoded.
  function Fetch(st: Stream, frames: seq<Frame>): Stream {
    st.(decoder := Writing(frames, false), requested := st.requested + 1, fetched := st.fetched + [frames])
  }

  function LoadRunning(st: Stream, running: bool): Stream
    requires st.decoder.Writing?
  {
    st.(decoder := if running then st.decoder.(armed := true) else Stopped)
  }

  function HasRoom(st: Stream): bool {
    |st.decodeQueue| < st.capacity
  }

  // tryWriteUntil: times out while the queue is full, and running is loaded again.
  function TryWrite(st: Stream): Stream
    requires st.decoder.Writing? && st.decoder.pending != []
  {
    var frames := st.decoder.pending;
    if HasRoom(st) then
      st.(decoder := Writing(frames[1..], false), decodeQueue := st.decodeQueue + [Carry(frames[0])],
          written := st.written + [frames[0]], count := st.count + 1)
    else st.(decoder := Writing(frames, false))
  }

  function WriteNull(st: Stream): Stream {
    st.(decoder := Reporting, decodeQueue := st.decodeQueue + [Carry(NullFrame)], written := st.written + [NullFrame])
  }

  function WriteFailure(st: Stream): Stream {
    st.(decoder := Stopped, decodeQueue := st.decodeQueue + [Failure])
  }

  function PollMiss(st: Stream): Stream {
    st.(decodeTry := st.decodeTry + 1)
  }

  function PollRead(st: Stream): Stream
    requires st.decodeQueue != []
  {
    st.(decodeTry := st.decodeTry + 1, decodeSuccess := st.decodeSuccess + 1,
        inHand := Some(st.decodeQueue[0]), decodeQueue := st.decodeQueue[1..])
  }

  function PollFinish(st: Stream): Stream
    requires st.inHand.Some?
  {
    match st.inHand.value
    case Carry(f) => st.(inHand := None, renderQueue := st.renderQueue + [f])
    case Failure => st.(inHand := None, reported := st.reported + 1)
  }

  function Peek(st: Stream): Option<Frame> {
    if st.renderQueue == [] then None else Some(st.renderQueue[0])
  }

  // state::stream::available: what end_of_stream becomes when a frame pointer is passed.
  predicate EndOf(frame: Option<Frame>) {
    frame == Some(NullFrame)
  }

  function SetPlane(st: Stream, plane: nat): Stream
    requires st.frame.Some?
  {
    st.(begin := st.begin + 1, texture := st.texture + {plane}, touches := st.touches + [Touch(true, plane, st.frame.value)])
  }

  function BeginTexture(st: Stream, plane: nat): Stream
    requires st.texture == {} ==> Peek(st).Some?
    requires st.texture != {} ==> st.frame.Some?
  {
    if st.texture == {} then
      var st' := st.(frame := Peek(st));
      if EndOf(st'.frame) then st' else SetPlane(st', plane)
    else SetPlane(st, plane)
  }

  function EndTexture(st: Stream, plane: nat): Stream
    requires st.frame.Some? && st.renderQueue != []
  {
    var round := st.touches + [Touch(false, plane, st.frame.value)];
    if st.texture == {0, 1, 2} then
      st.(end := st.end + 1, renderFinish := st.renderFinish + 1, texture := {}, frame := None,
          renderQueue := st.renderQueue[1..], popped := st.popped + [st.renderQueue[0]],
          touches := [], rounds := st.rounds + [round])
    else st.(end := st.end + 1, touches := round)
  }

  // ---------- The whole system ----------

  datatype RenderOp = RenderOp(i: nat, begin: bool, plane: nat)

  datatype State = State(
    streams: seq<Stream>,
    running: bool,
    endOfStream: bool,
    render: Option<RenderOp>,    // a texture event that has passed the first check
    noticed: bool,               // history: the render thread has seen the end of stream
    crashed: bool)               // an assertion of the texture handler has failed

  datatype Event =
    | Release
    | Deliver(i: nat, frames: seq<Frame>)
    | DeliverBad(i: nat)
    | Drained(i: nat)
    | Load(i: nat)
    | Write(i: nat)
    | PutNull(i: nat)
    | PutFailure(i: nat)
    | Miss(i: nat)
    | Take(i: nat)
    | Hand(i: nat)
    | Enter(i: nat)
    | Act

  function Init(capacities: seq<nat>): State {
    State(seq(|capacities|, i requires 0 <= i < |capacities| => Fresh(capacities[i])), true, false, None, false, false)
  }

  // Texture events of a stream come in rounds: Begin 0, End 0, Begin 1, End 1, Begin 2, End 2.
  function Op(i: nat, next: nat): RenderOp {
    RenderOp(i, next % 2 == 0, next / 2)
  }

  // Steps of the decode thread and of polling.
  predicate Local(e: Event) {
    !e.Release? && !e.Enter? && !e.Act?
  }

  predicate StreamEnabled(st: Stream, e: Event) {
    match e
    case Deliver(_, frames) => st.decoder.Waiting? && AllPictures(frames)
    case DeliverBad(_) => st.decoder.Waiting?
    case Drained(_) => st.decoder.Writing? && st.decoder.pending == []
    case Load(_) => st.decoder.Writing? && st.decoder.pending != [] && !st.decoder.armed
    case Write(_) => st.decoder.Writing? && st.decoder.pending != [] && st.decoder.armed
    case PutNull(_) => st.decoder.Failing? && HasRoom(st)
    case PutFailure(_) => st.decoder.Reporting? && HasRoom(st)
    case Miss(_) => st.inHand.None? && st.decodeQueue == []
    case Take(_) => st.inHand.None? && st.decodeQueue != []
    case Hand(_) => st.inHand.Some?
    case _ => false
  }

  function StreamStep(st: Stream, e: Event, running: bool): Stream
    requires StreamEnabled(st, e)
  {
    match e
    case Deliver(_, frames) => Fetch(st, frames)
    case DeliverBad(_) => st.(decoder := Failing)
    case Drained(_) => st.(decoder := Waiting)
    case Load(_) => LoadRunning(st, running)
    case Write(_) => TryWrite(st)
    case PutNull(_) => WriteNull(st)
    case PutFailure(_) => WriteFailure(st)
    case Miss(_) => PollMiss(st)
    case Take(_) => PollRead(st)
    case Hand(_) => PollFinish(st)
  }

  predicate Enabled(s: State, e: Event) {
    !s.crashed &&
    match e
    case Release => true
    case Act => s.render.Some?
    case Enter(i) => i < |s.streams| && s.render.None?
    case _ => e.i < |s.streams| && StreamEnabled(s.streams[e.i], e)
  }

  function Update(s: State, i: nat, st: Stream): State
    requires i < |s.streams|
  {
    s.(streams := s.streams[i := st])
  }

  // First half of on_texture_update_event.
  function EnterEvent(s: State, i: nat): State
    requires i < |s.streams|
  {
    var st := s.streams[i];
    var s' := Update(s, i, st.(next := (st.next + 1) % 6));
    if s.endOfStream then s'.(noticed := true) else s'.(render := Some(Op(i, st.next)))
  }

  // What the assertions in the second half of on_texture_update_event say.
  predicate ActAsserts(st: Stream, op: RenderOp) {
    if op.begin then
      && (st.texture == {} ==> op.plane == 0 && st.frame.None?)
      && (st.texture == {} ==> Peek(st).Some?)
      && (st.texture != {} ==> st.frame.Some?)
      && op.plane !in st.texture
    else
      && st.frame.Some? && st.renderQueue != []
      && st.end + 1 <= st.begin && op.plane in st.texture
      && (st.texture == {0, 1, 2} ==> op.plane == 2)
  }

  // Second half of on_texture_update_event.
  function ActEvent(s: State, op: RenderOp): State
    requires op.i < |s.streams| && ActAsserts(s.streams[op.i], op)
  {
    var st := s.streams[op.i];
    if op.begin then
      var s' := Update(s, op.i, BeginTexture(st, op.plane)).(render := None);
      if st.texture == {} then s'.(endOfStream := EndOf(Peek(st)), noticed := s.noticed || EndOf(Peek(st))) else s'
    else
      Update(s, op.i, EndTexture(st, op.plane)).(render := None)
  }

  // A failed assertion stops the program; by then the check at the start of a round has already
  // set the flag from what it found.
  function Crash(s: State, op: RenderOp): State {
    var begins := op.begin && op.i < |s.streams| && s.streams[op.i].texture == {};
    s.(crashed := true, endOfStream := if begins then EndOf(Peek(s.streams[op.i])) else s.endOfStream)
  }

  // Polling sets the end of stream when it hands over the exception.
  predicate Ends(st: Stream, e: Event) {
    e.Hand? && st.inHand == Some(Failure)
  }

  function Apply(s: State, e: Event): State
    requires Enabled(s, e)
  {
    match e
    case Release => s.(running := false)
    case Enter(i) => EnterEvent(s, i)
    case Act =>
      var op := s.render.value;
      if op.i < |s.streams| && ActAsserts(s.streams[op.i], op) then ActEvent(s, op) else Crash(s, op)
    case _ =>
      var st := s.streams[e.i];
      Update(s, e.i, StreamStep(st, e, s.running)).(endOfStream := s.endOfStream || Ends(st, e))
  }

  // ---------- Invariant ----------

  function FramesOf(items: seq<Item>): (r: seq<Frame>) {
    if items == [] then []
    else FramesOf(items[..|items| - 1]) + Single(items[|items| - 1])
  }

  function Single(item: Item): seq<Frame> {
    match item
    case Carry(f) => [f]
    case Failure => []
  }

  function Held(inHand: Option<Item>): seq<Frame> {
    match inHand
    case Some(item) => Single(item)
    case None => []
  }

  // Frames of the segments received, in order.
  function Join(segments: seq<seq<Frame>>): (r: seq<Frame>) {
    if segments == [] then [] else Join(segments[..|segments| - 1]) + segments[|segments| - 1]
  }

  // Every frame written is in exactly one place, in order.
  ghost predicate Conserved(st: Stream) {
    st.written == st.popped + st.renderQueue + Held(st.inHand) + FramesOf(st.decodeQueue)
  }

  // How far the decode thread has come with what it received.
  ghost predicate Supplied(st: Stream) {
    && |st.decodeQueue| <= st.capacity
    && st.requested == |st.fetched| + 1
    && AllPictures(Join(st.fetched))
    && st.count == |st.written| - (if EndsNull(st.written) then 1 else 0)
    && match st.decoder
       case Waiting => st.written == Join(st.fetched)
       case Writing(pending, _) => st.written + pending == Join(st.fetched)
       case Failing => st.written == Join(st.fetched)
       case Reporting => st.written == Join(st.fetched) + [NullFrame]
       case Stopped => st.written <= Join(st.fetched) + [NullFrame]
  }

  predicate EndsNull(frames: seq<Frame>) {
    frames != [] && frames[|frames| - 1].NullFrame?
  }

  ghost predicate Counted(st: Stream) {
    && st.decodeSuccess == |st.popped| + |st.renderQueue| + |Held(st.inHand)| + st.reported +
                           (if st.inHand == Some(Failure) then 1 else 0)
    && st.decodeSuccess <= st.decodeTry
  }

  function Planes(phase: nat): set<nat> {
    if phase == 0 then {} else if phase <= 2 then {0} else if phase <= 4 then {0, 1} else {0, 1, 2}
  }

  // A whole round over one frame.
  function Round(f: Frame): (r: seq<Touch>)
    ensures |r| == 6
  {
    [Touch(true, 0, f), Touch(false, 0, f), Touch(true, 1, f), Touch(false, 1, f), Touch(true, 2, f), Touch(false, 2, f)]
  }

  // The texture state machine stands |touches| events into a round over the head of the render queue.
  ghost predicate Drawn(st: Stream) {
    var phase := |st.touches|;
    && phase < 6 && st.texture == Planes(phase)
    && st.begin == 3 * st.renderFinish + (phase + 1) / 2
    && st.end == 3 * st.renderFinish + phase / 2
    && st.renderFinish == |st.popped| == |st.rounds|
    && (phase > 0 ==>
          && st.renderQueue != [] && st.renderQueue[0].Picture? && st.frame == Some(st.renderQueue[0])
          && st.touches == Round(st.renderQueue[0])[..phase])
    && (forall k :: 0 <= k < |st.rounds| ==> st.popped[k].Picture? && st.rounds[k] == Round(st.popped[k]))
  }

  ghost predicate StreamOk(st: Stream) {
    Conserved(st) && Supplied(st) && Counted(st) && Drawn(st)
  }

  predicate PendingOn(s: State, i: nat) {
    s.render.Some? && s.render.value.i == i
  }

  // Events of a stream are acted on in order as long as the end of stream has not been noticed.
  ghost predicate InStep(s: State, i: nat)
    requires i < |s.streams|
  {
    var st := s.streams[i];
    if PendingOn(s, i) then
      && s.render.value == Op(i, |st.touches|) && st.next == (|st.touches| + 1) % 6
      && (st.touches == [] ==> st.frame.None?)
    else st.next == |st.touches| && (st.touches == [] ==> st.frame.None?)
  }

  ghost predicate Inv(s: State) {
    && (forall i :: 0 <= i < |s.streams| ==> StreamOk(s.streams[i]))
    && (s.render.Some? ==> s.render.value.i < |s.streams| && !s.noticed)
    && (s.noticed ==> s.endOfStream)
    && (!s.noticed ==> forall i :: 0 <= i < |s.streams| ==> InStep(s, i))
  }

  // ---------- Steps keep the invariant: one stream ----------

  lemma {:induction false} FramesOfAppended(items: seq<Item>, item: Item)
    ensures FramesOf(items + [item]) == FramesOf(items) + Single(item)
  {
    assert (items + [item])[..|items|] == items;
  }

  lemma {:induction false} FramesOfHead(items: seq<Item>)
    requires items != []
    ensures FramesOf(items) == Single(items[0]) + FramesOf(items[1..])
  {
    var n := |items| - 1;
    if n == 0 {
      assert items[..0] == [] && items[1..] == [];
      PrependNothing(Single(items[0]));
      AppendNothing(Single(items[0]));
    } else {
      FramesOfHead(items[..n]);
      assert items[..n][1..] == items[1..][..n - 1];
      AppendAssociates(Single(items[0]), FramesOf(items[1..][..n - 1]), Single(items[n]));
    }
  }

  lemma {:induction false} JoinAppended(segments: seq<seq<Frame>>, frames: seq<Frame>)
    ensures Join(segments + [frames]) == Join(segments) + frames
  {
    assert (segments + [frames])[..|segments|] == segments;
  }

  lemma {:induction false} KeepPut(st: Stream, st': Stream, item: Item)
    requires Conserved(st) && st'.decodeQueue == st.decodeQueue + [item] && st'.written == st.written + Single(item)
    requires st'.popped == st.popped && st'.renderQueue == st.renderQueue && st'.inHand == st.inHand
    ensures Conserved(st')
  {
    FramesOfAppended(st.decodeQueue, item);
    AppendAssociates(st.popped + st.renderQueue + Held(st.inHand), FramesOf(st.decodeQueue), Single(item));
  }

  lemma {:induction false} KeepFetch(st: Stream, frames: seq<Frame>)
    requires StreamOk(st) && st.decoder.Waiting? && AllPictures(frames)
    ensures StreamOk(Fetch(st, frames))
  {
    JoinAppended(st.fetched, frames);
  }

  lemma {:induction false} PicturesBefore(written: seq<Frame>, rest: seq<Frame>, all: seq<Frame>)
    requires AllPictures(all) && written + rest == all
    ensures AllPictures(written) && AllPictures(rest)
  {
    assert forall k :: 0 <= k < |written| ==> written[k] == all[k];
    assert forall k :: 0 <= k < |rest| ==> rest[k] == all[|written| + k];
  }

  lemma {:induction false} KeepWrite(st: Stream)
    requires StreamOk(st) && st.decoder.Writing? && st.decoder.pending != []
    ensures StreamOk(TryWrite(st))
  {
    var frames := st.decoder.pending;
    if HasRoom(st) {
      KeepPut(st, TryWrite(st), Carry(frames[0]));
      assert [frames[0]] + frames[1..] == frames;
      AppendAssociates(st.written, [frames[0]], frames[1..]);
      PicturesBefore(st.written, frames, Join(st.fetched));
      PicturesBefore(st.written + [frames[0]], frames[1..], Join(st.fetched));
    }
  }

  lemma {:induction false} KeepWriteNull(st: Stream)
    requires StreamOk(st) && st.decoder.Failing? && HasRoom(st)
    ensures StreamOk(WriteNull(st))
  {
    KeepPut(st, WriteNull(st), Carry(NullFrame));
  }

  lemma {:induction false} KeepWriteFailure(st: Stream)
    requires StreamOk(st) && st.decoder.Reporting? && HasRoom(st)
    ensures StreamOk(WriteFailure(st))
  {
    AppendNothing(st.written);
    KeepPut(st, WriteFailure(st), Failure);
  }

  lemma {:induction false} KeepTaken(st: Stream, st': Stream)
    requires Conserved(st) && st.inHand.None? && st.decodeQueue != []
    requires st'.decodeQueue == st.decodeQueue[1..] && st'.inHand == Some(st.decodeQueue[0])
    requires st'.popped == st.popped && st'.renderQueue == st.renderQueue && st'.written == st.written
    ensures Conserved(st')
  {
    hide FramesOf;
    var item, rest := st.decodeQueue[0], st.decodeQueue[1..];
    FramesOfHead(st.decodeQueue);
    AppendNothing(st.popped + st.renderQueue);
    AppendAssociates(st.popped + st.renderQueue, Single(item), FramesOf(rest));
  }

  lemma {:induction false} KeepPollRead(st: Stream)
    requires StreamOk(st) && st.inHand.None? && st.decodeQueue != []
    ensures StreamOk(PollRead(st))
  {
    KeepTaken(st, PollRead(st));
    hide Conserved, FramesOf, Join, Round, Planes, AllPictures, EndsNull;
  }

  lemma {:induction false} KeepPollFinish(st: Stream)
    requires StreamOk(st) && st.inHand.Some?
    ensures StreamOk(PollFinish(st))
  {
    var st' := PollFinish(st);
    AppendAssociates(st.popped, st.renderQueue, Held(st.inHand));
    AppendNothing(st.popped + st'.renderQueue);
    AppendNothing(st.renderQueue);
  }

  lemma {:induction false} PlanesStep(phase: nat)
    requires phase < 6
    ensures phase % 2 == 0 ==> phase / 2 !in Planes(phase) && Planes(phase + 1) == Planes(phase) + {phase / 2}
    ensures phase % 2 == 1 ==> phase / 2 in Planes(phase)
    ensures phase % 2 == 1 && phase < 5 ==> Planes(phase + 1) == Planes(phase) && Planes(phase) != {0, 1, 2}
    ensures Planes(phase) == {} <==> phase == 0
    ensures Planes(5) == {0, 1, 2}
  {
    assert 2 !in Planes(1) && 2 !in Planes(3);
    assert 0 in Planes(1);
  }

  lemma {:induction false} RoundStep(f: Frame, phase: nat)
    requires phase < 6
    ensures Round(f)[..phase] + [Touch(phase % 2 == 0, phase / 2, f)] == Round(f)[..phase + 1]
    ensures Round(f)[..6] == Round(f)
  {
  }

  lemma {:induction false} KeepSetPlane(st: Stream, phase: nat)
    requires phase == |st.touches| && phase % 2 == 0 && Drawn(st)
    requires st.renderQueue != [] && st.renderQueue[0].Picture? && st.frame == Some(st.renderQueue[0])
    ensures Drawn(SetPlane(st, phase / 2))
  {
    PlanesStep(phase);
    RoundStep(st.renderQueue[0], phase);
  }

  lemma {:induction false} KeepBegin(st: Stream, phase: nat)
    requires phase == |st.touches| && phase % 2 == 0 && StreamOk(st) && (phase == 0 ==> st.renderQueue != [])
    ensures (st.texture == {} ==> Peek(st).Some?) && (st.texture != {} ==> st.frame.Some?)
    ensures StreamOk(BeginTexture(st, phase / 2))
  {
    PlanesStep(phase);
    if phase == 0 {
      var st' := st.(frame := Peek(st));
      assert Drawn(st');
      if !EndOf(st'.frame) { KeepSetPlane(st', phase); }
    } else {
      KeepSetPlane(st, phase);
    }
  }

  lemma {:induction false} KeepEnd(st: Stream, phase: nat)
    requires phase == |st.touches| && phase % 2 == 1 && StreamOk(st)
    ensures st.frame.Some? && st.renderQueue != []
    ensures StreamOk(EndTexture(st, phase / 2))
  {
    PlanesStep(phase);
    RoundStep(st.renderQueue[0], phase);
    if phase == 5 {
      var q := st.renderQueue;
      assert q == [q[0]] + q[1..];
      AppendAssociates(st.popped, [q[0]], q[1..]);
    }
  }

  // ---------- Steps keep the invariant: the system ----------

  lemma {:induction false} InitInv(capacities: seq<nat>)
    ensures Inv(Init(capacities))
  {
    forall i | 0 <= i < |capacities| ensures StreamOk(Fresh(capacities[i])) {}
  }

  // A step outside the render thread.
  lemma {:induction false} KeepElsewhere(s: State, i: nat, st': Stream, over: bool)
    requires Inv(s) && i < |s.streams| && StreamOk(st') && (s.endOfStream ==> over)
    requires var st := s.streams[i];
             && st'.touches == st.touches && st'.next == st.next && st'.frame == st.frame
             && (st.renderQueue != [] ==> st'.renderQueue != [])
    ensures Inv(Update(s, i, st').(endOfStream := over))
  {
    hide StreamOk;
    var s' := Update(s, i, st').(endOfStream := over);
    forall j | 0 <= j < |s'.streams| && !s.noticed ensures InStep(s', j) {
      assert InStep(s, j);
    }
  }

  lemma {:induction false} KeepEnter(s: State, i: nat)
    requires Inv(s) && Enabled(s, Enter(i))
    ensures Inv(EnterEvent(s, i))
  {
    hide FramesOf, Join, Round, Planes, AllPictures, EndsNull;
    var st, s' := s.streams[i], EnterEvent(s, i);
    assert StreamOk(s'.streams[i]) by { assert StreamOk(st); }
    if !s.endOfStream {
      forall j | 0 <= j < |s'.streams| ensures InStep(s', j) {
        assert InStep(s, j);
      }
    }
  }

  // A round is about to begin and no frame is waiting.
  predicate NothingToShow(st: Stream, op: RenderOp) {
    op.begin && st.texture == {} && st.renderQueue == []
  }

  /**
    The assertions in the second half of the handler hold when they are reached, exactly unless a
    round begins while no frame is waiting.
   */
  lemma {:induction false} AssertionsHoldIff(s: State)
    requires Inv(s) && s.render.Some?
    ensures var op := s.render.value;
            op.i < |s.streams| && (ActAsserts(s.streams[op.i], op) <==> !NothingToShow(s.streams[op.i], op))
  {
    var op := s.render.value;
    var st := s.streams[op.i];
    assert InStep(s, op.i) && StreamOk(st);
    PlanesStep(|st.touches|);
  }

  lemma {:induction false} KeepAct(s: State)
    requires Inv(s) && Enabled(s, Act)
    ensures Inv(Apply(s, Act))
  {
    AssertionsHoldIff(s);
    if NothingToShow(s.streams[s.render.value.i], s.render.value) { KeepCrash(s); } else { KeepActed(s); }
  }

  lemma {:induction false} KeepCrash(s: State)
    requires Inv(s) && s.render.Some?
    ensures Inv(Crash(s, s.render.value))
  {
    hide StreamOk;
    var s' := Crash(s, s.render.value);
    forall j | 0 <= j < |s'.streams| && !s'.noticed ensures InStep(s', j) { assert InStep(s, j); }
  }

  lemma {:induction false} KeepActed(s: State)
    requires Inv(s) && Enabled(s, Act) && s.render.value.i < |s.streams|
    requires ActAsserts(s.streams[s.render.value.i], s.render.value)
    ensures Inv(Apply(s, Act))
  {
    hide Conserved, Supplied, Counted, Round, BeginTexture, EndTexture;
    var op := s.render.value;
    var i, st := op.i, s.streams[op.i];
    var phase := |st.touches|;
    assert InStep(s, i) && StreamOk(st);
    PlanesStep(phase);
    if op.begin { KeepBegin(st, phase); } else { KeepEnd(st, phase); }
    var s' := Apply(s, Act);
    if !s'.noticed { ActedInStep(s); }
    forall j | 0 <= j < |s'.streams| && !s'.noticed ensures InStep(s', j) {
      assert InStep(s, j);
    }
  }

  lemma {:induction false} ActedInStep(s: State)
    requires Inv(s) && Enabled(s, Act) && !Apply(s, Act).noticed && s.render.value.i < |s.streams|
    requires ActAsserts(s.streams[s.render.value.i], s.render.value)
    ensures InStep(Apply(s, Act), s.render.value.i)
  {
    var op := s.render.value;
    var st := s.streams[op.i];
    assert InStep(s, op.i) && StreamOk(st);
    PlanesStep(|st.touches|);
  }

  lemma {:induction false} StepKeepsInv(s: State, e: Event)
    requires Inv(s) && Enabled(s, e)
    ensures Inv(Apply(s, e))
  {
    hide StreamOk, StreamStep, StreamEnabled, ActEvent, EnterEvent, ActAsserts;
    match e {
      case Release => KeepRelease(s);
      case Act => KeepAct(s);
      case Enter(i) => KeepEnter(s, i);
      case _ =>
        var st := s.streams[e.i];
        StreamStepKeeps(st, e, s.running);
        KeepElsewhere(s, e.i, StreamStep(st, e, s.running), s.endOfStream || Ends(st, e));
    }
  }

  lemma {:induction false} KeepRelease(s: State)
    requires Inv(s)
    ensures Inv(s.(running := false))
  {
    hide StreamOk;
    assert forall i :: 0 <= i < |s.streams| && !s.noticed && InStep(s, i) ==> InStep(s.(running := false), i);
  }

  lemma {:induction false} StreamStepKeeps(st: Stream, e: Event, running: bool)
    requires StreamOk(st) && StreamEnabled(st, e)
    ensures var st' := StreamStep(st, e, running);
            && StreamOk(st')
            && st'.touches == st.touches && st'.next == st.next && st'.frame == st.frame
            && (st.renderQueue != [] ==> st'.renderQueue != [])
  {
    hide FramesOf, Join, Round, Planes, AllPictures, EndsNull;
    match e {
      case Deliver(_, frames) => KeepFetch(st, frames);
      case DeliverBad(_) =>
      case Drained(_) => AppendNothing(st.written);
      case Load(_) => KeepLoad(st, running);
      case Write(_) => KeepWrite(st);
      case PutNull(_) => KeepWriteNull(st);
      case PutFailure(_) => KeepWriteFailure(st);
      case Miss(_) =>
      case Take(_) => KeepPollRead(st);
      case Hand(_) => KeepPollFinish(st);
    }
  }

  lemma {:induction false} KeepLoad(st: Stream, running: bool)
    requires StreamOk(st) && st.decoder.Writing?
    ensures StreamOk(LoadRunning(st, running))
  {
    var pending := st.decoder.pending;
    AppendAssociates(st.written, pending, [NullFrame]);
    assert (st.written + pending + [NullFrame])[..|st.written|] == st.written;
  }

  // ---------- Runs ----------

  predicate RunEnabled(s: State, es: seq<Event>)
    decreases |es|
  {
    es == [] || (Enabled(s, es[0]) && RunEnabled(Apply(s, es[0]), es[1..]))
  }

  function Run(s: State, es: seq<Event>): State
    requires RunEnabled(s, es)
    decreases |es|
  {
    if es == [] then s else Run(Apply(s, es[0]), es[1..])
  }

  lemma {:induction false} RunInv(s: State, es: seq<Event>)
    requires Inv(s) && RunEnabled(s, es)
    ensures Inv(Run(s, es))
    decreases |es|
  {
    if es != [] {
      StepKeepsInv(s, es[0]);
      RunInv(Apply(s, es[0]), es[1..]);
    }
  }

  ghost predicate Reachable(s: State) {
    exists capacities, es :: RunEnabled(Init(capacities), es) && s == Run(Init(capacities), es)
  }

  lemma {:induction false} ReachableInv(s: State)
    requires Reachable(s)
    ensures Inv(s)
  {
    var capacities, es :| RunEnabled(Init(capacities), es) && s == Run(Init(capacities), es);
    InitInv(capacities);
    RunInv(Init(capacities), es);
  }

  // ---------- Main results ----------

  /**
    Frames written are the frames popped, then those waiting for the renderer, then the one a
    poll holds, then those waiting for a poll; the decode queue never exceeds its capacity.
    What the renderer has consumed is a prefix of what the segments decode to, in their order,
    and one segment more has been requested than received.
   */
  lemma {:induction false} FramesConserved(s: State, i: nat)
    requires Reachable(s) && i < |s.streams|
    ensures var st := s.streams[i];
            && st.written == st.popped + st.renderQueue + Held(st.inHand) + FramesOf(st.decodeQueue)
            && |st.decodeQueue| <= st.capacity
            && st.popped <= Join(st.fetched)
            && st.requested == |st.fetched| + 1
  {
    ReachableInv(s);
    assert StreamOk(s.streams[i]);
    PoppedInOrder(s.streams[i]);
  }

  lemma {:induction false} PoppedInOrder(st: Stream)
    requires Conserved(st) && Supplied(st) && Drawn(st)
    ensures st.popped <= Join(st.fetched)
  {
    var all := Join(st.fetched) + [NullFrame];
    assert st.written <= all by {
      if st.decoder.Writing? { AppendAssociates(st.written, st.decoder.pending, [NullFrame]); }
    }
    var rest := st.renderQueue + Held(st.inHand) + FramesOf(st.decodeQueue);
    assert st.written == st.popped + rest;
    forall k | 0 <= k < |st.popped|
      ensures k < |Join(st.fetched)| && st.popped[k] == Join(st.fetched)[k]
    {
      assert st.rounds[k] == Round(st.popped[k]);
      assert st.popped[k] == st.written[k] == all[k];
    }
    if st.popped != [] {
      var last := st.popped[|st.popped| - 1];
      assert |st.popped| - 1 < |Join(st.fetched)|;
    }
  }

  /**
    The texture counters agree with the state of the three planes, and every frame popped has
    had each of its planes begun and ended, in order, and nothing else done to it.
   */
  lemma {:induction false} WholeRounds(s: State, i: nat)
    requires Reachable(s) && i < |s.streams|
    ensures var st := s.streams[i];
            && st.begin == 3 * st.renderFinish + |st.texture| && st.end <= st.begin
            && |st.rounds| == |st.popped| == st.renderFinish
            && forall k :: 0 <= k < |st.popped| ==> st.popped[k].Picture? && st.rounds[k] == Round(st.popped[k])
  {
    ReachableInv(s);
    var st := s.streams[i];
    assert StreamOk(st);
    assert |Planes(|st.touches|)| == (|st.touches| + 1) / 2;
  }

  /**
    The other counters: decode.count is the number of pictures written, decode_success the number
    of items polled, wherever they are now, and no poll succeeds without being tried.
   */
  lemma {:induction false} CountersAgree(s: State, i: nat)
    requires Reachable(s) && i < |s.streams|
    ensures var st := s.streams[i];
            && st.count == |st.written| - (if EndsNull(st.written) then 1 else 0)
            && st.decodeSuccess == |st.popped| + |st.renderQueue| + (if st.inHand.Some? then 1 else 0) + st.reported
            && st.decodeSuccess <= st.decodeTry
  {
    ReachableInv(s);
    assert StreamOk(s.streams[i]);
  }

  // The render thread is about to begin a round over anything but the null frame.
  predicate AtRisk(s: State) {
    && !s.crashed && s.render.Some? && s.render.value.i < |s.streams| && s.render.value.begin
    && var st := s.streams[s.render.value.i];
       st.texture == {} && !EndOf(Peek(st))
  }

  lemma {:induction false} StaysOver(s: State, e: Event)
    requires Inv(s) && s.endOfStream && !AtRisk(s) && Enabled(s, e)
    ensures Apply(s, e).endOfStream && !AtRisk(Apply(s, e))
  {
    hide Inv, StreamStep, StreamEnabled, ActEvent, ActAsserts;
    match e {
      case Release =>
      case Enter(_) =>
      case Act => StaysOverAct(s);
      case _ => HeadStays(s.streams[e.i], e, s.running);
    }
  }

  lemma {:induction false} StaysOverAct(s: State)
    requires Inv(s) && s.endOfStream && !AtRisk(s) && Enabled(s, Act)
    ensures Apply(s, Act).endOfStream && Apply(s, Act).render.None?
  {
    AssertionsHoldIff(s);
    hide Inv, BeginTexture, EndTexture;
  }

  lemma {:induction false} HeadStays(st: Stream, e: Event, running: bool)
    requires StreamEnabled(st, e)
    ensures var st' := StreamStep(st, e, running);
            st'.texture == st.texture && st.renderQueue <= st'.renderQueue
  {
  }

  lemma {:induction false} RunStaysOver(s: State, es: seq<Event>)
    requires Inv(s) && s.endOfStream && !AtRisk(s) && RunEnabled(s, es)
    ensures Run(s, es).endOfStream
    decreases |es|
  {
    if es != [] {
      StepKeepsInv(s, es[0]);
      StaysOver(s, es[0]);
      RunStaysOver(Apply(s, es[0]), es[1..]);
    }
  }

  // At risk, the handler's work makes the end of stream forgotten.
  lemma {:induction false} ForgetsEnd(s: State)
    requires Inv(s) && AtRisk(s)
    ensures RunEnabled(s, [Act]) && !Run(s, [Act]).endOfStream
  {
    AssertionsHoldIff(s);
    assert [Act][0] == Act && [Act][1..] == [];
    assert RunEnabled(Apply(s, Act), []);
    assert Run(s, [Act]) == Run(Apply(s, Act), []);
  }

  /**
    The end of stream, once set, stays set whatever happens, exactly when the render thread is
    not between the two checks of a round's first event with anything but the null frame to show.
   */
  lemma {:induction false} EndStays(s: State)
    requires Reachable(s) && s.endOfStream
    ensures (forall es :: RunEnabled(s, es) ==> Run(s, es).endOfStream) <==> !AtRisk(s)
  {
    ReachableInv(s);
    if AtRisk(s) {
      ForgetsEnd(s);
    } else {
      forall es | RunEnabled(s, es) ensures Run(s, es).endOfStream { RunStaysOver(s, es); }
    }
  }

  // Once the render thread itself has seen the end of the stream it never acts again.
  lemma {:induction false} NoticedIsFinal(s: State, es: seq<Event>)
    requires Reachable(s) && s.noticed && RunEnabled(s, es)
    ensures Run(s, es).endOfStream && Run(s, es).noticed && Run(s, es).render.None?
  {
    ReachableInv(s);
    RunNoticed(s, es);
  }

  lemma {:induction false} RunNoticed(s: State, es: seq<Event>)
    requires Inv(s) && s.noticed && RunEnabled(s, es)
    ensures Run(s, es).endOfStream && Run(s, es).noticed && Run(s, es).render.None?
    decreases |es|
  {
    if es != [] {
      StepKeepsInv(s, es[0]);
      RunNoticed(Apply(s, es[0]), es[1..]);
    }
  }

  lemma {:induction false} RunExtends(s: State, es: seq<Event>, e: Event)
    requires RunEnabled(s, es) && Enabled(Run(s, es), e)
    ensures RunEnabled(s, es + [e]) && Run(s, es + [e]) == Apply(Run(s, es), e)
    decreases |es|
  {
    if es == [] {
      assert [e][0] == e && [e][1..] == [];
      PrependNothing([e]);
      assert RunEnabled(Apply(s, e), []);
      assert Run(s, [e]) == Run(Apply(s, e), []);
    } else {
      RunExtends(Apply(s, es[0]), es[1..], e);
      assert (es + [e])[0] == es[0] && (es + [e])[1..] == es[1..] + [e];
    }
  }

  lemma {:induction false} Reaches(s: State, e: Event) returns (s': State)
    requires Reachable(s) && Enabled(s, e)
    ensures Reachable(s') && s' == Apply(s, e)
  {
    var capacities, es :| RunEnabled(Init(capacities), es) && s == Run(Init(capacities), es);
    RunExtends(Init(capacities), es, e);
    s' := Apply(s, e);
  }

  // Nothing else is needed for the assertions to fail than a texture event before the first frame.
  lemma {:induction false} EmptyRoundCrashes()
    ensures exists s :: Reachable(s) && s.crashed
  {
    hide Reachable, RunEnabled, Run, Inv;
    StartsEmpty();
    var s := Reaches(One(Fresh(1)), Enter(0));
    s := Reaches(s, Act);
    assert s.crashed;
  }

  // One stream is enough to lose an end of stream that was set.
  lemma {:induction false} EndCanBeLost()
    ensures exists s :: Reachable(s) && s.endOfStream && Enabled(s, Act) && !Apply(s, Act).endOfStream
  {
    hide Reachable, RunEnabled, Run, Inv;
    var st := SendsFailure();
    var s := One(st);
    s := Reaches(s, Take(0));
    s := Reaches(s, Enter(0));
    s := Reaches(s, Hand(0));
    assert s.endOfStream && AtRisk(s);
    ReachableInv(s);
    AssertionsHoldIff(s);
    assert Enabled(s, Act) && !Apply(s, Act).endOfStream;
  }

  function One(st: Stream): State {
    State([st], true, false, None, false, false)
  }

  lemma {:induction false} OneStep(st: Stream, e: Event)
    requires Reachable(One(st)) && Local(e) && e.i == 0 && StreamEnabled(st, e) && !Ends(st, e)
    ensures Reachable(One(StreamStep(st, e, true)))
  {
    var s := Reaches(One(st), e);
    assert s.streams == [StreamStep(st, e, true)];
  }

  lemma {:induction false} StartsEmpty()
    ensures Reachable(One(Fresh(1)))
  {
    assert Init([1]) == One(Fresh(1));
    assert RunEnabled(Init([1]), []) && One(Fresh(1)) == Run(Init([1]), []);
  }

  lemma {:induction false} SendsPicture() returns (st: Stream)
    ensures Reachable(One(st)) && st.decoder == Writing([], false) && st.capacity == 1
    ensures st.decodeQueue == [] && st.inHand.None? && st.renderQueue == [Picture(0)]
    ensures st.texture == {} && st.next == 0
  {
    hide Reachable, RunEnabled, Run, Apply, Enabled;
    StartsEmpty();
    st := Fresh(1);
    OneStep(st, Deliver(0, [Picture(0)]));
    st := StreamStep(st, Deliver(0, [Picture(0)]), true);
    OneStep(st, Load(0));
    st := StreamStep(st, Load(0), true);
    OneStep(st, Write(0));
    st := StreamStep(st, Write(0), true);
    OneStep(st, Take(0));
    st := StreamStep(st, Take(0), true);
    OneStep(st, Hand(0));
    st := StreamStep(st, Hand(0), true);
  }

  lemma {:induction false} SendsFailure() returns (st: Stream)
    ensures Reachable(One(st)) && st.decodeQueue == [Failure] && st.inHand.None?
    ensures st.renderQueue == [Picture(0), NullFrame] && st.texture == {} && st.next == 0
  {
    hide Reachable, RunEnabled, Run, Apply, Enabled;
    st := SendsPicture();
    OneStep(st, Drained(0));
    st := StreamStep(st, Drained(0), true);
    OneStep(st, DeliverBad(0));
    st := StreamStep(st, DeliverBad(0), true);
    OneStep(st, PutNull(0));
    st := StreamStep(st, PutNull(0), true);
    OneStep(st, Take(0));
    st := StreamStep(st, Take(0), true);
    OneStep(st, Hand(0));
    st := StreamStep(st, Hand(0), true);
    OneStep(st, PutFailure(0));
    st := StreamStep(st, PutFailure(0), true);
  }

  // ---------- The objects ----------

  // state::stream::available with its static flag.
  class Availability {
    var endOfStream: bool

    constructor ()
      ensures !endOfStream
    {
      endOfStream := false;
    }

    // The outer option is the optional argument, the inner one the pointer in it.
    method Available(frame: Option<Option<Frame>>) returns (r: bool)
      modifies this
      ensures endOfStream == if frame.Some? then EndOf(frame.value) else old(endOfStream)
      ensures r == !endOfStream
    {
      if frame.Some? {
        match frame.value {
          case Some(f) => endOfStream := f == NullFrame;
          case None => endOfStream := false;
        }
      }
      return !endOfStream;
    }
  }

  /** stream_context: each method is one step of the decode, poll or render thread. */
  class StreamContext {
    const capacity: nat
    var decoder: Decoder
    var requested: nat
    var decodeQueue: seq<Item>
    var count: nat
    var inHand: Option<Item>
    var decodeTry: nat
    var decodeSuccess: nat
    var renderQueue: seq<Frame>
    var frame: Option<Frame>
    var begin: nat
    var end: nat
    var renderFinish: nat
    var texture: set<nat>
    ghost var fetched: seq<seq<Frame>>
    ghost var written: seq<Frame>
    ghost var popped: seq<Frame>
    ghost var reported: nat
    ghost var next: nat
    ghost var touches: seq<Touch>
    ghost var rounds: seq<seq<Touch>>

    ghost function View(): Stream
      reads this
    {
      Stream(capacity, decoder, requested, decodeQueue, count, inHand, decodeTry, decodeSuccess, renderQueue, frame,
             begin, end, renderFinish, texture, fetched, written, popped, reported, next, touches, rounds)
    }

    constructor (capacity: nat)
      ensures View() == Fresh(capacity)
    {
      this.capacity := capacity;
      decoder, requested, decodeQueue, count := Waiting, 1, [], 0;
      inHand, decodeTry, decodeSuccess := None, 0, 0;
      renderQueue, frame, begin, end, renderFinish, texture := [], None, 0, 0, 0, {};
      fetched, written, popped, reported, next, touches, rounds := [], [], [], 0, 0, [], [];
    }

    method ReceiveSegment(frames: seq<Frame>)
      requires decoder.Waiting?
      modifies this
      ensures View() == Fetch(old(View()), frames)
    {
      requested := requested + 1;
      decoder := Writing(frames, false);
      fetched := fetched + [frames];
    }

    method CheckRunning(running: bool)
      requires decoder.Writing?
      modifies this
      ensures View() == LoadRunning(old(View()), running)
    {
      if running { decoder := Writing(decoder.pending, true); } else { decoder := Stopped; }
    }

    method TryWriteFrame()
      requires decoder.Writing? && decoder.pending != []
      modifies this
      ensures View() == TryWrite(old(View()))
    {
      var frames := decoder.pending;
      if |decodeQueue| < capacity {
        decodeQueue := decodeQueue + [Carry(frames[0])];
        count := count + 1;
        written := written + [frames[0]];
        decoder := Writing(frames[1..], false);
      } else {
        decoder := Writing(frames, false);
      }
    }

    method WriteNullFrame()
      requires decoder.Failing? && |decodeQueue| < capacity
      modifies this
      ensures View() == WriteNull(old(View()))
    {
      decodeQueue, written, decoder := decodeQueue + [Carry(NullFrame)], written + [NullFrame], Reporting;
    }

    method WriteException()
      requires decoder.Reporting? && |decodeQueue| < capacity
      modifies this
      ensures View() == WriteFailure(old(View()))
    {
      decodeQueue, decoder := decodeQueue + [Failure], Stopped;
    }

    // _nativeDashTilePtrPollUpdate, up to the read of the decode queue.
    method PollDecodeQueue() returns (found: bool)
      requires inHand.None?
      modifies this
      ensures found == (old(decodeQueue) != [])
      ensures View() == if found then PollRead(old(View())) else PollMiss(old(View()))
    {
      decodeTry := decodeTry + 1;
      if decodeQueue == [] { return false; }
      inHand, decodeQueue := Some(decodeQueue[0]), decodeQueue[1..];
      decodeSuccess := decodeSuccess + 1;
      return true;
    }

    // ... and what it does with what it read.
    method HandOver(availability: Availability)
      requires inHand.Some?
      modifies this, availability
      ensures View() == PollFinish(old(View()))
      ensures availability.endOfStream == (old(availability.endOfStream) || old(inHand) == Some(Failure))
    {
      match inHand.value {
        case Carry(f) => renderQueue := renderQueue + [f];
        case Failure =>
          var _ := availability.Available(Some(Some(NullFrame)));
          reported := reported + 1;
      }
      inHand := None;
    }

    // The second half of a begin event; untouched tells that the handler returned early.
    method BeginPlane(plane: nat, availability: Availability) returns (untouched: bool)
      requires ActAsserts(View(), RenderOp(0, true, plane))
      modifies this, availability
      ensures View() == BeginTexture(old(View()), plane)
      ensures availability.endOfStream ==
              if old(texture) == {} then EndOf(Peek(old(View()))) else old(availability.endOfStream)
      ensures untouched <==> old(texture) == {} && availability.endOfStream
    {
      if texture == {} {
        frame := if renderQueue == [] then None else Some(renderQueue[0]);
        var available := availability.Available(Some(frame));
        if !available { return true; }
      }
      begin := begin + 1;
      texture := texture + {plane};
      touches := touches + [Touch(true, plane, frame.value)];
      return false;
    }

    // The second half of an end event.
    method EndPlane(plane: nat)
      requires ActAsserts(View(), RenderOp(0, false, plane))
      requires frame.Some? && renderQueue != []
      modifies this
      ensures View() == EndTexture(old(View()), plane)
    {
      hide ActAsserts;
      ghost var round := touches + [Touch(false, plane, frame.value)];
      end := end + 1;
      if texture == {0, 1, 2} {
        RecordRound(round, renderQueue[0]);
        PopFrame();
      } else {
        touches := round;
      }
    }

    method PopFrame()
      requires renderQueue != []
      modifies this
      ensures View() == old(View().(renderFinish := renderFinish + 1, texture := {}, frame := None, renderQueue := renderQueue[1..]))
    {
      renderFinish := renderFinish + 1;
      renderQueue := renderQueue[1..];
      texture := {};
      frame := None;
    }

    ghost method RecordRound(round: seq<Touch>, shown: Frame)
      modifies this
      ensures View() == old(View().(popped := popped + [shown], touches := [], rounds := rounds + [round]))
    {
      popped, touches, rounds := popped + [shown], [], rounds + [round];
    }
  }
}
