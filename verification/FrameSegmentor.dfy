/**
  The demux-and-decode iterator of multimedia/io.segmentor.cpp and multimedia/context.cpp.
  The decoder is an oracle: a function from the packets sent so far to the frames that become
  available when the last of them is sent.
 */
module FrameSegmentor {
  import opened Sequences
  import opened Wrappers

  datatype MediaType = Audio | Video | Subtitle | Unknown

  datatype Packet = Packet(kind: MediaType, size: nat)

  datatype Frame = Frame(id: nat)

  datatype Drained = StreamDrained

  // What av_read_frame leaves behind at the end of the stream; sent to the decoder it flushes.
  const NoPacket := Packet(Unknown, 0)

  predicate Empty(p: Packet) {
    p.size == 0
  }

  predicate Matches(wanted: MediaType, p: Packet) {
    wanted == Unknown || p.kind == wanted
  }

  // ---------- The stream of frames ----------

  // Packets from the first one of the wanted kind on.
  function Skip(packets: seq<Packet>, wanted: MediaType): (r: seq<Packet>)
    ensures |r| <= |packets|
    ensures r != [] ==> Matches(wanted, r[0])
  {
    if packets == [] || Matches(wanted, packets[0]) then packets else Skip(packets[1..], wanted)
  }

  /** Exactly the packets of other kinds in front are skipped, and none when any kind will do. */
  lemma {:induction false} SkipMeans(packets: seq<Packet>, wanted: MediaType)
    ensures var n := |packets| - |Skip(packets, wanted)|;
            && Skip(packets, wanted) == packets[n..]
            && (forall i :: 0 <= i < n ==> wanted != Unknown && packets[i].kind != wanted)
            && (n < |packets| ==> wanted == Unknown || packets[n].kind == wanted)
  {
    if packets != [] && !Matches(wanted, packets[0]) {
      SkipMeans(packets[1..], wanted);
      var n := |packets| - |Skip(packets, wanted)|;
      assert packets[1..][n - 1..] == packets[n..];
      forall i | 0 <= i < n ensures packets[i].kind != wanted {
        if i > 0 { assert packets[1..][i - 1] == packets[i]; }
      }
    }
  }

  // What the decoder is sent: every video packet up to the first empty one, or the flush.
  function Feed(packets: seq<Packet>): (r: seq<Packet>)
    ensures r != []
    decreases |packets|
  {
    var s := Skip(packets, Video);
    if s == [] then [NoPacket] else if Empty(s[0]) then [s[0]] else [s[0]] + Feed(s[1..])
  }

  type Decoder = seq<Packet> -> seq<Frame>

  // All frames the decoder yields for the rest of its feed.
  function Output(decoder: Decoder, sent: seq<Packet>, feed: seq<Packet>): seq<Frame>
    decreases |feed|
  {
    if feed == [] then [] else decoder(sent + [feed[0]]) + Output(decoder, sent + [feed[0]], feed[1..])
  }

  // Only the last packet of a feed is empty: the decoder is flushed once, at the end.
  lemma {:induction false} FlushComesLast(packets: seq<Packet>, i: nat)
    requires i < |Feed(packets)|
    ensures Feed(packets)[i].size == 0 <==> i == |Feed(packets)| - 1
    decreases |packets|
  {
    var s := Skip(packets, Video);
    if s != [] && !Empty(s[0]) && i > 0 { FlushComesLast(s[1..], i - 1); }
  }

  function VideoPackets(packets: seq<Packet>): seq<Packet> {
    if packets == [] then []
    else (if packets[0].kind == Video then [packets[0]] else []) + VideoPackets(packets[1..])
  }

  lemma {:induction false} VideoSkip(packets: seq<Packet>)
    ensures VideoPackets(Skip(packets, Video)) == VideoPackets(packets)
  {
    if packets != [] && !Matches(Video, packets[0]) { VideoSkip(packets[1..]); }
  }

  // Packets up to the first without data, and a flush if there is none.
  function UpToEmpty(packets: seq<Packet>): seq<Packet> {
    if packets == [] then [NoPacket]
    else if packets[0].size == 0 then [packets[0]]
    else [packets[0]] + UpToEmpty(packets[1..])
  }

  lemma {:induction false} FeedStops(packets: seq<Packet>)
    ensures Feed(packets) == UpToEmpty(VideoPackets(packets))
    decreases |packets|
  {
    var s := Skip(packets, Video);
    VideoSkip(packets);
    if s != [] {
      FeedStops(s[1..]);
      assert VideoPackets(packets)[1..] == VideoPackets(s[1..]);
    }
  }

  lemma {:induction false} UpToEmptyMeans(packets: seq<Packet>, n: nat)
    requires n <= |packets| && (forall k :: 0 <= k < n ==> packets[k].size > 0) && (n < |packets| ==> packets[n].size == 0)
    ensures UpToEmpty(packets) == packets[..n] + [if n < |packets| then packets[n] else NoPacket]
    decreases n
  {
    if n > 0 {
      UpToEmptyMeans(packets[1..], n - 1);
      assert packets[..n] == [packets[0]] + packets[1..][..n - 1];
    }
  }

  /**
    The decoder is fed the video packets up to the first without data, whatever stands between
    them, and a flush if there is none.
   */
  lemma {:induction false} FeedUpTo(packets: seq<Packet>, n: nat)
    requires n <= |VideoPackets(packets)| && forall k :: 0 <= k < n ==> VideoPackets(packets)[k].size > 0
    requires n < |VideoPackets(packets)| ==> VideoPackets(packets)[n].size == 0
    ensures var video := VideoPackets(packets);
            Feed(packets) == video[..n] + [if n < |video| then video[n] else NoPacket]
  {
    FeedStops(packets);
    UpToEmptyMeans(VideoPackets(packets), n);
  }

  // A stream whose video packets all carry data is fed completely.
  lemma {:induction false} FeedIsVideo(packets: seq<Packet>)
    requires forall p :: p in VideoPackets(packets) ==> p.size > 0
    ensures Feed(packets) == VideoPackets(packets) + [NoPacket]
  {
    FeedUpTo(packets, |VideoPackets(packets)|);
  }

  // ---------- The object ----------

  class Segmentor {
    const decoder: Decoder
    var packets: seq<Packet>       // not yet demuxed
    var sent: seq<Packet>          // inside the decoder
    var flushed: bool
    var disposeCount: nat
    var remainFrames: seq<Frame>
    ghost var handedOut: nat       // frames given to the caller

    ghost predicate Valid()
      reads this
    {
      disposeCount == handedOut + |remainFrames|
    }

    // Frames the decoder still owes.
    ghost function Future(): seq<Frame>
      reads this
    {
      if flushed then [] else Output(decoder, sent, Feed(packets))
    }

    ghost function Pending(): seq<Frame>
      reads this
    {
      remainFrames + Future()
    }

    constructor (decoder: Decoder, packets: seq<Packet>)
      ensures Valid() && remainFrames == []
      ensures this.decoder == decoder && Pending() == Future() == Output(decoder, [], Feed(packets))
    {
      this.decoder, this.packets, sent, flushed, disposeCount, remainFrames, handedOut := decoder, packets, [], false, 0, [], 0;
    }

    // format_context::read
    method ReadPacket(wanted: MediaType) returns (packet: Packet)
      modifies this`packets
      ensures var s := Skip(old(packets), wanted);
              if s == [] then packet == NoPacket && packets == [] else packet == s[0] && packets == s[1..]
    {
      while packets != [] && !Matches(wanted, packets[0])
        invariant Skip(packets, wanted) == Skip(old(packets), wanted)
        decreases |packets|
      {
        packets := packets[1..];
      }
      if packets == [] {
        return NoPacket;
      }
      packet := packets[0];
      packets := packets[1..];
    }

    // codec_context::decode; sending anything after the flush is an error.
    method Decode(packet: Packet) returns (frames: seq<Frame>)
      requires !flushed
      modifies this`flushed, this`sent, this`disposeCount
      ensures flushed == Empty(packet) && sent == old(sent) + [packet]
      ensures frames == decoder(sent) && disposeCount == old(disposeCount) + |frames|
    {
      flushed := Empty(packet);
      sent := sent + [packet];
      frames := decoder(sent);
      disposeCount := disposeCount + |frames|;
    }

    // One packet through demuxer and decoder.
    method Advance() returns (packet: Packet, frames: seq<Frame>)
      requires !flushed
      modifies this`packets, this`flushed, this`sent, this`disposeCount
      ensures frames + Future() == old(Future())
      ensures disposeCount == old(disposeCount) + |frames|
      ensures flushed == Empty(packet) && (!flushed ==> |packets| < |old(packets)|)
    {
      packet := ReadPacket(Video);
      assert Feed(old(packets))[0] == packet;
      assert !Empty(packet) ==> Feed(old(packets))[1..] == Feed(packets);
      assert Empty(packet) ==> Feed(old(packets))[1..] == [];
      frames := Decode(packet);
      assert old(Future()) == frames + Output(decoder, sent, Feed(old(packets))[1..]);
    }

    // Hands out the next frame, or none when there are no more.
    method TryConsumeOnce() returns (frame: Option<Frame>)
      requires Valid()
      modifies this
      ensures Valid()
      ensures if old(Pending()) == [] then frame == None && Pending() == [] && flushed
              else frame == Some(old(Pending())[0]) && Pending() == old(Pending())[1..]
      ensures handedOut == old(handedOut) + if frame.Some? then 1 else 0
    {
      frame := None;
      if remainFrames != [] {
        frame := Some(remainFrames[0]);
        remainFrames := remainFrames[1..];
        handedOut := handedOut + 1;
      } else if !flushed {
        var frames := NextFrames();
        if |frames| > 0 {
          frame := Some(frames[0]);
          TailOfConcat(frames, Future());
          remainFrames := frames[1..];
          handedOut := handedOut + 1;
        }
      }
    }

    // The decode loop: feeds packets until frames come out or the decoder is flushed.
    method NextFrames() returns (frames: seq<Frame>)
      requires !flushed
      modifies this`packets, this`flushed, this`sent, this`disposeCount
      ensures frames + Future() == old(Future()) && (frames != [] || flushed)
      ensures disposeCount == old(disposeCount) + |frames|
    {
      var packet;
      packet, frames := Advance();
      while |frames| == 0 && !Empty(packet)
        invariant flushed == Empty(packet) && frames + Future() == old(Future())
        invariant disposeCount == old(disposeCount) + |frames|
        decreases !flushed, |packets|
      {
        AppendNothing(Future());
        packet, frames := Advance();
      }
    }

    // Hands out the frames of one packet, possibly none; fails once the decoder is flushed.
    method TryConsume() returns (r: Result<seq<Frame>, Drained>)
      requires Valid()
      modifies this
      ensures Valid() && remainFrames == old(remainFrames)
      ensures r.Err? <==> old(flushed)
      ensures r.Err? ==> Future() == old(Future()) == []
      ensures r.Ok? ==> r.value + Future() == old(Future())
      ensures r.Ok? && !flushed ==> |packets| < |old(packets)|
    {
      if flushed {
        return Err(StreamDrained);
      }
      var packet, frames := Advance();
      handedOut := handedOut + |frames|;
      return Ok(frames);
    }

    // Calling try_consume_once until it comes back empty yields every pending frame, in order.
    method DrainOnce() returns (frames: seq<Frame>)
      requires Valid()
      modifies this
      ensures Valid() && frames == old(Pending()) && Pending() == [] && flushed
    {
      frames := [];
      var frame := TryConsumeOnce();
      while frame.Some?
        invariant Valid() && (frame.None? ==> Pending() == [] && flushed)
        invariant frames + (if frame.Some? then [frame.value] else []) + Pending() == old(Pending())
        decreases frame.Some?, |Pending()|
      {
        ghost var done, before := frames + [frame.value], Pending();
        frames := frames + [frame.value];
        frame := TryConsumeOnce();
        AppendAssociates(done, if frame.Some? then [frame.value] else [], Pending());
        assert (if frame.Some? then [frame.value] else []) + Pending() == before;
      }
    }

    // Calling try_consume while the codec is available yields the same frames in batches.
    method DrainBatches() returns (batches: seq<seq<Frame>>)
      requires Valid()
      modifies this
      ensures Valid() && Concat(batches) == old(Future()) && Future() == [] && flushed
    {
      batches := [];
      while !flushed
        invariant Valid() && Concat(batches) + Future() == old(Future())
        decreases !flushed, |packets|
      {
        var r := TryConsume();
        AppendAssociates(Concat(batches), r.value, Future());
        ConcatAppend(batches, r.value);
        batches := batches + [r.value];
      }
    }

    // With decoding disabled one empty frame stands for each video packet.
    method TryDropPacket() returns (more: bool)
      requires !flushed
      modifies this`packets
      ensures more <==> |Feed(old(packets))| > 1
      ensures more ==> Feed(packets) == Feed(old(packets))[1..] && |packets| < |old(packets)|
    {
      var packet := ReadPacket(Video);
      more := !Empty(packet);
    }

    method DrainDropped() returns (count: nat)
      requires !flushed
      modifies this`packets
      ensures count == |Feed(old(packets))| - 1
    {
      count := 0;
      var more := TryDropPacket();
      while more
        invariant count + (if more then 1 + |Feed(packets)| else 1) == |Feed(old(packets))|
        decreases more, |packets|
      {
        count := count + 1;
        more := TryDropPacket();
      }
    }
  }

  lemma {:induction false} TailOfConcat(frames: seq<Frame>, rest: seq<Frame>)
    requires frames != []
    ensures (frames + rest)[0] == frames[0] && (frames + rest)[1..] == frames[1..] + rest
  {
  }

  function Concat(batches: seq<seq<Frame>>): seq<Frame> {
    if batches == [] then [] else Concat(batches[..|batches| - 1]) + batches[|batches| - 1]
  }

  lemma {:induction false} ConcatAppend(batches: seq<seq<Frame>>, batch: seq<Frame>)
    ensures Concat(batches + [batch]) == Concat(batches) + batch
  {
    assert (batches + [batch])[..|batches|] == batches;
  }

  // Both interfaces of a fresh segmentor deliver the same frames: all that the decoder yields.
  method ConsumeBothWays(decoder: Decoder, packets: seq<Packet>) returns (once: seq<Frame>, batches: seq<seq<Frame>>)
    ensures once == Concat(batches) == Output(decoder, [], Feed(packets))
  {
    var first := new Segmentor(decoder, packets);
    once := first.DrainOnce();
    var second := new Segmentor(decoder, packets);
    batches := second.DrainBatches();
  }
}
