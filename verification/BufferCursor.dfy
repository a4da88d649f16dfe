/**
  The byte cursors of multimedia/io.cursor.cpp: reading and seeking over a list of buffers is
  reading and seeking over their concatenation with a single position.
 */
module BufferCursor {
  import opened Wrappers

  type Bytes = seq<bv8>

  // AVERROR_EOF: minus the characters E, O, F and blank as the bytes of a number
  const EOF: int := -(0x45 + 0x4f * 0x100 + 0x46 * 0x1_0000 + 0x20 * 0x100_0000)
  const SEEK_SET: int := 0
  const SEEK_CUR: int := 1
  const SEEK_END: int := 2
  const AVSEEK_SIZE: int := 0x10000

  // ---------- The flat view ----------

  // The first n buffers in one piece.
  function Flat(bufs: seq<Bytes>, n: nat): Bytes
    requires n <= |bufs|
  {
    if n == 0 then [] else Flat(bufs, n - 1) + bufs[n - 1]
  }

  function All(bufs: seq<Bytes>): Bytes {
    Flat(bufs, |bufs|)
  }

  lemma {:induction false} FlatPrefix(bufs: seq<Bytes>, m: nat, n: nat)
    requires m <= n <= |bufs|
    ensures Flat(bufs, m) <= Flat(bufs, n)
  {
    if m < n { FlatPrefix(bufs, m, n - 1); }
  }

  // A piece of buffer i sits at the end of the buffers before it.
  lemma {:induction false} PieceOfFlat(bufs: seq<Bytes>, i: nat, from: nat, to: nat)
    requires i < |bufs| && from <= to <= |bufs[i]|
    ensures |Flat(bufs, i)| + |bufs[i]| == |Flat(bufs, i + 1)| <= |All(bufs)|
    ensures All(bufs)[|Flat(bufs, i)| + from..|Flat(bufs, i)| + to] == bufs[i][from..to]
  {
    FlatPrefix(bufs, i + 1, |bufs|);
    var p := |Flat(bufs, i)|;
    assert Flat(bufs, i + 1)[p + from..p + to] == bufs[i][from..to];
    assert All(bufs)[p + from..p + to] == Flat(bufs, i + 1)[p + from..p + to];
  }

  datatype Operation = Read(size: int) | Seek(offset: int, whence: int)

  datatype Reply = Data(bytes: Bytes) | EndOfFile | At(position: int) | NoSuchWhence

  function Min(a: int, b: int): int {
    if a < b then a else b
  }

  // How many bytes a read delivers.
  function ReadCount(flat: Bytes, position: nat, size: int): (n: nat)
    requires position <= |flat|
    ensures position + n <= |flat|
  {
    if size <= 0 then 0 else Min(size, |flat| - position)
  }

  // Where a seek wants to go, if the whence names a place at all.
  function SeekTarget(flat: Bytes, position: int, offset: int, whence: int): Option<int> {
    if whence == SEEK_SET then Some(offset)
    else if whence == SEEK_END then Some(offset + |flat|)
    else if whence == SEEK_CUR then Some(offset + position)
    else None
  }

  predicate Legal(flat: Bytes, position: nat, op: Operation) {
    op.Seek? ==> var target := SeekTarget(flat, position, op.offset, op.whence); target.Some? ==> target.value >= 0
  }

  // One operation on a flat array and a position.
  function FlatStep(flat: Bytes, position: nat, op: Operation): (r: (nat, Reply))
    requires position <= |flat| && Legal(flat, position, op)
    ensures r.0 <= |flat|
  {
    match op
    case Read(size) =>
      if position == |flat| then (position, EndOfFile)
      else
        var n := ReadCount(flat, position, size);
        (position + n, Data(flat[position..position + n]))
    case Seek(offset, whence) =>
      match SeekTarget(flat, position, offset, whence)
      case None => (position, if whence == AVSEEK_SIZE then At(-1) else NoSuchWhence)
      case Some(target) => var p := Min(target, |flat|); (p, At(p))
  }

  /**
    What the three origins mean: a seek from the current position or from the end is a seek from
    the start to that place, which is reached if it lies inside and else replaced by the end;
    seeking by nothing stays, seeking to the end leaves nothing to read, and any other origin
    leaves the position alone.
   */
  lemma {:induction false} SeekMeans(flat: Bytes, position: nat, offset: int, whence: int, size: int)
    requires position <= |flat|
    ensures offset >= 0 ==>
              FlatStep(flat, position, Operation.Seek(offset, 0)) ==
              if offset <= |flat| then (offset, At(offset)) else (|flat|, At(|flat|))
    ensures position + offset >= 0 ==>
              FlatStep(flat, position, Operation.Seek(offset, 1)) == FlatStep(flat, position, Operation.Seek(position + offset, 0))
    ensures |flat| + offset >= 0 ==>
              FlatStep(flat, position, Operation.Seek(offset, 2)) == FlatStep(flat, position, Operation.Seek(|flat| + offset, 0))
    ensures FlatStep(flat, position, Operation.Seek(0, 1)) == (position, At(position))
    ensures FlatStep(flat, FlatStep(flat, position, Operation.Seek(0, 2)).0, Operation.Read(size)) == (|flat|, EndOfFile)
    ensures whence !in {0, 1, 2} ==>
              FlatStep(flat, position, Operation.Seek(offset, whence)) == (position, if whence == 0x10000 then At(-1) else NoSuchWhence)
  {
  }

  ghost predicate LegalRun(flat: Bytes, position: nat, ops: seq<Operation>)
    requires position <= |flat|
    decreases |ops|
  {
    ops != [] ==> Legal(flat, position, ops[0]) && LegalRun(flat, FlatStep(flat, position, ops[0]).0, ops[1..])
  }

  // The replies of a whole sequence of operations, and the final position.
  function FlatRun(flat: Bytes, position: nat, ops: seq<Operation>): (r: (nat, seq<Reply>))
    requires position <= |flat| && LegalRun(flat, position, ops)
    ensures r.0 <= |flat| && |r.1| == |ops|
    decreases |ops|
  {
    if ops == [] then (position, [])
    else
      var (p, reply) := FlatStep(flat, position, ops[0]);
      var (end, replies) := FlatRun(flat, p, ops[1..]);
      (end, [reply] + replies)
  }

  // ---------- Reading without seeking delivers everything once ----------

  function Delivered(replies: seq<Reply>): Bytes {
    if replies == [] then []
    else (if replies[0].Data? then replies[0].bytes else []) + Delivered(replies[1..])
  }

  function Requested(ops: seq<Operation>): nat {
    if ops == [] then 0
    else (if ops[0].Read? && ops[0].size > 0 then ops[0].size else 0) + Requested(ops[1..])
  }

  // One read delivers the bytes up to where it leaves the position.
  lemma {:induction false} ReadDelivers(flat: Bytes, position: nat, op: Operation)
    requires position <= |flat| && op.Read?
    ensures var (p, reply) := FlatStep(flat, position, op);
            && p == Min(position + (if op.size > 0 then op.size else 0), |flat|) && position <= p
            && (if reply.Data? then reply.bytes else []) == flat[position..p]
  {
  }

  lemma {:induction false} DeliveredStep(reply: Reply, replies: seq<Reply>)
    ensures Delivered([reply] + replies) == (if reply.Data? then reply.bytes else []) + Delivered(replies)
  {
    assert ([reply] + replies)[1..] == replies;
  }

  // Any sequence of reads delivers consecutive bytes, as many as asked for until none is left.
  lemma {:induction false} ReadsDeliverInOrder(flat: Bytes, position: nat, ops: seq<Operation>)
    requires position <= |flat| && forall op :: op in ops ==> op.Read?
    ensures LegalRun(flat, position, ops)
    ensures var (end, replies) := FlatRun(flat, position, ops);
            && end == Min(position + Requested(ops), |flat|)
            && Delivered(replies) == flat[position..end]
    decreases |ops|
  {
    hide FlatStep, Delivered;
    if ops == [] {
      assert Delivered([]) == [] by { NothingDelivered(); }
    } else {
      assert ops[0] in ops;
      ReadDelivers(flat, position, ops[0]);
      var (p, reply) := FlatStep(flat, position, ops[0]);
      ReadsDeliverInOrder(flat, p, ops[1..]);
      var (end, replies) := FlatRun(flat, p, ops[1..]);
      DeliveredStep(reply, replies);
      assert flat[position..p] + flat[p..end] == flat[position..end];
    }
  }

  lemma {:induction false} NothingDelivered()
    ensures Delivered([]) == []
  {
  }

  // ---------- The copying loop both cursors run ----------

  // A buffer index and an offset within that buffer.
  ghost predicate Placed(bufs: seq<Bytes>, current: nat, offset: int) {
    && (forall i :: 0 <= i < |bufs| ==> bufs[i] != [])
    && current <= |bufs|
    && 0 <= offset
    && (if current < |bufs| then offset < |bufs[current]| else offset == 0)
  }

  lemma {:induction false} PlaceInRange(bufs: seq<Bytes>, current: nat, offset: int)
    requires Placed(bufs, current, offset)
    ensures |Flat(bufs, current)| + offset <= |All(bufs)|
    ensures |Flat(bufs, current)| + offset == |All(bufs)| <==> current == |bufs|
  {
    if current < |bufs| { PieceOfFlat(bufs, current, 0, 0); }
  }

  // A destination buffer whose first n bytes have been read from the given position.
  function Fill(was: Bytes, flat: Bytes, start: nat, n: nat): Bytes
    requires start + n <= |flat| && n <= |was|
  {
    flat[start..start + n] + was[n..]
  }

  function Splice(was: Bytes, at: nat, bytes: Bytes): Bytes
    requires at + |bytes| <= |was|
  {
    was[..at] + bytes + was[at + |bytes|..]
  }

  lemma {:induction false} FillStep(was: Bytes, flat: Bytes, start: nat, n: nat, more: nat)
    requires start + n + more <= |flat| && n + more <= |was|
    ensures Splice(Fill(was, flat, start, n), n, flat[start + n..start + n + more]) == Fill(was, flat, start, n + more)
  {
  }

  lemma {:induction false} FillNone(was: Bytes, flat: Bytes, start: nat)
    requires start <= |flat|
    ensures Fill(was, flat, start, 0) == was
  {
  }

  // std::copy_n
  method CopyInto(buffer: array<bv8>, at: nat, bytes: Bytes)
    requires at + |bytes| <= buffer.Length
    modifies buffer
    ensures buffer[..] == Splice(old(buffer[..]), at, bytes)
  {
    forall k | 0 <= k < |bytes| { buffer[at + k] := bytes[k]; }
  }

  // One pass of the loop: copies what the current buffer still has to offer.
  method ReadBlock(bufs: seq<Bytes>, current: nat, offset: nat, buffer: array<bv8>, at: nat, expectSize: int,
                   ghost was: Bytes, ghost start: nat)
    returns (increment: nat, next: nat, nextOffset: nat)
    requires Placed(bufs, current, offset) && current < |bufs| && at < expectSize <= buffer.Length == |was|
    requires start + at == |Flat(bufs, current)| + offset <= |All(bufs)|
    requires buffer[..] == Fill(was, All(bufs), start, at)
    modifies buffer
    ensures Placed(bufs, next, nextOffset) && increment > 0 && at + increment <= expectSize
    ensures next >= current && (at + increment < expectSize ==> next > current)
    ensures start + at + increment == |Flat(bufs, next)| + nextOffset <= |All(bufs)|
    ensures buffer[..] == Fill(was, All(bufs), start, at + increment)
  {
    hide Flat, All, Fill, Splice;
    var block := bufs[current];
    increment := Min(expectSize - at, |block| - offset);
    PieceOfFlat(bufs, current, offset, offset + increment);
    var bytes := block[offset..offset + increment];
    assert bytes == All(bufs)[start + at..start + at + increment];
    FillStep(was, All(bufs), start, at, increment);
    CopyInto(buffer, at, bytes);
    next, nextOffset := current, offset + increment;
    if nextOffset == |block| {
      next, nextOffset := current + 1, 0;
    }
  }

  method ReadBlocks(bufs: seq<Bytes>, current: nat, offset: nat, buffer: array<bv8>, expectSize: int)
    returns (readSize: nat, next: nat, nextOffset: nat)
    requires Placed(bufs, current, offset) && expectSize <= buffer.Length
    modifies buffer
    ensures Placed(bufs, next, nextOffset)
    ensures var p := |Flat(bufs, current)| + offset;
            && p + readSize == |Flat(bufs, next)| + nextOffset <= |All(bufs)|
            && readSize == ReadCount(All(bufs), p, expectSize) <= buffer.Length
            && buffer[..] == Fill(old(buffer[..]), All(bufs), p, readSize)
  {
    hide Flat, All, Fill;
    ghost var start, was := |Flat(bufs, current)| + offset, buffer[..];
    PlaceInRange(bufs, current, offset);
    FillNone(was, All(bufs), start);
    readSize, next, nextOffset := 0, current, offset;
    while next != |bufs| && readSize < expectSize
      invariant readSize <= buffer.Length && (readSize <= expectSize || readSize == 0)
      invariant Placed(bufs, next, nextOffset) && start + readSize == |Flat(bufs, next)| + nextOffset <= |All(bufs)|
      invariant buffer[..] == Fill(was, All(bufs), start, readSize)
      decreases |bufs| - next, expectSize - readSize
    {
      var increment;
      increment, next, nextOffset := ReadBlock(bufs, next, nextOffset, buffer, readSize, expectSize, was, start);
      readSize := readSize + increment;
    }
    PlaceInRange(bufs, next, nextOffset);
  }

  // What a read hands back: the count, and the bytes at the front of the destination.
  ghost predicate Answers(reply: Reply, count: int, was: Bytes, now: Bytes) {
    && (reply.EndOfFile? ==> count == EOF && now == was)
    && (reply.Data? ==> count == |reply.bytes| <= |was| && now == reply.bytes + was[count..])
  }

  // ---------- buffer_list_cursor ----------

  class BufferListCursor {
    const bufferList: seq<Bytes>
    var current: nat        // index of the block buffer, |bufferList| at the end
    var offset: int          // within that buffer
    var fullReadSize: int
    var fullOffset: int
    var fullSize: int
    var eof: bool

    ghost predicate Sized()
      reads this
    {
      fullSize == |All(bufferList)|
    }

    ghost predicate Valid()
      reads this
    {
      Sized() && Placed(bufferList, current, offset) && fullOffset == |Flat(bufferList, current)| + offset
    }

    // The whole state a caller can observe.
    ghost function Position(): (p: nat)
      requires Valid()
      reads this
      ensures p <= |All(bufferList)|
      ensures p == |All(bufferList)| <==> current == |bufferList|
    {
      PlaceInRange(bufferList, current, offset);
      fullOffset
    }

    constructor (buffers: seq<Bytes>)
      requires forall i :: 0 <= i < |buffers| ==> buffers[i] != []
      ensures Valid() && bufferList == buffers && Position() == 0
    {
      bufferList, current, offset, fullReadSize, fullOffset, eof := buffers, 0, 0, 0, 0, false;
      fullSize := 0;
      new;
      for i := 0 to |buffers|
        invariant fullSize == |Flat(buffers, i)|
        invariant current == 0 && offset == 0 && fullOffset == 0 && bufferList == buffers
      {
        fullSize := fullSize + |buffers[i]|;
      }
    }

    method Read(buffer: array<bv8>, expectSize: int) returns (count: int)
      requires Valid() && expectSize <= buffer.Length
      modifies this, buffer
      ensures Valid()
      ensures var (p, reply) := FlatStep(All(bufferList), old(Position()), Operation.Read(expectSize));
              && Position() == p
              && Answers(reply, count, old(buffer[..]), buffer[..])
              && fullReadSize == old(fullReadSize) + if reply.Data? then count else 0
    {
      hide Flat, All;
      PlaceInRange(bufferList, current, offset);
      if current == |bufferList| {
        return EOF;
      }
      count, current, offset := ReadBlocks(bufferList, current, offset, buffer, expectSize);
      if current == |bufferList| {
        eof := true;
      }
      fullOffset := fullOffset + count;
      fullReadSize := fullReadSize + count;
    }

    /**
      Repositions the cursor.  The source computes with whatever target results; the cursor is
      in order afterwards exactly when that target is not negative.
     */
    method Seek(seekOffset: int, whence: int) returns (r: Result<int, ()>)
      requires Valid()
      modifies this
      ensures Sized() && fullReadSize == old(fullReadSize)
      ensures Valid() <==> Legal(All(bufferList), old(Position()), Operation.Seek(seekOffset, whence))
      ensures Valid() ==>
                var (p, reply) := FlatStep(All(bufferList), old(Position()), Operation.Seek(seekOffset, whence));
                Position() == p && r == if reply.At? then Ok(reply.position) else Err(())
    {
      PlaceInRange(bufferList, current, offset);
      var target := seekOffset;
      if whence == SEEK_SET {
      } else if whence == SEEK_END {
        target := target + fullSize;
      } else if whence == SEEK_CUR {
        target := target + fullOffset;
      } else if whence == AVSEEK_SIZE {
        return Ok(-1);
      } else {
        return Err(());
      }
      if target >= fullSize {
        current, fullOffset, offset := |bufferList|, fullSize, 0;
        return Ok(fullSize);
      }
      var partialSum := 0;
      current := 0;
      while current < |bufferList| && partialSum + |bufferList[current]| <= target
        invariant current <= |bufferList| && partialSum == |Flat(bufferList, current)|
        invariant Sized() && fullReadSize == old(fullReadSize)
        invariant partialSum <= target || (current == 0 && partialSum == 0)
      {
        partialSum := partialSum + |bufferList[current]|;
        current := current + 1;
      }
      fullOffset := target;
      offset := target - partialSum;
      return Ok(target);
    }

    method Available() returns (r: bool)
      requires Valid()
      ensures r <==> Position() < |All(bufferList)|
    {
      PlaceInRange(bufferList, current, offset);
      return current != |bufferList|;
    }

    method ConsumeAndRemain() returns (consumed: int, remaining: int)
      requires Valid()
      ensures consumed == Position() && consumed + remaining == |All(bufferList)| && remaining >= 0
    {
      PlaceInRange(bufferList, current, offset);
      return fullOffset, fullSize - fullOffset;
    }

    // Any sequence of reads and seeks answers as the flat array does.
    method Run(ops: seq<Operation>) returns (replies: seq<Reply>)
      requires Valid() && LegalRun(All(bufferList), Position(), ops)
      modifies this
      ensures Valid()
      ensures (Position(), replies) == FlatRun(All(bufferList), old(Position()), ops)
      decreases |ops|
    {
      if ops == [] {
        return [];
      }
      var reply;
      match ops[0] {
        case Read(size) =>
          var buffer := new bv8[if size < 0 then 0 else size];
          var count := Read(buffer, size);
          reply := if count == EOF then EndOfFile else Data(buffer[..count]);
        case Seek(offset, whence) =>
          var r := Seek(offset, whence);
          reply := if r.Ok? then At(r.value) else NoSuchWhence;
      }
      var rest := Run(ops[1..]);
      return [reply] + rest;
    }
  }

  // ---------- random_access_cursor, reads only ----------

  class RandomAccessCursor {
    const buffers: seq<Bytes>
    var current: nat
    var bufferOffset: int
    var sequenceOffset: int

    ghost predicate Valid()
      reads this
    {
      Placed(buffers, current, bufferOffset) && sequenceOffset == |Flat(buffers, current)| + bufferOffset
    }

    constructor (buffers: seq<Bytes>)
      requires forall i :: 0 <= i < |buffers| ==> buffers[i] != []
      ensures Valid() && this.buffers == buffers && sequenceOffset == 0
    {
      this.buffers, current, bufferOffset, sequenceOffset := buffers, 0, 0, 0;
    }

    // The same replies as a buffer list cursor at the same position gives.
    method Read(buffer: array<bv8>, expectSize: int) returns (count: int)
      requires Valid() && expectSize <= buffer.Length
      requires 0 <= sequenceOffset <= |All(buffers)|
      modifies this, buffer
      ensures Valid()
      ensures var (p, reply) := FlatStep(All(buffers), old(sequenceOffset), Operation.Read(expectSize));
              && sequenceOffset == p
              && Answers(reply, count, old(buffer[..]), buffer[..])
    {
      PlaceInRange(buffers, current, bufferOffset);
      if current == |buffers| {
        return EOF;
      }
      count, current, bufferOffset := ReadBlocks(buffers, current, bufferOffset, buffer, expectSize);
      sequenceOffset := sequenceOffset + count;
    }
  }

  // One byte before the start is enough to put a cursor out of order.
  method SeekBeforeStart() returns (cursor: BufferListCursor)
    ensures fresh(cursor) && !cursor.Valid()
  {
    cursor := new BufferListCursor([[0]]);
    var _ := cursor.Seek(-1, SEEK_SET);
  }
}
