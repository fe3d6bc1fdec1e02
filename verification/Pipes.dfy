/** Pipes: a queue of bytes shared by the two ends. */
module Pipes {
  import opened Common
  import opened Bytes
  import opened DataFiles

  /** The queue, with all bytes that ever went in and came out. */
  class PipeData {
    var queue: seq<Byte>
    ghost var written: seq<Byte>
    ghost var taken: seq<Byte>

    /** What came out, followed by what is queued, is what went in. */
    ghost predicate Valid()
      reads this
    {
      written == taken + queue
    }

    constructor ()
      ensures Valid() && queue == [] && written == [] && taken == []
    {
      queue, written, taken := [], [], [];
    }
  }

  /** One end of a pipe. Offsets mean nothing to it. */
  class PipeFile {
    const data: PipeData

    constructor (data: PipeData)
      ensures this.data == data
    {
      this.data := data;
    }

    method Write(buf: seq<Byte>) returns (n: nat)
      requires data.Valid()
      modifies data
      ensures data.Valid() && n == |buf|
      ensures data.queue == old(data.queue) + buf && data.written == old(data.written) + buf
      ensures data.taken == old(data.taken)
    {
      var i := 0;
      while i < |buf|
        invariant i <= |buf| && data.Valid() && data.taken == old(data.taken)
        invariant data.queue == old(data.queue) + buf[..i] && data.written == old(data.written) + buf[..i]
      {
        data.queue := data.queue + [buf[i]];
        data.written := data.written + [buf[i]];
        i := i + 1;
      }
      return |buf|;
    }

    /** Pops bytes until the buffer is full or the queue is empty. */
    method Read(len: nat) returns (buf: seq<Byte>)
      requires data.Valid()
      modifies data
      ensures data.Valid() && data.written == old(data.written)
      ensures buf + data.queue == old(data.queue) && data.taken == old(data.taken) + buf
      ensures |buf| <= len && (|buf| < len <==> |old(data.queue)| < len)
      ensures |buf| < len ==> data.queue == []
    {
      buf := [];
      while |buf| < len && data.queue != []
        invariant |buf| <= len && data.Valid() && data.written == old(data.written)
        invariant buf + data.queue == old(data.queue) && data.taken == old(data.taken) + buf
        decreases |data.queue|
      {
        buf := buf + [data.queue[0]];
        data.taken := data.taken + [data.queue[0]];
        data.queue := data.queue[1..];
      }
    }

    /** The loop of `writeAtOffset` over a pipe: iovecs go in until one is a null pointer with a length. */
    method WriteVectors(iovs: seq<Ciovec>) returns (r: Result<nat>)
      requires data.Valid()
      modifies data
      ensures data.Valid() && data.taken == old(data.taken)
      ensures var good := iovs[..FirstNull(iovs)];
        && data.queue == old(data.queue) + Concat(good) && data.written == old(data.written) + Concat(good)
        && r == if FirstNull(iovs) < |iovs| then Err(EINVAL) else Ok(|Concat(iovs)|)
    {
      var bytesWritten, i := 0, 0;
      assert iovs[..0] == [];
      while i < |iovs|
        invariant 0 <= i <= FirstNull(iovs) && data.Valid() && data.taken == old(data.taken)
        invariant data.queue == old(data.queue) + Concat(iovs[..i]) && bytesWritten == |Concat(iovs[..i])|
        invariant data.written == old(data.written) + Concat(iovs[..i])
      {
        FirstNullIsFirst(iovs, i);
        if iovs[i].NullBuf? && iovs[i].len > 0 {
          return Err(EINVAL);
        }
        var result := Write(DataOf(iovs[i]));
        bytesWritten := bytesWritten + result;
        ConcatSnoc(iovs[..i], iovs[i]);
        assert iovs[..i + 1] == iovs[..i] + [iovs[i]];
        i := i + 1;
      }
      assert iovs[..|iovs|] == iovs;
      return Ok(bytesWritten);
    }

    /** One `read` of the loop below: the buffer is filled, or the queue ends in it. */
    method ReadNext(iovs: seq<Iovec>, i: nat, ghost whole: seq<Byte>, bytesRead: nat, ghost pieces: seq<seq<Byte>>)
      returns (buf: seq<Byte>)
      requires data.Valid() && i < |iovs| && !NullAt(iovs, i) && FullSoFar(whole, iovs, i, 0, bytesRead, pieces)
      requires bytesRead <= |whole| && data.queue == whole[bytesRead..]
      modifies data
      ensures data.Valid() && data.written == old(data.written) && data.taken == old(data.taken) + buf
      ensures |buf| <= iovs[i].len && bytesRead + |buf| <= |whole| && data.queue == whole[bytesRead + |buf|..]
      ensures Flatten(pieces + [buf]) == Flatten(pieces) + buf
      ensures |buf| == iovs[i].len ==> FullSoFar(whole, iovs, i + 1, 0, bytesRead + |buf|, pieces + [buf])
      ensures |buf| < iovs[i].len ==> AllRead(whole, iovs, 0, bytesRead + |buf|, pieces + [buf])
    {
      buf := Read(iovs[i].len);
      PoppedIs(whole, bytesRead, buf, data.queue, iovs[i].len);
      FlattenSnoc(pieces, buf);
      NextPiece(whole, iovs, i, 0, bytesRead, pieces, buf);
    }

    /** The loop of `readAtOffset` over a pipe. On EINVAL the bytes already taken are gone from the queue. */
    method ReadVectors(iovs: seq<Iovec>) returns (r: Result<nat>, pieces: seq<seq<Byte>>)
      requires data.Valid()
      modifies data
      ensures data.Valid() && data.written == old(data.written)
      ensures data.taken == old(data.taken) + Flatten(pieces) && FillsInOrder(pieces, iovs)
      ensures r.Err? <==> MeetsNull(iovs, |old(data.queue)|)
      ensures r.Err? ==> r.error == EINVAL
      ensures r.Ok? ==> r.value == |Flatten(pieces)|
      ensures r.Ok? ==> Flatten(pieces) == ReadOne(old(data.queue), Room(iovs), 0)
    {
      pieces := [];
      var i, bytesRead := 0, 0;
      while i < |iovs|
        invariant 0 <= i <= |iovs| && 0 <= bytesRead && data.Valid() && data.written == old(data.written)
        invariant data.taken == old(data.taken) + Flatten(pieces)
        invariant FullSoFar(old(data.queue), iovs, i, 0, bytesRead, pieces)
        invariant bytesRead <= |old(data.queue)| && data.queue == old(data.queue)[bytesRead..]
      {
        if iovs[i].isNull && iovs[i].len > 0 {
          assert NullAt(iovs, i);
          return Err(EINVAL), pieces;
        }
        var buf := ReadNext(iovs, i, old(data.queue), bytesRead, pieces);
        pieces := pieces + [buf];
        bytesRead := bytesRead + |buf|;
        if |buf| < iovs[i].len {
          return Ok(bytesRead), pieces;
        }
        i := i + 1;
      }
      AllFull(old(data.queue), iovs, 0, bytesRead, pieces);
      return Ok(bytesRead), pieces;
    }
  }

  /** What is popped from the front of a queue is what a read at that point of its contents gives. */
  lemma PoppedIs(whole: seq<Byte>, taken: nat, buf: seq<Byte>, rest: seq<Byte>, len: nat)
    requires taken <= |whole| && buf + rest == whole[taken..] && |buf| <= len && (|buf| < len ==> rest == [])
    ensures buf == ReadOne(whole, len, taken) && rest == whole[taken + |buf|..]
  {
    assert buf == (buf + rest)[..|buf|] && rest == (buf + rest)[|buf|..];
  }

  // ---------- runs ----------

  /** A call on either end of a pipe. */
  datatype PipeCall = Push(bytes: seq<Byte>) | Pop(len: nat)

  /** A run: what is queued at the end, what went in and what came out. */
  datatype PipeRun = PipeRun(queue: seq<Byte>, pushed: seq<Byte>, popped: seq<Byte>)

  /** The queue after a run of calls, the bytes pushed and the bytes popped. */
  function RunPipe(queue: seq<Byte>, calls: seq<PipeCall>): PipeRun
    decreases calls
  {
    if calls == [] then PipeRun(queue, [], [])
    else match calls[0]
      case Push(bytes) =>
        var r := RunPipe(queue + bytes, calls[1..]); r.(pushed := bytes + r.pushed)
      case Pop(len) =>
        var piece := ReadOne(queue, len, 0);
        var r := RunPipe(queue[|piece|..], calls[1..]); r.(popped := piece + r.popped)
  }

  /** First in, first out: what came out followed by what is queued is what was there followed by what went in. */
  lemma {:induction false} FirstInFirstOut(queue: seq<Byte>, calls: seq<PipeCall>)
    ensures var r := RunPipe(queue, calls); r.popped + r.queue == queue + r.pushed
    decreases calls
  {
    if calls != [] {
      match calls[0]
      case Push(bytes) =>
        FirstInFirstOut(queue + bytes, calls[1..]);
      case Pop(len) =>
        var piece := ReadOne(queue, len, 0);
        FirstInFirstOut(queue[|piece|..], calls[1..]);
        var rest := RunPipe(queue[|piece|..], calls[1..]);
        assert queue == piece + queue[|piece|..];
        assert (piece + rest.popped) + rest.queue == piece + (rest.popped + rest.queue);
        assert (piece + queue[|piece|..]) + rest.pushed == piece + (queue[|piece|..] + rest.pushed);
    }
  }
}
