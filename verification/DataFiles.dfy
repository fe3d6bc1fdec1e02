/** Data files and open descriptions as objects, and the loops of vectored I/O over them. */
module DataFiles {
  import opened Common
  import opened Bytes

  /** `MemoryDataFile`. */
  class MemoryDataFile {
    var buffer: seq<Byte>
    const maxSize: nat

    ghost predicate Valid()
      reads this
    {
      |buffer| <= maxSize
    }

    constructor (maxSize: nat)
      ensures Valid() && buffer == [] && this.maxSize == maxSize
    {
      buffer := [];
      this.maxSize := maxSize;
    }

    method Write(data: seq<Byte>, offset: nat) returns (r: Result<nat>)
      requires Valid()
      modifies this
      ensures Valid()
      ensures match WriteOne(old(buffer), data, offset, maxSize)
        case None => r == Err(EIO) && buffer == old(buffer)
        case Some(c) => r == Ok(|data|) && buffer == c
    {
      if offset + |data| > |buffer| {
        if offset + |data| > maxSize {
          return Err(EIO);
        }
        buffer := Resize(buffer, offset + |data|);
      }
      buffer := buffer[..offset] + data + buffer[offset + |data|..];
      SameOverlay(old(buffer), data, offset, buffer, Overlay(old(buffer), data, offset));
      return Ok(|data|);
    }

    /** The bytes that `read` copies into a buffer of this length. */
    method Read(length: nat, offset: nat) returns (data: seq<Byte>)
      ensures data == ReadOne(buffer, length, offset)
    {
      var n := length;
      if offset >= |buffer| {
        n := 0;
      } else if offset + n >= |buffer| {
        n := |buffer| - offset;
      }
      return if n == 0 then [] else buffer[offset..offset + n];
    }

    method ResizeTo(size: nat)
      requires Valid() && size <= maxSize
      modifies this
      ensures Valid() && buffer == Resize(old(buffer), size)
    {
      buffer := Resize(buffer, size);
    }

    /** `fallocate`: the file never shrinks and keeps every byte it had. */
    method Fallocate(offset: int, length: int, canWrite: bool) returns (r: Result<()>)
      requires Valid() && (canWrite && offset >= 0 && length > 0 ==> offset + length <= maxSize)
      modifies this
      ensures Valid() && old(buffer) <= buffer
      ensures r.Ok? <==> canWrite && offset >= 0 && length > 0
      ensures r.Ok? ==>
        buffer == if offset + length > |old(buffer)| then Resize(old(buffer), offset + length) else old(buffer)
      ensures r.Err? ==> buffer == old(buffer) && r.error == (if !canWrite then EBADF else EINVAL)
    {
      if !canWrite {
        return Err(EBADF);
      }
      if offset < 0 || length <= 0 {
        return Err(EINVAL);
      }
      if offset + length > |buffer| {
        buffer := Resize(buffer, offset + length);
      }
      return Ok(());
    }

    /** `doTruncate` on a data file. */
    method Truncate(size: int, canWrite: bool) returns (r: Result<()>)
      requires Valid() && (canWrite && size >= 0 ==> size <= maxSize)
      modifies this
      ensures Valid()
      ensures r == if !canWrite then Err(EACCES) else if size < 0 then Err(EINVAL) else Ok(())
      ensures buffer == if r.Ok? then Resize(old(buffer), size) else old(buffer)
    {
      if !canWrite {
        return Err(EACCES);
      }
      if size < 0 {
        return Err(EINVAL);
      }
      ResizeTo(size);
      return Ok(());
    }
  }

  /** The open file state of a data file: its own position and append flag over a shared file. */
  class Description {
    const file: MemoryDataFile
    var position: nat
    var append: bool

    constructor (file: MemoryDataFile, append: bool)
      ensures this.file == file && position == 0 && this.append == append
    {
      this.file, this.position, this.append := file, 0, append;
    }

    /** `writeAtOffset`; `at` is the offset of pwrite, `None` for write. */
    method WriteAtOffset(at: Option<nat>, iovs: seq<Ciovec>) returns (r: Result<nat>)
      requires file.Valid()
      modifies this`position, file
      ensures file.Valid()
      ensures var c := old(file.buffer);
        var off := match at case Some(o) => o case None => if append then |c| else old(position);
        && (file.buffer, r) == WriteLoop(c, iovs, off, file.maxSize, 0)
        && position == (if at.Some? then old(position)
                        else if r.Ok? then off + r.value
                        else if append then |c| else old(position))
    {
      var offset;
      match at {
        case Some(o) =>
          offset := o;
        case None =>
          if append {
            offset := |file.buffer|;
            position := offset;
          } else {
            offset := position;
          }
      }
      r := WriteVectors(iovs, offset);
      if at.None? && r.Ok? {
        position := offset + r.value;
      }
    }

    /** The loop of `writeAtOffset`. */
    method WriteVectors(iovs: seq<Ciovec>, offset: nat) returns (r: Result<nat>)
      requires file.Valid()
      modifies file
      ensures file.Valid() && (file.buffer, r) == WriteLoop(old(file.buffer), iovs, offset, file.maxSize, 0)
    {
      var bytesWritten, i := 0, 0;
      while i < |iovs|
        invariant 0 <= i <= |iovs| && file.Valid()
        invariant WriteLoop(file.buffer, iovs[i..], offset, file.maxSize, bytesWritten) ==
                  WriteLoop(old(file.buffer), iovs, offset, file.maxSize, 0)
      {
        if iovs[i].NullBuf? && iovs[i].len > 0 {
          return Err(EINVAL);
        }
        var result := file.Write(DataOf(iovs[i]), offset + bytesWritten);
        if result.Err? {
          if bytesWritten > 0 {
            break;
          }
          return Err(result.error);
        }
        bytesWritten := bytesWritten + result.value;
        assert iovs[i..][1..] == iovs[i + 1..];
        i := i + 1;
      }
      return Ok(bytesWritten);
    }

    /** `readAtOffset`; `at` is the offset of pread, `None` for read. The result lists what went into each buffer. */
    method ReadAtOffset(at: Option<nat>, iovs: seq<Iovec>) returns (r: Result<seq<seq<Byte>>>)
      modifies this`position
      ensures var off := match at case Some(o) => o case None => old(position);
        && (r.Err? <==> MeetsNull(iovs, Available(file.buffer, off))) && (r.Err? ==> r.error == EINVAL)
        && (r.Ok? ==> FillsInOrder(r.value, iovs))
        && (r.Ok? ==> Flatten(r.value) == ReadOne(file.buffer, Room(iovs), off))
        && position == if at.None? && r.Ok? then off + |Flatten(r.value)| else old(position)
    {
      var offset := match at case Some(o) => o case None => position;
      var bytesRead;
      r, bytesRead := ReadVectors(iovs, offset);
      if at.None? && r.Ok? {
        position := offset + bytesRead;
      }
    }

    /** The loop of `readAtOffset`. */
    method ReadVectors(iovs: seq<Iovec>, offset: nat) returns (r: Result<seq<seq<Byte>>>, bytesRead: nat)
      ensures r.Err? <==> MeetsNull(iovs, Available(file.buffer, offset))
      ensures r.Err? ==> r.error == EINVAL
      ensures r.Ok? ==> FillsInOrder(r.value, iovs) && bytesRead == |Flatten(r.value)|
      ensures r.Ok? ==> Flatten(r.value) == ReadOne(file.buffer, Room(iovs), offset)
    {
      var pieces, i := [], 0;
      bytesRead := 0;
      while i < |iovs|
        invariant 0 <= i <= |iovs| && FullSoFar(file.buffer, iovs, i, offset, bytesRead, pieces)
      {
        if iovs[i].isNull && iovs[i].len > 0 {
          assert NullAt(iovs, i);
          return Err(EINVAL), bytesRead;
        }
        var result := file.Read(iovs[i].len, offset + bytesRead);
        NextPiece(file.buffer, iovs, i, offset, bytesRead, pieces, result);
        pieces := pieces + [result];
        bytesRead := bytesRead + |result|;
        if |result| < iovs[i].len {
          return Ok(pieces), bytesRead;
        }
        i := i + 1;
      }
      AllFull(file.buffer, iovs, offset, bytesRead, pieces);
      return Ok(pieces), bytesRead;
    }
  }

  /** The first `i` buffers are full and hold the bytes of `c` from `offset` on. */
  ghost predicate FullSoFar(c: seq<Byte>, iovs: seq<Iovec>, i: nat, offset: nat, bytesRead: nat, pieces: seq<seq<Byte>>)
    requires i <= |iovs|
  {
    && |pieces| == i
    && bytesRead == Start(iovs, i) <= Available(c, offset)
    && (forall k | 0 <= k < i :: |pieces[k]| == iovs[k].len && !NullAt(iovs, k))
    && Flatten(pieces) == ReadOne(c, bytesRead, offset)
  }

  /** The reading is over: the buffers were filled in order with what one read of the whole room gives. */
  ghost predicate AllRead(c: seq<Byte>, iovs: seq<Iovec>, offset: nat, bytesRead: nat, pieces: seq<seq<Byte>>) {
    && !MeetsNull(iovs, Available(c, offset))
    && FillsInOrder(pieces, iovs) && bytesRead == |Flatten(pieces)|
    && Flatten(pieces) == ReadOne(c, Room(iovs), offset)
  }

  lemma AllFull(c: seq<Byte>, iovs: seq<Iovec>, offset: nat, bytesRead: nat, pieces: seq<seq<Byte>>)
    requires FullSoFar(c, iovs, |iovs|, offset, bytesRead, pieces)
    ensures AllRead(c, iovs, offset, bytesRead, pieces)
  {
    assert iovs[..|iovs|] == iovs;
  }

  /** One `read` of the loop: the buffer is filled, or the file ends in it. */
  lemma NextPiece(c: seq<Byte>, iovs: seq<Iovec>, i: nat, offset: nat, bytesRead: nat, pieces: seq<seq<Byte>>,
                  piece: seq<Byte>)
    requires i < |iovs| && !NullAt(iovs, i) && FullSoFar(c, iovs, i, offset, bytesRead, pieces)
    requires piece == ReadOne(c, iovs[i].len, offset + bytesRead)
    ensures |piece| <= iovs[i].len
    ensures |piece| == iovs[i].len ==> FullSoFar(c, iovs, i + 1, offset, bytesRead + |piece|, pieces + [piece])
    ensures |piece| < iovs[i].len ==> AllRead(c, iovs, offset, bytesRead + |piece|, pieces + [piece])
  {
    FlattenSnoc(pieces, piece);
    ReadStep(iovs, i, c, offset, bytesRead);
    if |piece| < iovs[i].len {
      NoNullAhead(iovs, i, Available(c, offset));
    }
  }

  function Flatten(pieces: seq<seq<Byte>>): seq<Byte> {
    if pieces == [] then [] else Flatten(pieces[..|pieces| - 1]) + pieces[|pieces| - 1]
  }

  lemma FlattenSnoc(pieces: seq<seq<Byte>>, piece: seq<Byte>)
    ensures Flatten(pieces + [piece]) == Flatten(pieces) + piece
  {
    assert (pieces + [piece])[..|pieces|] == pieces;
  }

  /** Buffers are used front to back: all but the last one used are full, and none overflows. */
  predicate FillsInOrder(pieces: seq<seq<Byte>>, iovs: seq<Iovec>) {
    && |pieces| <= |iovs|
    && forall k | 0 <= k < |pieces| ::
         |pieces[k]| <= iovs[k].len && (k < |pieces| - 1 ==> |pieces[k]| == iovs[k].len)
  }

  /** Where in the stream of bytes the i-th buffer starts. */
  function Start(iovs: seq<Iovec>, i: nat): nat
    requires i <= |iovs|
  {
    Room(iovs[..i])
  }

  function Available(c: seq<Byte>, off: nat): nat {
    if off >= |c| then 0 else |c| - off
  }

  predicate NullAt(iovs: seq<Iovec>, i: int) {
    0 <= i < |iovs| && iovs[i].isNull && iovs[i].len > 0
  }

  /** A null pointer with a length is reached before the file runs out. */
  ghost predicate MeetsNull(iovs: seq<Iovec>, available: nat) {
    exists i :: NullAt(iovs, i) && Start(iovs, i) <= available
  }

  lemma ReadStep(iovs: seq<Iovec>, i: nat, c: seq<Byte>, off: nat, done: nat)
    requires i < |iovs| && done == Start(iovs, i) <= Available(c, off)
    ensures var piece := ReadOne(c, iovs[i].len, off + done); var flat := ReadOne(c, done, off);
      && |flat| == done && |piece| <= iovs[i].len
      && Start(iovs, i + 1) == done + iovs[i].len
      && flat + piece == ReadOne(c, done + |piece|, off) && done + |piece| <= Available(c, off)
      && (|piece| < iovs[i].len ==>
            Start(iovs, i + 1) > Available(c, off) && flat + piece == ReadOne(c, Room(iovs), off))
  {
    StartNext(iovs, i);
    assert iovs[..|iovs|] == iovs;
    StartsGrow(iovs, i + 1, |iovs|);
  }

  lemma NoNullAhead(iovs: seq<Iovec>, i: nat, available: nat)
    requires i < |iovs| && Start(iovs, i + 1) > available
    requires forall k | 0 <= k <= i :: !NullAt(iovs, k)
    ensures !MeetsNull(iovs, available)
  {
    forall k | i < k < |iovs| ensures Start(iovs, k) > available {
      StartsGrow(iovs, i + 1, k);
    }
  }

  lemma StartNext(iovs: seq<Iovec>, i: nat)
    requires i < |iovs|
    ensures Start(iovs, i + 1) == Start(iovs, i) + iovs[i].len
  {
    RoomSnoc(iovs[..i], iovs[i]);
    assert iovs[..i + 1] == iovs[..i] + [iovs[i]];
  }

  lemma {:induction false} RoomSnoc(iovs: seq<Iovec>, v: Iovec)
    ensures Room(iovs + [v]) == Room(iovs) + v.len
  {
    if iovs == [] {
      assert [] + [v] == [v] && [v][1..] == [];
    } else {
      RoomSnoc(iovs[1..], v);
      assert (iovs + [v])[1..] == iovs[1..] + [v];
    }
  }

  lemma {:induction false} StartsGrow(iovs: seq<Iovec>, i: nat, j: nat)
    requires i <= j <= |iovs|
    ensures Start(iovs, i) <= Start(iovs, j)
    decreases j - i
  {
    if i < j {
      StartNext(iovs, j - 1);
      StartsGrow(iovs, i, j - 1);
    }
  }
}
