/**
 What one call of `Atomic` does, stated by bytes and positions alone, and the agreement of its serial calls with the
 methods of `DataFiles` on objects.
 */
module IoEffects {
  import opened Common
  import opened Bytes
  import opened DataFiles
  import opened Atomic

  /** Where a description stands: at the start until a call moved it. */
  function Standing(f: Shared, d: Desc): nat {
    if d in f.pos then f.pos[d] else 0
  }

  /** Only the position of one description may differ. */
  ghost predicate MovesTo(f: Shared, g: Shared, d: Desc, p: nat) {
    g.pos == f.pos[d := p] && g.appends == f.appends && g.max == f.max
  }

  /** A null pointer with a length is reached while the buffers before it are full. */
  ghost predicate ReachesNull(c: seq<Byte>, iovs: seq<Iovec>, off: nat) {
    exists k :: 0 <= k < |iovs| && iovs[k].isNull && iovs[k].len > 0 &&
      Room(iovs[..k]) <= if off <= |c| then |c| - off else 0
  }

  /** What a vectored read of `iovs` at a position gives, with `acc` read before it. */
  ghost predicate Ran(c: seq<Byte>, iovs: seq<Iovec>, at: nat, acc: seq<Byte>, r: Result<seq<Byte>>) {
    && (r.Ok? ==> r.value == acc + ReadOne(c, Room(iovs), at))
    && (r.Err? ==> r.error == EINVAL)
    && (r.Err? <==> ReachesNull(c, iovs, at))
  }

  lemma {:induction false} RunAnswers(c: seq<Byte>, iovs: seq<Iovec>, off: nat, acc: seq<Byte>, at: nat)
    requires at == off + |acc|
    ensures Ran(c, iovs, at, acc, ReadRun(c, iovs, off, acc))
    decreases |iovs|
  {
    if iovs == [] {
      assert acc + [] == acc;
    } else if iovs[0].isNull && iovs[0].len > 0 {
      assert Room(iovs[..0]) == 0;
    } else {
      var piece := ReadOne(c, iovs[0].len, at);
      FirstBuffer(c, iovs, off, acc, at, piece);
      if |piece| == iovs[0].len {
        RunAnswers(c, iovs[1..], off, acc + piece, at + iovs[0].len);
        RanCons(c, iovs, at, acc, piece, ReadRun(c, iovs[1..], off, acc + piece));
      } else {
        RanShort(c, iovs, at, acc, piece);
      }
    }
  }

  lemma RanCons(c: seq<Byte>, iovs: seq<Iovec>, at: nat, acc: seq<Byte>, piece: seq<Byte>, r: Result<seq<Byte>>)
    requires iovs != [] && !(iovs[0].isNull && iovs[0].len > 0)
    requires piece == ReadOne(c, iovs[0].len, at) && |piece| == iovs[0].len
    requires Ran(c, iovs[1..], at + iovs[0].len, acc + piece, r)
    ensures Ran(c, iovs, at, acc, r)
  {
    NullFurtherOn(c, iovs, at);
    FirstPiece(c, iovs[0].len, Room(iovs[1..]), acc, at, piece);
  }

  lemma RanShort(c: seq<Byte>, iovs: seq<Iovec>, at: nat, acc: seq<Byte>, piece: seq<Byte>)
    requires iovs != [] && !(iovs[0].isNull && iovs[0].len > 0)
    requires piece == ReadOne(c, iovs[0].len, at) && |piece| < iovs[0].len
    ensures Ran(c, iovs, at, acc, Ok(acc + piece))
  {
    NullFurtherOn(c, iovs, at);
    FirstPiece(c, iovs[0].len, Room(iovs[1..]), acc, at, piece);
  }

  /** The first turn of the loop, and what is left to read after it. */
  lemma FirstBuffer(c: seq<Byte>, iovs: seq<Iovec>, off: nat, acc: seq<Byte>, at: nat, piece: seq<Byte>)
    requires iovs != [] && !(iovs[0].isNull && iovs[0].len > 0)
    requires at == off + |acc| && piece == ReadOne(c, iovs[0].len, at)
    ensures ReadRun(c, iovs, off, acc) ==
      if |piece| < iovs[0].len then Ok(acc + piece) else ReadRun(c, iovs[1..], off, acc + piece)
  {
  }

  lemma FirstPiece(c: seq<Byte>, a: nat, b: nat, acc: seq<Byte>, at: nat, piece: seq<Byte>)
    requires piece == ReadOne(c, a, at)
    ensures acc + ReadOne(c, a + b, at) == if |piece| < a then acc + piece else acc + piece + ReadOne(c, b, at + a)
  {
    ReadJoins(c, a, b, at);
    Regroup(acc, piece, ReadOne(c, b, at + a));
  }

  /** Past a good first buffer: if it is filled the rest decides, and if not nothing more is reached. */
  lemma NullFurtherOn(c: seq<Byte>, iovs: seq<Iovec>, at: nat)
    requires iovs != [] && !(iovs[0].isNull && iovs[0].len > 0)
    ensures var piece := ReadOne(c, iovs[0].len, at);
      ReachesNull(c, iovs, at) <==> |piece| == iovs[0].len && ReachesNull(c, iovs[1..], at + iovs[0].len)
  {
    forall k | 1 <= k < |iovs|
      ensures Room(iovs[..k]) == iovs[0].len + Room(iovs[1..][..k - 1]) && iovs[k] == iovs[1..][k - 1]
    {
      assert iovs[..k][1..] == iovs[1..][..k - 1] && iovs[..k][0] == iovs[0];
    }
    var piece := ReadOne(c, iovs[0].len, at);
    if |piece| == iovs[0].len && ReachesNull(c, iovs[1..], at + iovs[0].len) {
      var rest := iovs[1..];
      var k :| 0 <= k < |rest| && rest[k].isNull && rest[k].len > 0 &&
        Room(rest[..k]) <= if at + iovs[0].len <= |c| then |c| - (at + iovs[0].len) else 0;
      assert iovs[k + 1] == rest[k] && Room(iovs[..k + 1]) == iovs[0].len + Room(rest[..k]);
    }
  }

  lemma WholeRun(c: seq<Byte>, iovs: seq<Iovec>, off: nat)
    ensures var r := ReadRun(c, iovs, off, []);
      && (r.Ok? ==> r.value == ReadOne(c, Room(iovs), off)) && (r.Err? ==> r.error == EINVAL)
      && (r.Err? <==> ReachesNull(c, iovs, off))
  {
    RunAnswers(c, iovs, off, [], off);
    var data := ReadOne(c, Room(iovs), off);
    assert [] + data == data;
  }

  // ---------- what a vectored write stores and returns ----------

  /** The iovec is a null pointer with a length. */
  predicate BadPointer(v: Ciovec) {
    v.NullBuf? && v.len > 0
  }

  /**
   The first `k` iovecs are stored from `at` on, as one write of their bytes, and `w` bytes were out before. All there
   are, a bad pointer, or a write past the largest size ends it: the count, EINVAL, or the count so far and EIO if that
   is zero.
   */
  ghost predicate Wrote(c: seq<Byte>, iovs: seq<Ciovec>, at: nat, max: nat, w: nat, k: nat,
                        r: (seq<Byte>, Result<nat>))
  {
    && k <= |iovs|
    && var data := Concat(iovs[..k]);
    && (forall j | 0 <= j < k :: !BadPointer(iovs[j]))
    && (if k == 0 then r.0 == c else at + |data| <= max && Overlaid(c, data, at, r.0))
    && (k == |iovs| ==> r.1 == Ok(w + |data|))
    && (k < |iovs| && BadPointer(iovs[k]) ==> r.1 == Err(EINVAL))
    && (k < |iovs| && !BadPointer(iovs[k]) ==>
          && at + |data| + |DataOf(iovs[k])| > max
          && r.1 == if w + |data| > 0 then Ok(w + |data|) else Err(EIO))
  }

  lemma {:induction false} WriteAnswers(c: seq<Byte>, iovs: seq<Ciovec>, off: nat, max: nat, w: nat, at: nat)
    returns (k: nat)
    requires |c| <= max && at == off + w
    ensures Wrote(c, iovs, at, max, w, k, WriteLoop(c, iovs, off, max, w))
    decreases |iovs|
  {
    k := 0;
    if iovs != [] && !BadPointer(iovs[0]) && WriteOne(c, DataOf(iovs[0]), at, max).Some? {
      var first := |DataOf(iovs[0])|;
      var c1 := WriteOne(c, DataOf(iovs[0]), at, max).value;
      var k1 := WriteAnswers(c1, iovs[1..], off, max, w + first, at + first);
      WroteCons(c, iovs, at, max, w, k1, c1, at + first, WriteLoop(c1, iovs[1..], off, max, w + first));
      k := k1 + 1;
    }
  }

  lemma WroteCons(c: seq<Byte>, iovs: seq<Ciovec>, at: nat, max: nat, w: nat, k: nat, c1: seq<Byte>, next: nat,
                  r: (seq<Byte>, Result<nat>))
    requires |c| <= max && iovs != [] && !BadPointer(iovs[0]) && next == at + |DataOf(iovs[0])|
    requires WriteOne(c, DataOf(iovs[0]), at, max) == Some(c1)
    requires Wrote(c1, iovs[1..], next, max, w + |DataOf(iovs[0])|, k, r)
    ensures Wrote(c, iovs, at, max, w, k + 1, r)
  {
    var first, rest := DataOf(iovs[0]), Concat(iovs[1..][..k]);
    assert iovs[..k + 1][0] == iovs[0] && iovs[..k + 1][1..] == iovs[1..][..k];
    assert Concat(iovs[..k + 1]) == first + rest;
    if k == 0 {
      assert rest == [] && first + rest == first;
    } else {
      OverlaysCompose(c, first, rest, at, c1, next, r.0);
    }
  }

  // ---------- positions ----------

  /** What read makes of the result of its loop. */
  lemma ReadIs(f: Shared, d: Desc, into: seq<Iovec>, p: nat, x: Result<seq<Byte>>)
    requires p == Standing(f, d) && x == ReadRun(f.bytes, into, p, [])
    ensures Exec(f, Read(d, into)) == (if x.Ok? then f.(pos := f.pos[d := p + |x.value|]) else f, Got(x))
  {
  }

  /** read starts where the description stands and moves it past what it gives; an error moves nothing. */
  lemma ReadEffect(f: Shared, d: Desc, into: seq<Iovec>)
    ensures var r := Exec(f, Read(d, into)); var p := Standing(f, d);
      && r.0.bytes == f.bytes && r.1.Got?
      && (r.1.data.Ok? ==>
            && r.1.data.value == ReadOne(f.bytes, Room(into), p)
            && MovesTo(f, r.0, d, p + |r.1.data.value|))
      && (r.1.data.Err? ==> r.0 == f && r.1.data.error == EINVAL)
      && (r.1.data.Err? <==> ReachesNull(f.bytes, into, p))
  {
    var p := Standing(f, d);
    ReadIs(f, d, into, p, ReadRun(f.bytes, into, p, []));
    WholeRun(f.bytes, into, p);
  }

  /** pread reads at its offset and moves nothing. */
  lemma PreadEffect(f: Shared, d: Desc, into: seq<Iovec>, at: nat)
    ensures var r := Exec(f, Pread(d, into, at));
      && r.0 == f && r.1.Got?
      && (r.1.data.Ok? ==> r.1.data.value == ReadOne(f.bytes, Room(into), at))
      && (r.1.data.Err? ==> r.1.data.error == EINVAL)
      && (r.1.data.Err? <==> ReachesNull(f.bytes, into, at))
  {
    WholeRun(f.bytes, into, at);
  }

  /** write starts at the end of the file if it appends, or else where the description stands, and moves it. */
  lemma WriteEffect(f: Shared, d: Desc, data: seq<Ciovec>)
    ensures var r := Exec(f, Write(d, data)); var p := if d in f.appends then |f.bytes| else Standing(f, d);
      && r.1.Count? && (r.0.bytes, r.1.n) == WriteLoop(f.bytes, data, p, f.max, 0)
      && (r.1.n.Ok? ==> MovesTo(f, r.0, d, p + r.1.n.value))
      && (r.1.n.Err? && d in f.appends ==> MovesTo(f, r.0, d, |f.bytes|))
      && (r.1.n.Err? && d !in f.appends ==> r.0.pos == f.pos && r.0.appends == f.appends && r.0.max == f.max)
  {
  }

  /** pwrite writes at its offset, even if the description appends, and moves nothing. */
  lemma PwriteEffect(f: Shared, d: Desc, data: seq<Ciovec>, at: nat)
    ensures var r := Exec(f, Pwrite(d, data, at));
      && r.1.Count? && (r.0.bytes, r.1.n) == WriteLoop(f.bytes, data, at, f.max, 0)
      && r.0.pos == f.pos && r.0.appends == f.appends && r.0.max == f.max
  {
  }

  /** ftruncate cuts or extends with zeros, and moves nothing. */
  lemma TruncateEffect(f: Shared, d: Desc, size: nat, canWrite: bool)
    ensures var r := Exec(f, Truncate(d, size, canWrite));
      && r.1 == Count(if canWrite then Ok(0) else Err(EINVAL))
      && r.0.pos == f.pos && r.0.appends == f.appends && r.0.max == f.max
      && (!canWrite ==> r.0.bytes == f.bytes)
      && (canWrite ==>
            && |r.0.bytes| == size
            && forall i | 0 <= i < size :: r.0.bytes[i] == if i < |f.bytes| then f.bytes[i] else 0)
  {
  }

  /** Two reads in a row give adjacent bytes: together what one read of both rooms gives. */
  lemma ReadsAreAdjacent(f: Shared, d: Desc, first: seq<Iovec>, second: seq<Iovec>)
    ensures var r := Exec(f, Read(d, first)); var s := Exec(r.0, Read(d, second));
      && r.1.Got? && s.1.Got?
      && (r.1.data.Ok? && s.1.data.Ok? ==>
            Follows(f, d, Room(first), Room(second), r.1.data.value, s.1.data.value))
  {
    var r := ReadOnce(f, d, first);
    var s := ReadOnce(r.0, d, second);
    if r.1.data.Ok? && s.1.data.Ok? {
      TwoReads(f, r.0, s.0, d, Room(first), Room(second), r.1.data.value, s.1.data.value);
    }
  }

  ghost predicate Follows(f: Shared, d: Desc, a: nat, b: nat, x: seq<Byte>, y: seq<Byte>) {
    x + y == ReadOne(f.bytes, a + b, Standing(f, d))
  }

  ghost predicate Reads(f: Shared, g: Shared, d: Desc, room: nat, x: seq<Byte>) {
    x == ReadOne(f.bytes, room, Standing(f, d)) && g.bytes == f.bytes && Standing(g, d) == Standing(f, d) + |x|
  }

  lemma ReadOnce(f: Shared, d: Desc, into: seq<Iovec>) returns (r: (Shared, Answer))
    ensures r == Exec(f, Read(d, into)) && r.1.Got?
    ensures r.1.data.Ok? ==> Reads(f, r.0, d, Room(into), r.1.data.value)
  {
    r := Exec(f, Read(d, into));
    ReadEffect(f, d, into);
  }

  lemma TwoReads(f: Shared, g: Shared, h: Shared, d: Desc, a: nat, b: nat, x: seq<Byte>, y: seq<Byte>)
    requires Reads(f, g, d, a, x) && Reads(g, h, d, b, y)
    ensures Follows(f, d, a, b, x, y)
  {
    NextRead(f.bytes, a, b, Standing(f, d), x, Standing(g, d));
  }

  lemma NextRead(c: seq<Byte>, a: nat, b: nat, at: nat, x: seq<Byte>, next: nat)
    requires x == ReadOne(c, a, at) && next == at + |x|
    ensures x + ReadOne(c, b, next) == ReadOne(c, a + b, at)
  {
    ReadJoins(c, a, b, at);
    if |x| < a {
      assert ReadOne(c, b, next) == [];
      assert x + [] == x;
    }
  }

  /** What a write puts at a position, a read from there gives back. */
  lemma WriteThenPread(f: Shared, d: Desc, data: seq<Ciovec>, e: Desc, into: seq<Iovec>)
    requires |f.bytes| <= f.max && NoNulls(data) && data != []
    requires var p := if d in f.appends then |f.bytes| else Standing(f, d); p + |Concat(data)| <= f.max
    requires forall k | 0 <= k < |into| :: !into[k].isNull
    requires Room(into) == |Concat(data)|
    ensures var p := if d in f.appends then |f.bytes| else Standing(f, d);
      Exec(Exec(f, Write(d, data)).0, Pread(e, into, p)).1 == Got(Ok(Concat(data)))
  {
    var p := if d in f.appends then |f.bytes| else Standing(f, d);
    var g := Exec(f, Write(d, data)).0;
    WriteEffect(f, d, data);
    PreadEffect(g, e, into, p);
    WriteThenRead(f.bytes, data, into, p, f.max);
    VectoredReadIsFlat(g.bytes, into, p);
  }

  // ---------- the methods on objects ----------

  /** The file and a description of it are as the serial calls have them. */
  ghost predicate Ties(f: Shared, d: Desc, desc: Description)
    reads desc, desc.file
  {
    && f.bytes == desc.file.buffer && f.max == desc.file.maxSize
    && Standing(f, d) == desc.position && (d in f.appends <==> desc.append)
  }

  /** read and pread on objects are those of the serial runs. */
  method ReadAgrees(ghost f: Shared, d: Desc, desc: Description, at: Option<nat>, into: seq<Iovec>)
    returns (r: Result<seq<seq<Byte>>>)
    requires Ties(f, d, desc)
    modifies desc`position
    ensures var e := Exec(f, if at.Some? then Pread(d, into, at.value) else Read(d, into));
      && Ties(e.0, d, desc)
      && e.1 == Got(match r case Ok(pieces) => Ok(Flatten(pieces)) case Err(x) => Err(x))
  {
    var off := match at case Some(o) => o case None => desc.position;
    SameNulls(desc.file.buffer, into, off);
    ReadEffect(f, d, into);
    PreadEffect(f, d, into, off);
    r := desc.ReadAtOffset(at, into);
  }

  lemma SameNulls(c: seq<Byte>, iovs: seq<Iovec>, off: nat)
    ensures ReachesNull(c, iovs, off) <==> MeetsNull(iovs, Available(c, off))
  {
    if ReachesNull(c, iovs, off) {
      var k :| 0 <= k < |iovs| && iovs[k].isNull && iovs[k].len > 0 &&
        Room(iovs[..k]) <= if off <= |c| then |c| - off else 0;
      assert NullAt(iovs, k);
    }
  }

  /** write and pwrite on objects are those of the serial runs. */
  method WriteAgrees(ghost f: Shared, d: Desc, desc: Description, at: Option<nat>, data: seq<Ciovec>)
    returns (r: Result<nat>)
    requires Ties(f, d, desc) && desc.file.Valid()
    modifies desc`position, desc.file
    ensures var e := Exec(f, if at.Some? then Pwrite(d, data, at.value) else Write(d, data));
      Ties(e.0, d, desc) && e.1 == Count(r)
  {
    WriteEffect(f, d, data);
    PwriteEffect(f, d, data, match at case Some(o) => o case None => 0);
    r := desc.WriteAtOffset(at, data);
  }
}
