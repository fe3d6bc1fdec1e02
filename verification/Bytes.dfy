/** File contents as sequences of bytes: single and vectored reads and writes. */
module Bytes {
  import opened Common

  type Byte = b: int | 0 <= b < 256

  // ---------- the memory file ----------

  function Zeros(n: nat): (z: seq<Byte>)
    ensures |z| == n && forall i | 0 <= i < n :: z[i] == 0
  {
    if n == 0 then [] else [0] + Zeros(n - 1)
  }

  /** `std::vector::resize`. */
  function Resize(c: seq<Byte>, n: nat): seq<Byte> {
    if n <= |c| then c[..n] else c + Zeros(n - |c|)
  }

  /** `MemoryDataFile::write`; `None` is the overflow that returns EIO. A write of no bytes still grows the file. */
  function WriteOne(c: seq<Byte>, data: seq<Byte>, off: nat, max: nat): Option<seq<Byte>> {
    if off + |data| > |c| && off + |data| > max then None else Some(Overlay(c, data, off))
  }

  /** `c'` is `c` with `data` laid over it at `off`, and zeros in any gap. */
  predicate Overlaid(c: seq<Byte>, data: seq<Byte>, off: nat, c': seq<Byte>) {
    && |c'| == (if off + |data| > |c| then off + |data| else |c|)
    && forall i | 0 <= i < |c'| ::
         c'[i] == if off <= i < off + |data| then data[i - off] else if i < |c| then c[i] else 0
  }

  /** The bytes laid down one after the other. */
  function Overlay(c: seq<Byte>, data: seq<Byte>, off: nat): (d: seq<Byte>)
    ensures Overlaid(c, data, off, d)
    decreases |data|
  {
    if data == [] then
      if off > |c| then Resize(c, off) else c
    else
      var last := |data| - 1;
      var d := Overlay(c, data[..last], off);
      if off + last < |d| then d[off + last := data[last]] else d + [data[last]]
  }

  /** `MemoryDataFile::read`. */
  function ReadOne(c: seq<Byte>, len: nat, off: nat): (r: seq<Byte>)
    ensures |r| == if off >= |c| then 0 else if off + len >= |c| then |c| - off else len
    ensures forall i | 0 <= i < |r| :: r[i] == c[off + i]
    decreases len
  {
    if len == 0 || off >= |c| then [] else [c[off]] + ReadOne(c, len - 1, off + 1)
  }

  // ---------- vectored writes ----------

  /** A write vector: its bytes, or a null pointer with a length. */
  datatype Ciovec = Buf(data: seq<Byte>) | NullBuf(len: nat)

  /** No null pointer comes with a length. */
  predicate NoNulls(iovs: seq<Ciovec>) {
    forall j | 0 <= j < |iovs| :: iovs[j].NullBuf? ==> iovs[j].len == 0
  }

  function DataOf(v: Ciovec): seq<Byte> {
    match v case Buf(data) => data case NullBuf(_) => []
  }

  /** The loop of `writeAtOffset` from an iovec on, with `written` bytes already out. */
  function WriteLoop(c: seq<Byte>, iovs: seq<Ciovec>, off: nat, max: nat, written: nat): (seq<Byte>, Result<nat>)
    decreases |iovs|
  {
    if iovs == [] then (c, Ok(written))
    else if iovs[0].NullBuf? && iovs[0].len > 0 then (c, Err(EINVAL))
    else match WriteOne(c, DataOf(iovs[0]), off + written, max)
      case None => (c, if written > 0 then Ok(written) else Err(EIO))
      case Some(c') => WriteLoop(c', iovs[1..], off, max, written + |DataOf(iovs[0])|)
  }

  function Concat(iovs: seq<Ciovec>): seq<Byte> {
    if iovs == [] then [] else DataOf(iovs[0]) + Concat(iovs[1..])
  }

  /** How many leading iovecs fit below `max` when the first one starts at `off`. */
  function Leading(iovs: seq<Ciovec>, off: nat, max: nat): (k: nat)
    ensures k <= |iovs|
  {
    if iovs == [] || off + |DataOf(iovs[0])| > max then 0
    else 1 + Leading(iovs[1..], off + |DataOf(iovs[0])|, max)
  }

  lemma WriteLength(c: seq<Byte>, data: seq<Byte>, off: nat, max: nat)
    requires WriteOne(c, data, off, max).Some?
    ensures Overlaid(c, data, off, WriteOne(c, data, off, max).value)
  {
  }

  /** Only one sequence overlays another with given bytes. */
  lemma SameOverlay(c: seq<Byte>, data: seq<Byte>, off: nat, d: seq<Byte>, d': seq<Byte>)
    requires Overlaid(c, data, off, d) && Overlaid(c, data, off, d')
    ensures d == d'
  {
  }

  /** Whatever overlays the old bytes with the data is what the write leaves. */
  lemma WriteIs(c: seq<Byte>, data: seq<Byte>, off: nat, max: nat, d: seq<Byte>)
    requires |c| <= max && off + |data| <= max && Overlaid(c, data, off, d)
    ensures WriteOne(c, data, off, max) == Some(d)
  {
    SameOverlay(c, data, off, Overlay(c, data, off), d);
  }

  lemma OverlayRest(c: seq<Byte>, a: seq<Byte>, b: seq<Byte>, off: nat, c1: seq<Byte>, d: seq<Byte>)
    requires Overlaid(c, a, off, c1) && Overlaid(c, a + b, off, d)
    ensures Overlaid(c1, b, off + |a|, d)
  {
  }

  lemma OverlaysJoin(c: seq<Byte>, a: seq<Byte>, b: seq<Byte>, off: nat)
    ensures Overlay(Overlay(c, a, off), b, off + |a|) == Overlay(c, a + b, off)
  {
    var c1, d := Overlay(c, a, off), Overlay(c, a + b, off);
    OverlayRest(c, a, b, off, c1, d);
    SameOverlay(c1, b, off + |a|, Overlay(c1, b, off + |a|), d);
  }

  /** Two adjacent writes are one write of the joined bytes. */
  lemma WriteJoins(c: seq<Byte>, a: seq<Byte>, b: seq<Byte>, off: nat, max: nat)
    requires |c| <= max && off + |a| + |b| <= max
    ensures var c1 := WriteOne(c, a, off, max);
      && c1.Some?
      && WriteOne(c1.value, b, off + |a|, max) == WriteOne(c, a + b, off, max)
  {
    OverlaysJoin(c, a, b, off);
  }

  /** The bytes of the leading iovecs that fit. */
  function FitBytes(iovs: seq<Ciovec>, at: nat, max: nat): (data: seq<Byte>)
    ensures at <= max ==> at + |data| <= max
    ensures Leading(iovs, at, max) == 0 ==> data == []
  {
    if iovs == [] || at + |DataOf(iovs[0])| > max then []
    else DataOf(iovs[0]) + FitBytes(iovs[1..], at + |DataOf(iovs[0])|, max)
  }

  lemma {:induction false} FitBytesAreLeading(iovs: seq<Ciovec>, at: nat, max: nat)
    ensures FitBytes(iovs, at, max) == Concat(iovs[..Leading(iovs, at, max)])
  {
    var k := Leading(iovs, at, max);
    if k > 0 {
      FitBytesAreLeading(iovs[1..], at + |DataOf(iovs[0])|, max);
      assert iovs[..k][0] == iovs[0] && iovs[..k][1..] == iovs[1..][..k - 1];
    }
  }

  /** One write of the leading iovecs that fit, and the length of those; EIO when that is zero and not all fit. */
  function Flat(c: seq<Byte>, iovs: seq<Ciovec>, off: nat, max: nat, written: nat): (seq<Byte>, Result<nat>) {
    var k, data := Leading(iovs, off + written, max), FitBytes(iovs, off + written, max);
    (if k == 0 then c else Overlay(c, data, off + written), FlatAnswer(|data|, k, |iovs|, written))
  }

  function FlatAnswer(length: nat, k: nat, n: nat, written: nat): Result<nat> {
    if k == n || written + length > 0 then Ok(written + length) else Err(EIO)
  }

  /**
   Vectored writing is flat writing. The call stores exactly the leading iovecs that fit, as one write of their bytes,
   and returns their length; it fails, and only with EIO, when that length is zero and not all fit.
   */
  lemma WriteLoopIsFlat(c: seq<Byte>, iovs: seq<Ciovec>, off: nat, max: nat, written: nat)
    requires |c| <= max && NoNulls(iovs)
    ensures WriteLoop(c, iovs, off, max, written) == Flat(c, iovs, off, max, written)
  {
    LoopOverlays(c, iovs, off, max, written);
    LoopAnswers(c, iovs, off, max, written);
    OnlyFlat(c, iovs, off, max, written, WriteLoop(c, iovs, off, max, written));
  }

  /** What is laid down, and the answer, are a flat write. */
  lemma OnlyFlat(c: seq<Byte>, iovs: seq<Ciovec>, off: nat, max: nat, written: nat, r: (seq<Byte>, Result<nat>))
    requires LaidDown(c, iovs, off + written, max, r.0)
    requires r.1 == FlatAnswer(|FitBytes(iovs, off + written, max)|, Leading(iovs, off + written, max), |iovs|, written)
    ensures r == Flat(c, iovs, off, max, written)
  {
    var at := off + written;
    var data := FitBytes(iovs, at, max);
    if Leading(iovs, at, max) > 0 {
      SameOverlay(c, data, at, r.0, Overlay(c, data, at));
    }
  }

  lemma {:induction false} LoopOverlays(c: seq<Byte>, iovs: seq<Ciovec>, off: nat, max: nat, written: nat)
    requires |c| <= max && NoNulls(iovs)
    ensures LaidDown(c, iovs, off + written, max, WriteLoop(c, iovs, off, max, written).0)
    decreases |iovs|
  {
    if Leading(iovs, off + written, max) > 0 {
      var w := written + |DataOf(iovs[0])|;
      var c1 := UnrollLoop(c, iovs, off, max, written);
      LoopOverlays(c1, iovs[1..], off, max, w);
      LaidDownCons(c, iovs, off + written, max, c1, off + w, WriteLoop(c1, iovs[1..], off, max, w).0);
    }
  }

  /** `left` is `c` with the bytes of the leading iovecs that fit laid over it; `c` itself if there is none. */
  predicate LaidDown(c: seq<Byte>, iovs: seq<Ciovec>, at: nat, max: nat, left: seq<Byte>) {
    if Leading(iovs, at, max) == 0 then left == c else Overlaid(c, FitBytes(iovs, at, max), at, left)
  }

  lemma LaidDownCons(c: seq<Byte>, iovs: seq<Ciovec>, at: nat, max: nat, c1: seq<Byte>, next: nat, left: seq<Byte>)
    requires Leading(iovs, at, max) > 0 && next == at + |DataOf(iovs[0])| && Overlaid(c, DataOf(iovs[0]), at, c1)
    requires LaidDown(c1, iovs[1..], next, max, left)
    ensures LaidDown(c, iovs, at, max, left)
  {
    var first, rest := DataOf(iovs[0]), FitBytes(iovs[1..], next, max);
    assert FitBytes(iovs, at, max) == first + rest;
    if Leading(iovs[1..], next, max) == 0 {
      assert first + rest == first;
    } else {
      OverlaysCompose(c, first, rest, at, c1, next, left);
    }
  }

  lemma OverlaysCompose(c: seq<Byte>, a: seq<Byte>, b: seq<Byte>, off: nat, c1: seq<Byte>, next: nat,
                        c2: seq<Byte>)
    requires Overlaid(c, a, off, c1) && next == off + |a| && Overlaid(c1, b, next, c2)
    ensures Overlaid(c, a + b, off, c2)
  {
  }

  lemma {:induction false} LoopAnswers(c: seq<Byte>, iovs: seq<Ciovec>, off: nat, max: nat, written: nat)
    requires |c| <= max && NoNulls(iovs)
    ensures WriteLoop(c, iovs, off, max, written).1 ==
      FlatAnswer(|FitBytes(iovs, off + written, max)|, Leading(iovs, off + written, max), |iovs|, written)
    decreases |iovs|
  {
    var k := Leading(iovs, off + written, max);
    if k > 0 {
      var first := |DataOf(iovs[0])|;
      var rest := FitCons(iovs, off + written, max, off + (written + first));
      var c1 := UnrollLoop(c, iovs, off, max, written);
      LoopAnswers(c1, iovs[1..], off, max, written + first);
      FlatAnswerStep(first, rest, k, |iovs|, written);
    } else {
      StopsAtOnce(c, iovs, off, max, written);
    }
  }

  lemma FitCons(iovs: seq<Ciovec>, at: nat, max: nat, next: nat) returns (rest: nat)
    requires Leading(iovs, at, max) > 0 && next == at + |DataOf(iovs[0])|
    ensures rest == |FitBytes(iovs[1..], next, max)| && |FitBytes(iovs, at, max)| == |DataOf(iovs[0])| + rest
    ensures Leading(iovs[1..], next, max) == Leading(iovs, at, max) - 1
    ensures Leading(iovs, at, max) == 1 ==> rest == 0
  {
    rest := |FitBytes(iovs[1..], next, max)|;
  }

  lemma StopsAtOnce(c: seq<Byte>, iovs: seq<Ciovec>, off: nat, max: nat, written: nat)
    requires |c| <= max && NoNulls(iovs) && Leading(iovs, off + written, max) == 0
    ensures WriteLoop(c, iovs, off, max, written).1 == FlatAnswer(0, 0, |iovs|, written)
  {
  }

  lemma UnrollLoop(c: seq<Byte>, iovs: seq<Ciovec>, off: nat, max: nat, written: nat) returns (c1: seq<Byte>)
    requires |c| <= max && NoNulls(iovs) && Leading(iovs, off + written, max) > 0
    ensures Overlaid(c, DataOf(iovs[0]), off + written, c1) && |c1| <= max && NoNulls(iovs[1..])
    ensures WriteLoop(c, iovs, off, max, written) == WriteLoop(c1, iovs[1..], off, max, written + |DataOf(iovs[0])|)
  {
    c1 := Overlay(c, DataOf(iovs[0]), off + written);
  }

  lemma FlatAnswerStep(first: nat, rest: nat, k: nat, n: nat, written: nat)
    requires 0 < k <= n && (k == 1 ==> rest == 0)
    ensures FlatAnswer(rest, k - 1, n - 1, written + first) == FlatAnswer(first + rest, k, n, written)
  {
  }

  /** When everything fits, a vectored write of at least one iovec is one write of all the bytes. */
  lemma VectoredWriteIsFlat(c: seq<Byte>, iovs: seq<Ciovec>, off: nat, max: nat)
    requires |c| <= max && NoNulls(iovs) && iovs != [] && off + |Concat(iovs)| <= max
    ensures WriteOne(c, Concat(iovs), off, max).Some?
    ensures WriteLoop(c, iovs, off, max, 0) == (WriteOne(c, Concat(iovs), off, max).value, Ok(|Concat(iovs)|))
  {
    WriteLoopIsFlat(c, iovs, off, max, 0);
    FlatOfAll(c, iovs, off, max);
  }

  lemma FlatOfAll(c: seq<Byte>, iovs: seq<Ciovec>, off: nat, max: nat)
    requires |c| <= max && iovs != [] && off + |Concat(iovs)| <= max
    ensures WriteOne(c, Concat(iovs), off, max).Some?
    ensures Flat(c, iovs, off, max, 0) == (WriteOne(c, Concat(iovs), off, max).value, Ok(|Concat(iovs)|))
  {
    AllLead(iovs, off, max);
  }

  lemma {:induction false} AllLead(iovs: seq<Ciovec>, off: nat, max: nat)
    requires off + |Concat(iovs)| <= max
    ensures Leading(iovs, off, max) == |iovs| && FitBytes(iovs, off, max) == Concat(iovs)
  {
    if iovs != [] {
      AllLead(iovs[1..], off + |DataOf(iovs[0])|, max);
    }
  }

  /** The index of the first null pointer with a length, or the number of iovecs. */
  function FirstNull(iovs: seq<Ciovec>): (k: nat)
    ensures k <= |iovs|
  {
    if iovs == [] || (iovs[0].NullBuf? && iovs[0].len > 0) then 0 else 1 + FirstNull(iovs[1..])
  }

  lemma {:induction false} FirstNullIsFirst(iovs: seq<Ciovec>, i: nat)
    requires i <= FirstNull(iovs) && i < |iovs|
    ensures i == FirstNull(iovs) <==> iovs[i].NullBuf? && iovs[i].len > 0
  {
    if i > 0 {
      FirstNullIsFirst(iovs[1..], i - 1);
    }
  }

  lemma {:induction false} ConcatSnoc(iovs: seq<Ciovec>, v: Ciovec)
    ensures Concat(iovs + [v]) == Concat(iovs) + DataOf(v)
  {
    if iovs == [] {
      assert iovs + [v] == [v] && [v][1..] == [];
    } else {
      var all := iovs + [v];
      assert all[0] == iovs[0] && all[1..] == iovs[1..] + [v];
      ConcatSnoc(iovs[1..], v);
      assert Concat(all) == DataOf(all[0]) + Concat(all[1..]);
    }
  }

  // ---------- vectored reads ----------

  /** A read vector: room for `len` bytes, or a null pointer with a length. */
  datatype Iovec = Iovec(isNull: bool, len: nat)

  function Room(iovs: seq<Iovec>): nat {
    if iovs == [] then 0 else iovs[0].len + Room(iovs[1..])
  }

  /** The loop of `readAtOffset` over valid buffers: fill them in order, stop at the first short read. */
  function ReadLoop(c: seq<Byte>, iovs: seq<Iovec>, off: nat): seq<Byte>
    decreases |iovs|
  {
    if iovs == [] then []
    else
      var piece := ReadOne(c, iovs[0].len, off);
      if |piece| < iovs[0].len then piece else piece + ReadLoop(c, iovs[1..], off + iovs[0].len)
  }

  /** Vectored reading is flat reading. */
  lemma {:induction false} VectoredReadIsFlat(c: seq<Byte>, iovs: seq<Iovec>, off: nat)
    ensures ReadLoop(c, iovs, off) == ReadOne(c, Room(iovs), off)
    decreases |iovs|
  {
    if iovs != [] {
      var tail := ReadLoop(c, iovs[1..], off + iovs[0].len);
      VectoredReadIsFlat(c, iovs[1..], off + iovs[0].len);
      ReadThenTail(c, iovs[0].len, Room(iovs[1..]), off, tail);
    }
  }

  lemma ReadThenTail(c: seq<Byte>, a: nat, b: nat, off: nat, tail: seq<Byte>)
    requires tail == ReadOne(c, b, off + a)
    ensures var piece := ReadOne(c, a, off); ReadOne(c, a + b, off) == if |piece| < a then piece else piece + tail
  {
    ReadJoins(c, a, b, off);
  }

  lemma ReadJoins(c: seq<Byte>, a: nat, b: nat, off: nat)
    ensures var piece := ReadOne(c, a, off);
      ReadOne(c, a + b, off) == if |piece| < a then piece else piece + ReadOne(c, b, off + a)
  {
  }

  /** What was written under one split into iovecs reads back under any other. */
  lemma WriteThenRead(c: seq<Byte>, iovs: seq<Ciovec>, into: seq<Iovec>, off: nat, max: nat)
    requires |c| <= max && NoNulls(iovs) && iovs != [] && off + |Concat(iovs)| <= max
    requires Room(into) == |Concat(iovs)|
    ensures ReadLoop(WriteLoop(c, iovs, off, max, 0).0, into, off) == Concat(iovs)
  {
    VectoredWriteIsFlat(c, iovs, off, max);
    var c' := WriteOne(c, Concat(iovs), off, max).value;
    VectoredReadIsFlat(c', into, off);
    WriteLength(c, Concat(iovs), off, max);
    assert ReadOne(c', |Concat(iovs)|, off) == Concat(iovs);
  }
}
