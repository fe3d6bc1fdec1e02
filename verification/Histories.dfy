/** What a history of writes, truncations and allocations leaves in a memory file. */
module Histories {
  import opened Common
  import opened Bytes

  /** A change to a file: a write that fits, or a new size from ftruncate, fallocate or O_TRUNC. */
  datatype Edit = Put(off: nat, data: seq<Byte>) | SetSize(size: nat)

  function Apply(c: seq<Byte>, e: Edit): seq<Byte> {
    match e
    case SetSize(n) => Resize(c, n)
    case Put(off, data) => WriteOne(c, data, off, off + |data|).value
  }

  function Replay(edits: seq<Edit>): seq<Byte> {
    if edits == [] then [] else Apply(Replay(edits[..|edits| - 1]), edits[|edits| - 1])
  }

  predicate Covers(e: Edit, i: nat) {
    e.Put? && e.off <= i < e.off + |e.data|
  }

  predicate Erases(e: Edit, i: nat) {
    e.SetSize? && e.size <= i
  }

  /** The j-th edit is the last that decides byte i. */
  predicate Decides(edits: seq<Edit>, j: nat, i: nat) {
    && j < |edits| && (Covers(edits[j], i) || Erases(edits[j], i))
    && forall k | j < k < |edits| :: !Covers(edits[k], i) && !Erases(edits[k], i)
  }

  /**
   A byte below the size is the byte of the latest write that covers it, unless a later truncation erased it; it is zero
   when the latest deciding edit is a truncation or there is none.
   */
  lemma {:induction false} ByteOfLatestWrite(edits: seq<Edit>, i: nat)
    requires i < |Replay(edits)|
    ensures forall j: nat | Decides(edits, j, i) ::
      Replay(edits)[i] == if edits[j].Put? then edits[j].data[i - edits[j].off] else 0
    ensures (forall j: nat :: !Decides(edits, j, i)) ==> Replay(edits)[i] == 0
  {
    if edits != [] {
      var last := edits[|edits| - 1];
      var before := edits[..|edits| - 1];
      if Covers(last, i) || Erases(last, i) {
        assert Decides(edits, |edits| - 1, i);
        ApplyAt(Replay(before), last, i);
        assert !Erases(last, i);
      } else {
        ApplyAt(Replay(before), last, i);
        forall j: nat ensures Decides(edits, j, i) <==> Decides(before, j, i) {
          DecidesBefore(edits, j, i);
        }
        if i < |Replay(before)| {
          ByteOfLatestWrite(before, i);
        } else {
          BeyondIsUndecidedOrZero(before, i);
        }
      }
    }
  }

  lemma ApplyAt(c: seq<Byte>, e: Edit, i: nat)
    requires i < |Apply(c, e)|
    ensures Apply(c, e)[i] == if Covers(e, i) then e.data[i - e.off] else if i < |c| then c[i] else 0
    ensures !Erases(e, i)
  {
    if e.Put? {
      WriteLength(c, e.data, e.off, e.off + |e.data|);
    }
  }

  lemma DecidesBefore(edits: seq<Edit>, j: nat, i: nat)
    requires edits != [] && !Covers(edits[|edits| - 1], i) && !Erases(edits[|edits| - 1], i)
    ensures Decides(edits, j, i) <==> Decides(edits[..|edits| - 1], j, i)
  {
  }

  /** Beyond the end nothing is decided by a write: if any edit decides the byte, it is a truncation. */
  lemma {:induction false} BeyondIsUndecidedOrZero(edits: seq<Edit>, i: nat)
    requires i >= |Replay(edits)|
    ensures forall j: nat | Decides(edits, j, i) :: edits[j].SetSize?
  {
    if edits != [] {
      var last := edits[|edits| - 1];
      var before := edits[..|edits| - 1];
      if last.Put? {
        WriteLength(Replay(before), last.data, last.off, last.off + |last.data|);
      }
      if !Covers(last, i) && !Erases(last, i) {
        BeyondIsUndecidedOrZero(before, i);
        forall j: nat ensures Decides(edits, j, i) <==> Decides(before, j, i) {
          DecidesBefore(edits, j, i);
        }
      }
    }
  }

  // ---------- from calls to edits ----------

  /**
   A call that may change a memory file: write and pwrite at the offset they work out, ftruncate and O_TRUNC, and
   fallocate. The arguments are those that pass the checks of the call.
   */
  datatype FileCall = Write(off: nat, iovs: seq<Ciovec>) | Truncate(size: nat) | Allocate(off: nat, length: nat)

  /** No call asks for a size the allocator cannot give. Writes check this themselves. */
  predicate Fits(call: FileCall, max: nat) {
    match call
    case Write(_, _) => true
    case Truncate(size) => size <= max
    case Allocate(off, length) => off + length <= max
  }

  /** The contents a call leaves. */
  function Perform(c: seq<Byte>, call: FileCall, max: nat): seq<Byte> {
    match call
    case Write(off, iovs) => WriteLoop(c, iovs, off, max, 0).0
    case Truncate(size) => Resize(c, size)
    case Allocate(off, length) => if off + length > |c| then Resize(c, off + length) else c
  }

  /** The bytes a vectored write puts down: those of the iovecs that fit before the first null pointer. */
  function Stored(iovs: seq<Ciovec>, off: nat, max: nat): seq<Byte> {
    FitBytes(iovs[..FirstNull(iovs)], off, max)
  }

  /** The edit a call makes, if it makes any. */
  function EditOf(c: seq<Byte>, call: FileCall, max: nat): Option<Edit> {
    match call
    case Write(off, iovs) =>
      if Leading(iovs[..FirstNull(iovs)], off, max) > 0 then Some(Put(off, Stored(iovs, off, max))) else None
    case Truncate(size) => Some(SetSize(size))
    case Allocate(off, length) => if off + length > |c| then Some(SetSize(off + length)) else None
  }

  /** What is left after a run of calls, and the edits it made. */
  function PerformAll(calls: seq<FileCall>, max: nat): seq<Byte> {
    if calls == [] then [] else Perform(PerformAll(calls[..|calls| - 1], max), calls[|calls| - 1], max)
  }

  function History(calls: seq<FileCall>, max: nat): seq<Edit> {
    if calls == [] then []
    else
      var before := calls[..|calls| - 1];
      History(before, max) +
      match EditOf(PerformAll(before, max), calls[|calls| - 1], max) case Some(e) => [e] case None => []
  }

  /** The iovecs from the first null pointer on leave the contents alone. */
  lemma {:induction false} NothingAfterNull(c: seq<Byte>, iovs: seq<Ciovec>, off: nat, max: nat, written: nat)
    ensures WriteLoop(c, iovs, off, max, written).0 == WriteLoop(c, iovs[..FirstNull(iovs)], off, max, written).0
    decreases |iovs|
  {
    var k := FirstNull(iovs);
    if k > 0 {
      assert iovs[..k][1..] == iovs[1..][..k - 1] && iovs[..k][0] == iovs[0];
      match WriteOne(c, DataOf(iovs[0]), off + written, max)
      case None =>
      case Some(c') => NothingAfterNull(c', iovs[1..], off, max, written + |DataOf(iovs[0])|);
    }
  }

  /** A vectored write is one edit, however many iovecs it has and wherever it stops. */
  lemma WriteIsOneEdit(c: seq<Byte>, iovs: seq<Ciovec>, off: nat, max: nat)
    requires |c| <= max
    ensures var c' := WriteLoop(c, iovs, off, max, 0).0;
      c' == if Leading(iovs[..FirstNull(iovs)], off, max) > 0 then Apply(c, Put(off, Stored(iovs, off, max))) else c
    ensures |WriteLoop(c, iovs, off, max, 0).0| <= max
  {
    var good := iovs[..FirstNull(iovs)];
    NothingAfterNull(c, iovs, off, max, 0);
    forall j | 0 <= j < |good| ensures good[j].NullBuf? ==> good[j].len == 0 {
      FirstNullIsFirst(iovs, j);
    }
    WriteLoopIsFlat(c, good, off, max, 0);
  }

  /**
   After any run of calls on a new file the contents are what its history of edits leaves, so each byte is the byte of
   the latest write that covers it and no later truncation erased.
   */
  lemma {:induction false} EveryRunIsItsHistory(calls: seq<FileCall>, max: nat)
    requires forall call | call in calls :: Fits(call, max)
    ensures PerformAll(calls, max) == Replay(History(calls, max)) && |PerformAll(calls, max)| <= max
  {
    if calls != [] {
      var before, last := calls[..|calls| - 1], calls[|calls| - 1];
      EveryRunIsItsHistory(before, max);
      var c := PerformAll(before, max);
      PerformIsItsEdit(c, last, max);
      match EditOf(c, last, max)
      case None => assert History(calls, max) == History(before, max);
      case Some(e) =>
        var edits := History(calls, max);
        assert edits == History(before, max) + [e];
        assert edits[..|edits| - 1] == History(before, max) && edits[|edits| - 1] == e;
    }
  }

  lemma PerformIsItsEdit(c: seq<Byte>, call: FileCall, max: nat)
    requires |c| <= max && Fits(call, max)
    ensures Perform(c, call, max) == match EditOf(c, call, max) case Some(e) => Apply(c, e) case None => c
    ensures |Perform(c, call, max)| <= max
  {
    if call.Write? {
      WriteIsOneEdit(c, call.iovs, call.off, max);
    }
  }
}
