/** The descriptor table: hand-kept use counts, the least free descriptor, and when an open file is closed. */
module FileTables {
  import opened Common
  import opened OpenStates

  /** `OpenFileState`, as far as the table is concerned. `stream` marks the three made by the table constructor. */
  class OpenFileState {
    const file: OpfsFile
    const stream: bool
    var uses: int

    constructor (file: OpfsFile, stream: bool)
      ensures this.file == file && this.stream == stream && uses == 0
    {
      this.file, this.stream, this.uses := file, stream, 0;
    }
  }

  /** How the end of `doOpen` goes: a descriptor, the error of the backend's open, or giving up after the open. */
  datatype OpenResult = Fd(fd: nat) | Refused(code: int) | GaveUp(error: Errno)

  /** The number of slots that hold a description. */
  ghost function Slots(es: seq<OpenFileState?>, o: OpenFileState): nat {
    multiset(es)[o]
  }

  /** How far `uses` lags behind the slots: the constructor bypassed `setEntry` for the streams. */
  ghost function Lag(o: OpenFileState): nat {
    if o.stream then 1 else 0
  }

  /** The descriptions of a file that are in the table. */
  ghost function Descriptions(es: seq<OpenFileState?>, f: OpfsFile): set<OpenFileState> {
    set o: OpenFileState | o in es && o.file == f
  }

  function Padded(es: seq<OpenFileState?>, fd: nat): seq<OpenFileState?> {
    if fd < |es| then es else es + seq(fd + 1 - |es|, _ => null)
  }

  /** `entries` after `setEntry`. */
  function Updated(es: seq<OpenFileState?>, fd: nat, o: OpenFileState?): seq<OpenFileState?> {
    Padded(es, fd)[fd := o]
  }

  /** `getEntry`. */
  function Slot(es: seq<OpenFileState?>, fd: int): OpenFileState? {
    if 0 <= fd < |es| then es[fd] else null
  }

  /** A changed table has the new content in that slot, and the old in all others. */
  lemma UpdatedIs(es: seq<OpenFileState?>, fd: nat, o: OpenFileState?, k: nat)
    ensures var after := Updated(es, fd, o);
      && |after| == (if fd < |es| then |es| else fd + 1)
      && (k < |after| ==> after[k] == if k == fd then o else if k < |es| then es[k] else null)
  {
  }

  lemma UpdatedSlots(es: seq<OpenFileState?>, fd: nat, o: OpenFileState?, d: OpenFileState)
    ensures Slots(Updated(es, fd, o), d) ==
      Slots(es, d) + (if o == d then 1 else 0) - (if Slot(es, fd) == d then 1 else 0)
  {
    var ps := Padded(es, fd);
    assert multiset(ps)[d] == multiset(es)[d] by {
      if fd >= |es| {
        NullsHoldNothing(fd + 1 - |es|, d);
      }
    }
    assert multiset(ps[fd := o]) == multiset(ps) - multiset{ps[fd]} + multiset{o};
  }

  lemma {:induction false} NullsHoldNothing(n: nat, d: OpenFileState)
    ensures multiset(seq(n, _ => null as OpenFileState?))[d] == 0
  {
    var ns := seq(n, _ => null as OpenFileState?);
    assert d !in ns;
  }

  lemma InTableIffSlots(es: seq<OpenFileState?>, o: OpenFileState)
    ensures o in es <==> Slots(es, o) > 0
  {
  }

  /** A description is in the table exactly while it has slots, so one change of slot adds or drops at most one. */
  lemma DescriptionsAfter(es: seq<OpenFileState?>, fd: nat, o: OpenFileState?, f: OpfsFile)
    ensures var victim := Slot(es, fd); var es' := Updated(es, fd, o);
      var added := if o != null && o.file == f then {o} else {};
      var gone := if victim != null && Slots(es', victim) == 0 then {victim} else {};
      Descriptions(es', f) == Descriptions(es, f) + added - gone
  {
    var es' := Updated(es, fd, o);
    forall d: OpenFileState
      ensures d in es' <==> (d in es || d == o) && !(d == Slot(es, fd) && Slots(es', d) == 0)
    {
      UpdatedSlots(es, fd, o, d);
      InTableIffSlots(es, d);
      InTableIffSlots(es', d);
    }
  }

  /** Opens of a file minus closes, against its descriptions in the table and the closes that were missed. */
  ghost predicate Balanced(es: seq<OpenFileState?>, f: OpfsFile, missed: nat)
    reads f
  {
    f.Valid() && f.openCount == |Descriptions(es, f)| + missed
  }

  /** What `setEntry` hands back for the slot it overwrote. */
  ghost function Dropped(before: seq<OpenFileState?>, after: seq<OpenFileState?>, fd: int): OpfsFile? {
    var victim := Slot(before, fd);
    if victim != null && victim.file.isData && Slots(after, victim) == Lag(victim) then victim.file else null
  }

  // ---------- runs of table calls ----------

  /** The least free descriptor at or above a start. */
  function LeastFree(es: seq<OpenFileState?>, start: nat): (fd: nat)
    ensures fd >= start && Slot(es, fd) == null
    ensures forall k | start <= k < fd :: Slot(es, k) != null
    decreases |es| - start
  {
    if start < |es| && es[start] != null then LeastFree(es, start + 1) else start
  }

  /**
   A call on the table. An open brings the description it would add, whether the backend refused, and what the O_TRUNC
   branch looks at.
   */
  datatype TableCall =
    | CallDup(fd: int, start: int)
    | CallDup3(oldfd: int, newfd: int)
    | CallClose(fd: int)
    | CallOpen(made: OpenFileState, refused: bool, truncate: bool, canWrite: bool)

  predicate Dup3Works(es: seq<OpenFileState?>, oldfd: int, newfd: int) {
    Slot(es, oldfd) != null && newfd >= 0 && oldfd != newfd
  }

  /** O_TRUNC is asked of something that cannot be truncated. */
  predicate CannotTruncate(file: OpfsFile, truncate: bool, canWrite: bool) {
    truncate && (!file.isData || !canWrite)
  }

  function SlotsAfter(es: seq<OpenFileState?>, c: TableCall): seq<OpenFileState?> {
    match c
    case CallDup(fd, start) =>
      if Slot(es, fd) == null || start < 0 then es else Updated(es, LeastFree(es, start), Slot(es, fd))
    case CallDup3(oldfd, newfd) => if Dup3Works(es, oldfd, newfd) then Updated(es, newfd, Slot(es, oldfd)) else es
    case CallClose(fd) => if Slot(es, fd) == null then es else Updated(es, fd, null)
    case CallOpen(made, refused, truncate, canWrite) =>
      if refused || CannotTruncate(made.file, truncate, canWrite) then es else Updated(es, LeastFree(es, 0), made)
  }

  /** How a call changes the number of opens of a file minus its closes. */
  ghost function OpensBy(es: seq<OpenFileState?>, c: TableCall, f: OpfsFile): int {
    match c
    case CallDup(_, _) => 0
    case CallDup3(_, _) => 0
    case CallClose(fd) => if Slot(es, fd) != null && Dropped(es, Updated(es, fd, null), fd) == f then -1 else 0
    case CallOpen(made, refused, _, _) => if made.file == f && !refused then 1 else 0
  }

  /**
   The guards of a missed close: dup3 overwrites the last slot of another description, or O_TRUNC fails on a file that
   was opened for it.
   */
  ghost predicate Misses(es: seq<OpenFileState?>, c: TableCall, f: OpfsFile) {
    match c
    case CallDup3(oldfd, newfd) =>
      && Dup3Works(es, oldfd, newfd)
      && var victim := Slot(es, newfd);
         victim != null && victim.file == f && victim != Slot(es, oldfd) && Slots(es, victim) == 1
    case CallOpen(made, refused, truncate, canWrite) => made.file == f && !refused && truncate && !canWrite
    case _ => false
  }

  /** Data files other than those of the standard streams: the ones opens and closes matter for. */
  predicate Counted(f: OpfsFile) {
    f.isData && !f.special
  }

  ghost predicate StreamsSpecial(es: seq<OpenFileState?>) {
    forall o: OpenFileState | o in es :: o.stream ==> o.file.special
  }

  /** The description of an open is a new one. */
  ghost predicate Fits(es: seq<OpenFileState?>, c: TableCall) {
    c.CallOpen? ==> c.made !in es && !c.made.stream
  }

  /** One call keeps the balance, unless it met the guard of a missed close. */
  lemma CallBalances(es: seq<OpenFileState?>, c: TableCall, f: OpfsFile)
    requires Counted(f) && StreamsSpecial(es) && Fits(es, c)
    ensures StreamsSpecial(SlotsAfter(es, c))
    ensures |Descriptions(es, f)| + OpensBy(es, c, f) ==
      |Descriptions(SlotsAfter(es, c), f)| + if Misses(es, c, f) then 1 else 0
  {
    match c
    case CallDup(fd, start) =>
      if Slot(es, fd) != null && start >= 0 {
        SlotBalances(es, LeastFree(es, start), Slot(es, fd), f);
      }
    case CallDup3(oldfd, newfd) =>
      if Dup3Works(es, oldfd, newfd) {
        SlotBalances(es, newfd, Slot(es, oldfd), f);
      }
    case CallClose(fd) =>
      if Slot(es, fd) != null {
        SlotBalances(es, fd, null, f);
      }
    case CallOpen(made, refused, truncate, canWrite) =>
      if !refused && !CannotTruncate(made.file, truncate, canWrite) {
        NewDescription(es, LeastFree(es, 0), made, f);
        UpdatedMembers(es, LeastFree(es, 0), made);
      }
  }

  /** A change of one slot, with a description already known or none, drops one exactly when its last slot goes. */
  lemma SlotBalances(es: seq<OpenFileState?>, fd: nat, o: OpenFileState?, f: OpfsFile)
    requires Counted(f) && StreamsSpecial(es) && (o != null ==> o in es)
    ensures var es' := Updated(es, fd, o); var victim := Slot(es, fd);
      && StreamsSpecial(es')
      && (Dropped(es, es', fd) == f <==> victim != null && victim.file == f && victim != o && Slots(es, victim) == 1)
      && |Descriptions(es', f)| == |Descriptions(es, f)| - if Dropped(es, es', fd) == f then 1 else 0
  {
    var victim := Slot(es, fd);
    SlotChange(es, fd, o, f);
    UpdatedMembers(es, fd, o);
    if victim != null {
      assert victim in es;
      UpdatedSlots(es, fd, o, victim);
      InTableIffSlots(es, victim);
    }
  }

  lemma UpdatedMembers(es: seq<OpenFileState?>, fd: nat, o: OpenFileState?)
    ensures forall d: OpenFileState | d in Updated(es, fd, o) :: d in es || d == o
  {
  }

  function RunSlots(es: seq<OpenFileState?>, calls: seq<TableCall>): seq<OpenFileState?>
    decreases |calls|
  {
    if calls == [] then es else RunSlots(SlotsAfter(es, calls[0]), calls[1..])
  }

  ghost function RunOpens(es: seq<OpenFileState?>, calls: seq<TableCall>, f: OpfsFile): int
    decreases |calls|
  {
    if calls == [] then 0 else OpensBy(es, calls[0], f) + RunOpens(SlotsAfter(es, calls[0]), calls[1..], f)
  }

  ghost function RunMissed(es: seq<OpenFileState?>, calls: seq<TableCall>, f: OpfsFile): nat
    decreases |calls|
  {
    if calls == [] then 0
    else (if Misses(es, calls[0], f) then 1 else 0) + RunMissed(SlotsAfter(es, calls[0]), calls[1..], f)
  }

  ghost predicate RunFits(es: seq<OpenFileState?>, calls: seq<TableCall>)
    decreases |calls|
  {
    calls == [] || (Fits(es, calls[0]) && RunFits(SlotsAfter(es, calls[0]), calls[1..]))
  }

  /** Some call of the run meets the guard of a missed close of the file. */
  ghost predicate RunMisses(es: seq<OpenFileState?>, calls: seq<TableCall>, f: OpfsFile)
    decreases |calls|
  {
    calls != [] && (Misses(es, calls[0], f) || RunMisses(SlotsAfter(es, calls[0]), calls[1..], f))
  }

  lemma {:induction false} RunCounts(es: seq<OpenFileState?>, calls: seq<TableCall>, f: OpfsFile)
    requires Counted(f) && StreamsSpecial(es) && RunFits(es, calls)
    ensures |Descriptions(es, f)| + RunOpens(es, calls, f) ==
      |Descriptions(RunSlots(es, calls), f)| + RunMissed(es, calls, f)
    ensures RunMissed(es, calls, f) == 0 <==> !RunMisses(es, calls, f)
    decreases |calls|
  {
    if calls != [] {
      CallBalances(es, calls[0], f);
      RunCounts(SlotsAfter(es, calls[0]), calls[1..], f);
    }
  }

  /**
   From a table without descriptions of the file, its opens minus its closes are its descriptions in the table if and
   only if no call of the run met the guard of a missed close.
   */
  lemma OpensAreDescriptions(es: seq<OpenFileState?>, calls: seq<TableCall>, f: OpfsFile)
    requires Counted(f) && StreamsSpecial(es) && RunFits(es, calls) && Descriptions(es, f) == {}
    ensures RunOpens(es, calls, f) == |Descriptions(RunSlots(es, calls), f)| <==> !RunMisses(es, calls, f)
    ensures RunOpens(es, calls, f) >= |Descriptions(RunSlots(es, calls), f)|
  {
    RunCounts(es, calls, f);
  }

  function Met(missed: map<OpfsFile, nat>, file: OpfsFile): map<OpfsFile, nat> {
    if file in missed then missed else missed[file := 0]
  }

  function Owed(missed: map<OpfsFile, nat>, file: OpfsFile): map<OpfsFile, nat>
    requires file in missed
  {
    missed[file := missed[file] + 1]
  }

  function Paid(missed: map<OpfsFile, nat>, file: OpfsFile): map<OpfsFile, nat>
    requires file in missed && missed[file] > 0
  {
    missed[file := missed[file] - 1]
  }

  lemma PaidBack(missed: map<OpfsFile, nat>, file: OpfsFile)
    requires file in missed
    ensures Paid(Owed(missed, file), file) == missed
  {
  }

  class FileTable {
    var entries: seq<OpenFileState?>
    ghost var descs: set<OpenFileState>
    ghost var files: set<OpfsFile>
    ghost var missed: map<OpfsFile, nat>

    /** `uses` counts slots, up to the lag of the streams. */
    ghost predicate UsesOk()
      reads this, descs
    {
      && (forall o: OpenFileState | o in entries :: o in descs)
      && forall o | o in descs :: o.uses == Slots(entries, o) - Lag(o)
    }

    ghost predicate FilesOk()
      reads this, descs, files
    {
      && missed.Keys == files
      && (forall o | o in descs :: o.file in files && (o.stream ==> o.file.special))
      && forall f | f in files && Counted(f) :: Balanced(entries, f, missed[f])
    }

    ghost predicate Valid()
      reads this, descs, files
    {
      UsesOk() && FilesOk()
    }

    /** Three slots for the standard streams, filled without `setEntry`. */
    constructor (stdin: OpfsFile, stdout: OpfsFile, stderr: OpfsFile)
      requires stdin.special && stdout.special && stderr.special
      ensures Valid() && fresh(descs) && files == {stdin, stdout, stderr} && |entries| == 3
      ensures forall k | 0 <= k < 3 :: entries[k] != null && entries[k].stream && entries[k].uses == 0
      ensures entries[0].file == stdin && entries[1].file == stdout && entries[2].file == stderr
      ensures entries[0] != entries[1] && entries[0] != entries[2] && entries[1] != entries[2]
    {
      var a := new OpenFileState(stdin, true);
      var b := new OpenFileState(stdout, true);
      var c := new OpenFileState(stderr, true);
      entries := [a, b, c];
      descs := {a, b, c};
      files := {stdin, stdout, stderr};
      missed := map[stdin := 0, stdout := 0, stderr := 0];
    }

    /** The resize at the start of `setEntry`. */
    method Grow(fd: nat)
      requires UsesOk()
      modifies this`entries
      ensures UsesOk() && entries == Padded(old(entries), fd)
    {
      if fd >= |entries| {
        forall d: OpenFileState ensures Slots(Padded(entries, fd), d) == Slots(entries, d) {
          NullsHoldNothing(fd + 1 - |entries|, d);
        }
        entries := entries + seq(fd + 1 - |entries|, _ => null);
        forall o: OpenFileState | o in entries ensures o in descs {
          InTableIffSlots(entries, o);
          InTableIffSlots(old(entries), o);
        }
      }
    }

    /**
     Put a description, or nothing, into a slot. The data file returned is the one whose description has just lost its
     last slot, or for a stream its last slot but one.
     */
    method SetEntry(fd: nat, o: OpenFileState?) returns (closee: OpfsFile?)
      requires UsesOk() && (o != null ==> o in descs)
      modifies this`entries, descs
      ensures UsesOk() && entries == Updated(old(entries), fd, o)
      ensures closee == Dropped(old(entries), entries, fd)
    {
      Grow(fd);
      closee := PutEntry(fd, o);
    }

    method PutEntry(fd: nat, o: OpenFileState?) returns (closee: OpfsFile?)
      requires UsesOk() && (o != null ==> o in descs) && fd < |entries|
      modifies this`entries, descs
      ensures UsesOk() && entries == old(entries)[fd := o]
      ensures closee == Dropped(old(entries), entries, fd)
    {
      forall d: OpenFileState ensures Slots(entries[fd := o], d) ==
        Slots(entries, d) + (if o == d then 1 else 0) - (if entries[fd] == d then 1 else 0)
      {
        UpdatedSlots(entries, fd, o, d);
      }
      assert entries[fd] in entries;
      if o != null {
        o.uses := o.uses + 1;
      }
      closee := null;
      if entries[fd] != null {
        entries[fd].uses := entries[fd].uses - 1;
        if entries[fd].uses == 0 && entries[fd].file.isData {
          closee := entries[fd].file;
        }
      }
      entries := entries[fd := o];
      assert forall d | d in descs ::
        d.uses == old(d.uses) + (if o == d then 1 else 0) - (if old(entries[fd]) == d then 1 else 0);
    }

    /** `addEntry` and the loop of `F_DUPFD`: the least free descriptor at or above `start`. */
    method AddEntryFrom(start: nat, o: OpenFileState) returns (fd: nat)
      requires UsesOk() && o in descs
      modifies this`entries, descs
      ensures UsesOk() && entries == Updated(old(entries), fd, o)
      ensures fd == LeastFree(old(entries), start)
    {
      fd := start;
      while fd < |entries| && entries[fd] != null
        invariant fd >= start && LeastFree(entries, fd) == LeastFree(entries, start)
        decreases |entries| - fd
      {
        fd := fd + 1;
      }
      var _ := SetEntry(fd, o);
    }

    // ---------- the calls ----------

    /** `dup` (from 0) and `F_DUPFD`. */
    method Dup(fd: int, start: int) returns (r: Result<nat>)
      requires Valid()
      modifies this`entries, descs
      ensures Valid()
      ensures r.Err? ==> entries == old(entries)
      ensures r.Err? ==> r.error == if Slot(old(entries), fd) == null then EBADF else EINVAL
      ensures r.Err? <==> Slot(old(entries), fd) == null || start < 0
      ensures r.Ok? ==> entries == Updated(old(entries), r.value, Slot(old(entries), fd))
      ensures entries == SlotsAfter(old(entries), CallDup(fd, start))
      ensures r.Ok? ==> r.value == LeastFree(old(entries), start)
    {
      var o := Slot(entries, fd);
      if o == null {
        return Err(EBADF);
      }
      if start < 0 {
        return Err(EINVAL);
      }
      assert o in entries;
      forall f ensures Descriptions(entries, f) + (if o.file == f then {o} else {}) == Descriptions(entries, f) {
      }
      var newfd := AddEntryFrom(start, o);
      forall f ensures Descriptions(entries, f) == Descriptions(old(entries), f) {
        DescriptionsAfter(old(entries), newfd, o, f);
      }
      return Ok(newfd);
    }

    /** Every file balances once `closee`, if there is one, has been closed or written off. */
    ghost predicate Owing(closee: OpfsFile?)
      reads this, descs, files
    {
      && missed.Keys == files
      && (forall o | o in descs :: o.file in files && (o.stream ==> o.file.special))
      && forall f | f in files && Counted(f) ::
           Balanced(entries, f, missed[f] + if closee == f then 1 else 0)
    }

    /** Overwrite a slot with nothing or with a description that is already in the table. */
    method Displace(fd: nat, o: OpenFileState?) returns (closee: OpfsFile?)
      requires Valid() && (o != null ==> o in entries)
      modifies this`entries, descs
      ensures UsesOk() && Owing(closee) && entries == Updated(old(entries), fd, o)
      ensures closee == Dropped(old(entries), entries, fd) && (closee != null ==> closee in files)
      ensures closee != null && !closee.special ==> closee.isData && closee.Valid() && closee.openCount > 0
    {
      ghost var victim := Slot(entries, fd);
      assert victim != null ==> victim in entries;
      closee := SetEntry(fd, o);
      forall f | f in files && Counted(f)
        ensures Balanced(entries, f, missed[f] + if closee == f then 1 else 0)
      {
        SlotChange(old(entries), fd, o, f);
        assert old(Balanced(entries, f, missed[f]));
      }
      assert closee != null && !closee.special ==> Balanced(entries, closee, missed[closee] + 1);
    }

    /** `dup3`: whatever was in the slot is dropped, and a file that should now be closed is not. */
    method Dup3(oldfd: int, newfd: int) returns (r: Result<nat>)
      requires Valid()
      modifies this`entries, this`missed, descs
      ensures Valid()
      ensures r == if Slot(old(entries), oldfd) == null || newfd < 0 then Err(EBADF)
                   else if oldfd == newfd then Err(EINVAL) else Ok(newfd)
      ensures entries == if r.Ok? then Updated(old(entries), newfd, Slot(old(entries), oldfd)) else old(entries)
      ensures entries == SlotsAfter(old(entries), CallDup3(oldfd, newfd))
      ensures r.Err? ==> missed == old(missed)
      ensures r.Ok? ==> var dropped := Dropped(old(entries), entries, newfd);
        missed == if dropped != null && dropped in old(missed) then Owed(old(missed), dropped) else old(missed)
    {
      var o := Slot(entries, oldfd);
      if o == null || newfd < 0 {
        return Err(EBADF);
      }
      if oldfd == newfd {
        return Err(EINVAL);
      }
      var dropped := Displace(newfd, o);
      WriteOff(dropped);
      return Ok(newfd);
    }

    /** Record a close that will never happen. */
    ghost method WriteOff(dropped: OpfsFile?)
      requires UsesOk() && Owing(dropped) && (dropped != null ==> dropped in files)
      modifies this`missed
      ensures Valid()
      ensures missed == if dropped != null then Owed(old(missed), dropped) else old(missed)
    {
      if dropped != null {
        missed := Owed(missed, dropped);
      }
      forall f | f in files && Counted(f) ensures Balanced(entries, f, missed[f]) {
        assert old(Balanced(entries, f, missed[f] + if dropped == f then 1 else 0));
      }
    }

    /** `fd_close`: the slot is emptied, and a file that lost its last description is closed. */
    method Close(fd: int, reply: int) returns (r: Result<int>)
      requires Valid()
      modifies this`entries, descs, files
      ensures Valid()
      ensures r.Err? <==> Slot(old(entries), fd) == null
      ensures r.Err? ==> r.error == EBADF
      ensures entries == if r.Ok? then Updated(old(entries), fd, null) else old(entries)
      ensures entries == SlotsAfter(old(entries), CallClose(fd))
      ensures forall f | f in files && Counted(f) ::
        f.openCount == old(f.openCount) + OpensBy(old(entries), CallClose(fd), f)
      ensures r.Ok? ==> var f := Dropped(old(entries), entries, fd);
        r.value == if f != null && Counted(f) && old(f.openCount) == 1 && old(f.kind) == AccessHandle then -reply else 0
    {
      var o := Slot(entries, fd);
      if o == null {
        return Err(EBADF);
      }
      var closee := Displace(fd, null);
      var ret := CloseDropped(closee, reply);
      return Ok(ret);
    }

    /** Close what lost its last description, if anything did. */
    method CloseDropped(closee: OpfsFile?, reply: int) returns (ret: int)
      requires UsesOk() && Owing(closee) && (closee != null ==> closee in files)
      requires closee != null && !closee.special ==> closee.isData && closee.Valid() && closee.openCount > 0
      modifies files
      ensures Valid()
      ensures ret == if closee != null && Counted(closee) && old(closee.openCount) == 1 &&
                        old(closee.kind) == AccessHandle then -reply else 0
      ensures forall f | f in files && Counted(f) :: f.openCount == old(f.openCount) - if closee == f then 1 else 0
    {
      ret := 0;
      if closee != null && !closee.special {
        ret := closee.Close(reply);
        ret := -ret;
      }
    }

    /**
     The end of `doOpen`: `OpenFileState::create` opens the file, O_TRUNC on something that cannot be truncated gives up
     without closing it, and otherwise the description takes the least free descriptor.
     */
    method Open(file: OpfsFile, flags: Access, reply: int, truncate: bool, canWrite: bool) returns (r: OpenResult)
      requires Valid() && file.Valid() && (file !in files ==> file.openCount == 0)
      modifies this, descs, file
      ensures Valid() && files == old(files) + {file}
      ensures r.Refused? <==>
        && Counted(file) && reply < 0
        && (old(file.kind) == NoHandle || (old(file.kind) == BlobHandle && flags != ReadOnly))
      ensures r.Refused? ==> r.code == reply
      ensures r.GaveUp? <==> !r.Refused? && truncate && (!file.isData || !canWrite)
      ensures r.GaveUp? ==> r.error == if file.isData then EACCES else EISDIR
      ensures r.Fd? ==>
        && r.fd == LeastFree(old(entries), 0) && Slot(entries, r.fd) != null && fresh(Slot(entries, r.fd))
        && Slot(entries, r.fd).file == file && !Slot(entries, r.fd).stream
        && entries == Updated(old(entries), r.fd, Slot(entries, r.fd))
        && entries == SlotsAfter(old(entries), CallOpen(Slot(entries, r.fd), false, truncate, canWrite))
      ensures !r.Fd? ==> entries == old(entries)
      ensures Counted(file) ==> file.openCount == old(file.openCount) + if r.Refused? then 0 else 1
      ensures missed ==
        if r.GaveUp? && Counted(file) then Owed(Met(old(missed), file), file) else Met(old(missed), file)
    {
      var code := CreateState(file, flags, reply);
      if code != 0 {
        return Refused(code);
      }
      PaidBack(Met(old(missed), file), file);
      r := Finish(file, truncate, canWrite);
    }

    /** The truncation and the descriptor of a file that is open already. */
    method Finish(file: OpfsFile, truncate: bool, canWrite: bool) returns (r: OpenResult)
      requires Valid() && file in files && (Counted(file) ==> missed[file] > 0)
      modifies this`entries, this`descs, this`missed, descs
      ensures Valid() && !r.Refused?
      ensures r.GaveUp? <==> truncate && (!file.isData || !canWrite)
      ensures r.GaveUp? ==> r.error == if file.isData then EACCES else EISDIR
      ensures r.GaveUp? ==> missed == old(missed) && entries == old(entries)
      ensures r.Fd? ==>
        && r.fd == LeastFree(old(entries), 0) && Slot(entries, r.fd) != null && fresh(Slot(entries, r.fd))
        && Slot(entries, r.fd).file == file && !Slot(entries, r.fd).stream
        && entries == Updated(old(entries), r.fd, Slot(entries, r.fd))
        && missed == if Counted(file) then Paid(old(missed), file) else old(missed)
    {
      if truncate {
        if !file.isData {
          return GaveUp(EISDIR);
        }
        if !canWrite {
          return GaveUp(EACCES);
        }
      }
      var fd := Adopt(file);
      return Fd(fd);
    }

    /** The start of `OpenFileState::create`: a data file is opened, anything else needs no open. */
    method CreateState(file: OpfsFile, flags: Access, reply: int) returns (code: int)
      requires Valid() && file.Valid() && (file !in files ==> file.openCount == 0)
      modifies this`files, this`missed, file
      ensures Valid() && files == old(files) + {file}
      ensures missed ==
        if code == 0 && Counted(file) then Owed(Met(old(missed), file), file) else Met(old(missed), file)
      ensures code != 0 <==>
        && Counted(file) && reply < 0
        && (old(file.kind) == NoHandle || (old(file.kind) == BlobHandle && flags != ReadOnly))
      ensures code != 0 ==> code == reply
      ensures Counted(file) ==> file.openCount == old(file.openCount) + if code == 0 then 1 else 0
    {
      Learn(file);
      if Counted(file) {
        code := OpenFile(file, flags, reply);
      } else {
        code := 0;
      }
    }

    /** The backend's open, before any description accounts for it. */
    method OpenFile(file: OpfsFile, flags: Access, reply: int) returns (code: int)
      requires Valid() && file in files && Counted(file)
      modifies this`missed, file
      ensures Valid()
      ensures code == 0 ==> missed == Owed(old(missed), file)
      ensures code != 0 <==>
        && reply < 0
        && (old(file.kind) == NoHandle || (old(file.kind) == BlobHandle && flags != ReadOnly))
      ensures code != 0 ==> missed == old(missed) && code == reply
      ensures file.openCount == old(file.openCount) + if code == 0 then 1 else 0
    {
      assert Balanced(entries, file, missed[file]);
      code := file.Open(flags, reply);
      if code == 0 {
        missed := Owed(missed, file);
      }
      assert Balanced(entries, file, missed[file]);
      forall f | f in files && Counted(f) && f != file ensures Balanced(entries, f, missed[f]) {
        assert old(Balanced(entries, f, missed[f]));
      }
    }

    /** A file the table has not met has no description in it. */
    ghost method Learn(file: OpfsFile)
      requires Valid() && file.Valid() && (file !in files ==> file.openCount == 0)
      modifies this`files, this`missed
      ensures Valid() && files == old(files) + {file} && file in missed
      ensures missed == Met(old(missed), file)
    {
      if file !in files {
        files := files + {file};
        missed := missed[file := 0];
        assert Descriptions(entries, file) == {};
      }
    }

    /** A new description takes the least free descriptor. */
    method Describe(file: OpfsFile) returns (fd: nat, o: OpenFileState)
      requires UsesOk()
      modifies this`entries, this`descs, descs
      ensures UsesOk() && fresh(o) && descs == old(descs) + {o} && o !in old(entries) && o.file == file && !o.stream
      ensures fd == LeastFree(old(entries), 0) && entries == Updated(old(entries), fd, o)
    {
      o := new OpenFileState(file, false);
      assert o !in entries;
      descs := descs + {o};
      fd := AddEntryFrom(0, o);
    }

    /** Give an open file that no description accounts for yet a new description and a descriptor. */
    method Adopt(file: OpfsFile) returns (fd: nat)
      requires Valid() && file in files
      requires Counted(file) ==> missed[file] > 0
      modifies this`entries, this`descs, this`missed, descs
      ensures Valid()
      ensures missed == if Counted(file) then Paid(old(missed), file) else old(missed)
      ensures fd == LeastFree(old(entries), 0) && Slot(entries, fd) != null && fresh(Slot(entries, fd))
      ensures Slot(entries, fd).file == file && !Slot(entries, fd).stream
      ensures entries == Updated(old(entries), fd, Slot(entries, fd))
    {
      assert forall f | f in files && Counted(f) :: Balanced(entries, f, missed[f]);
      ghost var before := entries;
      var o: OpenFileState;
      fd, o := Describe(file);
      CountIn(before, fd, o, file);
    }

    /** From here on the new description accounts for one open of its file. */
    ghost method CountIn(before: seq<OpenFileState?>, fd: nat, o: OpenFileState, file: OpfsFile)
      requires UsesOk() && entries == Updated(before, fd, o) && o !in before && Slot(before, fd) == null
      requires missed.Keys == files && o.file == file && file in files
      requires forall d | d in descs :: d.file in files && (d.stream ==> d.file.special)
      requires forall f | f in files && Counted(f) :: Balanced(before, f, missed[f])
      requires Counted(file) ==> missed[file] > 0
      modifies this`missed
      ensures Valid()
      ensures missed ==
        if Counted(file) then Paid(old(missed), file) else old(missed)
    {
      if Counted(file) {
        missed := Paid(missed, file);
      }
      forall f | f in files && Counted(f) ensures Balanced(entries, f, missed[f]) {
        NewDescription(before, fd, o, f);
        assert old(Balanced(before, f, missed[f]));
      }
    }

    /** With no close missed, the handle of a file is gone exactly when no descriptor remains. */
    lemma HandleWhileDescribed(f: OpfsFile)
      requires Valid() && f in files && Counted(f)
      ensures missed[f] == 0 ==> (f.kind == NoHandle <==> forall o: OpenFileState | o in entries :: o.file != f)
      ensures missed[f] > 0 ==> f.kind != NoHandle
    {
      assert Balanced(entries, f, missed[f]);
      if Descriptions(entries, f) == {} {
        forall o: OpenFileState | o in entries ensures o.file != f {
          assert o !in Descriptions(entries, f);
        }
      } else {
        var o :| o in Descriptions(entries, f);
      }
    }
  }

  /** How one change of slot, by a description already known, moves the number of descriptions of a file. */
  lemma SlotChange(es: seq<OpenFileState?>, fd: nat, o: OpenFileState?, f: OpfsFile)
    requires o != null ==> o in es
    ensures var victim := Slot(es, fd); var es' := Updated(es, fd, o);
      |Descriptions(es', f)| ==
        |Descriptions(es, f)| - if victim != null && victim.file == f && Slots(es', victim) == 0 then 1 else 0
  {
    DescriptionsAfter(es, fd, o, f);
    var victim, es' := Slot(es, fd), Updated(es, fd, o);
    var before := Descriptions(es, f);
    if victim != null && Slots(es', victim) == 0 {
      DropOne(before, if o != null && o.file == f then {o} else {}, victim);
    } else {
      AddNone(before, if o != null && o.file == f then {o} else {});
    }
  }

  lemma NewDescription(es: seq<OpenFileState?>, fd: nat, o: OpenFileState, f: OpfsFile)
    requires o !in es && Slot(es, fd) == null
    ensures |Descriptions(Updated(es, fd, o), f)| == |Descriptions(es, f)| + if o.file == f then 1 else 0
  {
    DescriptionsAfter(es, fd, o, f);
    assert o !in Descriptions(es, f);
    AddNone(Descriptions(es, f), {});
  }

  lemma DropOne<T>(s: set<T>, more: set<T>, x: T)
    requires more <= s
    ensures |s + more - {x}| == |s| - if x in s then 1 else 0
  {
    assert s + more == s;
    assert x !in s ==> s - {x} == s;
  }

  lemma AddNone<T>(s: set<T>, more: set<T>)
    requires more <= s
    ensures s + more - {} == s
  {
  }
}
