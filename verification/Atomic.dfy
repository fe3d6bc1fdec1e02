/**
 Vectored I/O by many threads on one memory file. Every call locks its open description, then the file, works through
 its iovecs one step at a time while other threads run, and unlocks. Whatever the interleaving, the calls take effect
 one after the other in the order in which they took the file lock.
 */
module Atomic {
  import opened Common
  import opened Bytes

  type Tid = nat
  type Desc = nat

  datatype Call =
    | Write(desc: Desc, data: seq<Ciovec>)
    | Pwrite(desc: Desc, data: seq<Ciovec>, at: nat)
    | Read(desc: Desc, into: seq<Iovec>)
    | Pread(desc: Desc, into: seq<Iovec>, at: nat)
    | Truncate(desc: Desc, size: nat, canWrite: bool)

  /** What a call returns: a count, or the bytes it read. */
  datatype Answer = Count(n: Result<nat>) | Got(data: Result<seq<Byte>>)

  /** The file and the position of each description. `appends` and `max` do not change. */
  datatype Shared = Shared(bytes: seq<Byte>, pos: map<Desc, nat>, appends: set<Desc>, max: nat)

  function Pos(f: Shared, d: Desc): nat {
    if d in f.pos then f.pos[d] else 0
  }

  function SetPos(f: Shared, d: Desc, p: nat): Shared {
    f.(pos := f.pos[d := p])
  }

  /** The loop of `readAtOffset` from an iovec on, with `acc` already read. */
  function ReadRun(c: seq<Byte>, iovs: seq<Iovec>, off: nat, acc: seq<Byte>): Result<seq<Byte>>
    decreases |iovs|
  {
    if iovs == [] then Ok(acc)
    else if iovs[0].isNull && iovs[0].len > 0 then Err(EINVAL)
    else
      var piece := ReadOne(c, iovs[0].len, off + |acc|);
      if |piece| < iovs[0].len then Ok(acc + piece) else ReadRun(c, iovs[1..], off, acc + piece)
  }

  // ---------- one call at a time ----------

  /** What happens the moment a call has both locks: an appending write moves its position to the end. */
  function Begin(f: Shared, c: Call): Shared {
    if c.Write? && c.desc in f.appends then SetPos(f, c.desc, |f.bytes|) else f
  }

  function OffsetOf(f: Shared, c: Call): nat {
    match c
    case Write(d, _) => Pos(f, d)
    case Read(d, _) => Pos(f, d)
    case Pwrite(_, _, at) => at
    case Pread(_, _, at) => at
    case Truncate(_, _, _) => 0
  }

  /** The end of a call: read and write move the position past what they transferred. */
  function End(f: Shared, c: Call, off: nat, a: Answer): Shared {
    if c.Write? && a.Count? && a.n.Ok? then SetPos(f, c.desc, off + a.n.value)
    else if c.Read? && a.Got? && a.data.Ok? then SetPos(f, c.desc, off + |a.data.value|)
    else f
  }

  /** A whole call with nothing else running. */
  function Exec(f: Shared, c: Call): (Shared, Answer) {
    var g := Begin(f, c);
    Complete(g, Work(c, OffsetOf(g, c), Todo(c)))
  }

  function Replay(f: Shared, calls: seq<Call>): Shared {
    if calls == [] then f else Exec(Replay(f, calls[..|calls| - 1]), calls[|calls| - 1]).0
  }

  // ---------- a call in progress ----------

  /** What is left of a call's loop. */
  datatype Rest =
    | Writing(out: seq<Ciovec>, written: nat)
    | Reading(room: seq<Iovec>, acc: seq<Byte>)
    | Sizing
    | Over(answer: Answer)

  datatype Job = Work(call: Call, off: nat, rest: Rest)

  function Todo(c: Call): Rest {
    match c
    case Write(_, data) => Writing(data, 0)
    case Pwrite(_, data, _) => Writing(data, 0)
    case Read(_, into) => Reading(into, [])
    case Pread(_, into, _) => Reading(into, [])
    case Truncate(_, _, _) => Sizing
  }

  /** One turn of the loop: at most one iovec. */
  function Turn(f: Shared, j: Job): (Shared, Job) {
    match j.rest
    case Over(_) => (f, j)
    case Sizing =>
      if !j.call.Truncate? || !j.call.canWrite then (f, j.(rest := Over(Count(Err(EINVAL)))))
      else (f.(bytes := Resize(f.bytes, j.call.size)), j.(rest := Over(Count(Ok(0)))))
    case Writing(out, written) =>
      if out == [] then (f, j.(rest := Over(Count(Ok(written)))))
      else if out[0].NullBuf? && out[0].len > 0 then (f, j.(rest := Over(Count(Err(EINVAL)))))
      else (match WriteOne(f.bytes, DataOf(out[0]), j.off + written, f.max)
        case None => (f, j.(rest := Over(Count(if written > 0 then Ok(written) else Err(EIO)))))
        case Some(c) => (f.(bytes := c), j.(rest := Writing(out[1..], written + |DataOf(out[0])|))))
    case Reading(room, acc) =>
      if room == [] then (f, j.(rest := Over(Got(Ok(acc)))))
      else if room[0].isNull && room[0].len > 0 then (f, j.(rest := Over(Got(Err(EINVAL)))))
      else
        var piece := ReadOne(f.bytes, room[0].len, j.off + |acc|);
        (f, j.(rest := if |piece| < room[0].len then Over(Got(Ok(acc + piece))) else Reading(room[1..], acc + piece)))
  }

  /** Finish a job without interruption. */
  function Complete(f: Shared, j: Job): (Shared, Answer) {
    match j.rest
    case Over(a) => (End(f, j.call, j.off, a), a)
    case Sizing =>
      if !j.call.Truncate? || !j.call.canWrite then (End(f, j.call, j.off, Count(Err(EINVAL))), Count(Err(EINVAL)))
      else (End(f.(bytes := Resize(f.bytes, j.call.size)), j.call, j.off, Count(Ok(0))), Count(Ok(0)))
    case Writing(out, written) =>
      var r := WriteLoop(f.bytes, out, j.off, f.max, written);
      (End(f.(bytes := r.0), j.call, j.off, Count(r.1)), Count(r.1))
    case Reading(room, acc) =>
      var r := ReadRun(f.bytes, room, j.off, acc);
      (End(f, j.call, j.off, Got(r)), Got(r))
  }

  /** One turn does not change how an uninterrupted job ends. */
  lemma TurnCompletes(f: Shared, j: Job)
    ensures Complete(Turn(f, j).0, Turn(f, j).1) == Complete(f, j)
    ensures Turn(f, j).1.call == j.call && Turn(f, j).1.off == j.off
  {
  }

  // ---------- the interleaving ----------

  datatype Phase =
    | Idle
    | Waiting(call: Call, latched: nat)  // holds the description lock; a read has already taken its offset
    | Busy(job: Job)                     // holds both locks
    | Leaving(desc: Desc)                // has released the file lock only

  datatype Event = Event(tid: Tid, call: Call, answer: Answer)

  /** `order` lists the calls as they took the file lock, `log` as they finished. */
  datatype Sys = Sys(shared: Shared, descLocks: map<Desc, Tid>, fileLock: Option<Tid>, phases: map<Tid, Phase>,
                     order: seq<Call>, log: seq<Event>)

  function PhaseOf(s: Sys, t: Tid): Phase {
    if t in s.phases then s.phases[t] else Idle
  }

  datatype Action = LockDescription(call: Call) | LockFile | DoTurn | Finish | UnlockDescription

  /** A thread's next step, when it can take it. */
  function Do(s: Sys, t: Tid, a: Action): Option<Sys> {
    match (PhaseOf(s, t), a)
    case (Idle, LockDescription(c)) =>
      if c.desc in s.descLocks then None
      else Some(s.(descLocks := s.descLocks[c.desc := t], phases := s.phases[t := Waiting(c, OffsetOf(s.shared, c))]))
    case (Waiting(c, latched), LockFile) =>
      if s.fileLock.Some? then None
      else
        var g := Begin(s.shared, c);
        var off := if c.Write? then OffsetOf(g, c) else latched;
        Some(s.(shared := g, fileLock := Some(t), phases := s.phases[t := Busy(Work(c, off, Todo(c)))],
                order := s.order + [c]))
    case (Busy(j), DoTurn) =>
      if j.rest.Over? then None
      else
        var r := Turn(s.shared, j);
        Some(s.(shared := r.0, phases := s.phases[t := Busy(r.1)]))
    case (Busy(j), Finish) =>
      if !j.rest.Over? then None
      else Some(s.(shared := End(s.shared, j.call, j.off, j.rest.answer), fileLock := None,
                   phases := s.phases[t := Leaving(j.call.desc)],
                   log := s.log + [Event(t, j.call, j.rest.answer)]))
    case (Leaving(d), UnlockDescription) =>
      Some(s.(descLocks := s.descLocks - {d}, phases := s.phases[t := Idle]))
    case _ => None
  }

  datatype Move = Move(tid: Tid, action: Action)

  /** A schedule, in which moves that cannot be made are skipped. */
  function Run(s: Sys, moves: seq<Move>): Sys {
    if moves == [] then s
    else
      var before := Run(s, moves[..|moves| - 1]);
      Do(before, moves[|moves| - 1].tid, moves[|moves| - 1].action).GetOr(before)
  }

  function Start(f: Shared): Sys {
    Sys(f, map[], None, map[], [], [])
  }

  function Calls(log: seq<Event>): seq<Call> {
    seq(|log|, i requires 0 <= i < |log| => log[i].call)
  }

  // ---------- the invariant ----------

  ghost predicate Holds(p: Phase, d: Desc) {
    match p
    case Idle => false
    case Waiting(c, _) => c.desc == d
    case Busy(j) => j.call.desc == d
    case Leaving(d') => d' == d
  }

  ghost predicate LocksOk(s: Sys) {
    && (forall t: Tid, d: Desc :: Holds(PhaseOf(s, t), d) ==> d in s.descLocks && s.descLocks[d] == t)
    && (forall t: Tid :: PhaseOf(s, t).Busy? <==> s.fileLock == Some(t))
  }

  /** An offset a waiting call has taken is still the one it would take now. */
  ghost predicate LatchesOk(s: Sys) {
    forall t: Tid :: PhaseOf(s, t).Waiting? && !PhaseOf(s, t).call.Write? ==>
      PhaseOf(s, t).latched == OffsetOf(s.shared, PhaseOf(s, t).call)
  }

  /** The finished calls give the answers they give one at a time, and the one in progress is on its way to its own. */
  ghost predicate SerialOk(f: Shared, s: Sys) {
    var done := Replay(f, Calls(s.log));
    && (forall i | 0 <= i < |s.log| :: s.log[i].answer == Exec(Replay(f, Calls(s.log)[..i]), s.log[i].call).1)
    && (s.fileLock.None? ==> s.shared == done && s.order == Calls(s.log))
    && (s.fileLock.Some? ==>
          PhaseOf(s, s.fileLock.value).Busy? &&
          var j := PhaseOf(s, s.fileLock.value).job;
          Complete(s.shared, j) == Exec(done, j.call) && s.order == Calls(s.log) + [j.call])
  }

  ghost predicate Inv(f: Shared, s: Sys) {
    LocksOk(s) && LatchesOk(s) && SerialOk(f, s)
  }

  lemma {:induction false} ReplaySnoc(f: Shared, calls: seq<Call>, c: Call)
    ensures Replay(f, calls + [c]) == Exec(Replay(f, calls), c).0
  {
    assert (calls + [c])[..|calls|] == calls;
  }

  /** A move by one thread leaves the phases of the others alone. */
  lemma OthersStay(s: Sys, t: Tid, a: Action)
    requires Do(s, t, a).Some?
    ensures forall u: Tid | u != t :: PhaseOf(Do(s, t, a).value, u) == PhaseOf(s, u)
  {
  }

  lemma LockDescriptionKeeps(f: Shared, s: Sys, t: Tid, c: Call)
    requires Inv(f, s) && Do(s, t, LockDescription(c)).Some?
    ensures Inv(f, Do(s, t, LockDescription(c)).value)
  {
    var s' := Do(s, t, LockDescription(c)).value;
    OthersStay(s, t, LockDescription(c));
    assert PhaseOf(s', t) == Waiting(c, OffsetOf(s.shared, c));
  }

  lemma LockFileKeeps(f: Shared, s: Sys, t: Tid)
    requires Inv(f, s) && Do(s, t, LockFile).Some?
    ensures Inv(f, Do(s, t, LockFile).value)
  {
    LockFileKeepsLocks(s, t);
    LockFileKeepsLatches(s, t);
    LockFileIsSerial(f, s, t);
  }

  lemma LockFileKeepsLocks(s: Sys, t: Tid)
    requires LocksOk(s) && Do(s, t, LockFile).Some?
    ensures LocksOk(Do(s, t, LockFile).value)
  {
    OthersStay(s, t, LockFile);
    assert Holds(PhaseOf(s, t), PhaseOf(s, t).call.desc);
  }

  lemma LockFileKeepsLatches(s: Sys, t: Tid)
    requires LocksOk(s) && LatchesOk(s) && Do(s, t, LockFile).Some?
    ensures LatchesOk(Do(s, t, LockFile).value)
  {
    var s' := Do(s, t, LockFile).value;
    OthersStay(s, t, LockFile);
    var c := PhaseOf(s, t).call;
    assert Holds(PhaseOf(s, t), c.desc);
    assert forall d: Desc :: d != c.desc ==> Pos(s'.shared, d) == Pos(s.shared, d);
    forall u: Tid | PhaseOf(s', u).Waiting? && !PhaseOf(s', u).call.Write?
      ensures PhaseOf(s', u).latched == OffsetOf(s'.shared, PhaseOf(s', u).call)
    {
      OnlyHolder(s, t, u, c.desc);
    }
  }

  lemma LockFileIsSerial(f: Shared, s: Sys, t: Tid)
    requires LatchesOk(s) && SerialOk(f, s) && Do(s, t, LockFile).Some?
    ensures SerialOk(f, Do(s, t, LockFile).value)
  {
    var s' := Do(s, t, LockFile).value;
    var c := PhaseOf(s, t).call;
    assert PhaseOf(s', t).job == Work(c, OffsetOf(s'.shared, c), Todo(c));
  }

  /** Two threads never hold the same description. */
  lemma OnlyHolder(s: Sys, t: Tid, u: Tid, d: Desc)
    requires LocksOk(s) && Holds(PhaseOf(s, t), d) && u != t
    ensures !Holds(PhaseOf(s, u), d)
  {
    HolderIsRecorded(s, t, d);
    HolderIsRecorded(s, u, d);
  }

  lemma HolderIsRecorded(s: Sys, t: Tid, d: Desc)
    requires LocksOk(s)
    ensures Holds(PhaseOf(s, t), d) ==> d in s.descLocks && s.descLocks[d] == t
  {
    var h := Holds(PhaseOf(s, t), d);
  }

  lemma DoTurnKeeps(f: Shared, s: Sys, t: Tid)
    requires Inv(f, s) && Do(s, t, DoTurn).Some?
    ensures Inv(f, Do(s, t, DoTurn).value)
  {
    TurnCompletes(s.shared, PhaseOf(s, t).job);
    OneTurn(s, t);
    OneTurnKeepsLocks(s, t);
  }

  lemma OneTurnKeepsLocks(s: Sys, t: Tid)
    requires LocksOk(s) && LatchesOk(s) && Do(s, t, DoTurn).Some?
    ensures LocksOk(Do(s, t, DoTurn).value) && LatchesOk(Do(s, t, DoTurn).value)
  {
    OneTurn(s, t);
    OthersStay(s, t, DoTurn);
    var s' := Do(s, t, DoTurn).value;
    forall u: Tid, d: Desc ensures Holds(PhaseOf(s', u), d) <==> Holds(PhaseOf(s, u), d) {
    }
  }

  lemma OneTurn(s: Sys, t: Tid)
    requires Do(s, t, DoTurn).Some?
    ensures var s' := Do(s, t, DoTurn).value;
      && PhaseOf(s, t).Busy? && PhaseOf(s', t) == Busy(Turn(s.shared, PhaseOf(s, t).job).1)
      && PhaseOf(s', t).job.call == PhaseOf(s, t).job.call
      && s'.shared == Turn(s.shared, PhaseOf(s, t).job).0 && s'.shared.pos == s.shared.pos
      && s'.descLocks == s.descLocks && s'.fileLock == s.fileLock && s'.log == s.log && s'.order == s.order
  {
  }

  lemma FinishKeeps(f: Shared, s: Sys, t: Tid)
    requires Inv(f, s) && Do(s, t, Finish).Some?
    ensures Inv(f, Do(s, t, Finish).value)
  {
    var s' := Do(s, t, Finish).value;
    OthersStay(s, t, Finish);
    var j := PhaseOf(s, t).job;
    assert Holds(PhaseOf(s, t), j.call.desc);
    assert Calls(s'.log) == Calls(s.log) + [j.call];
    ReplaySnoc(f, Calls(s.log), j.call);
    assert Complete(s.shared, j) == (s'.shared, j.rest.answer);
    FinishKeepsLocks(s, t);
    forall i | 0 <= i < |s'.log|
      ensures s'.log[i].answer == Exec(Replay(f, Calls(s'.log)[..i]), s'.log[i].call).1
    {
      assert Calls(s'.log)[..i] == Calls(s.log)[..i];
      if i == |s.log| {
        assert Calls(s.log)[..i] == Calls(s.log);
      }
    }
  }

  lemma FinishKeepsLocks(s: Sys, t: Tid)
    requires LocksOk(s) && LatchesOk(s) && Do(s, t, Finish).Some?
    ensures LocksOk(Do(s, t, Finish).value) && LatchesOk(Do(s, t, Finish).value)
  {
    var s' := Do(s, t, Finish).value;
    OthersStay(s, t, Finish);
    var j := PhaseOf(s, t).job;
    assert Holds(PhaseOf(s, t), j.call.desc);
    assert forall d: Desc :: d != j.call.desc ==> Pos(s'.shared, d) == Pos(s.shared, d);
    forall u: Tid | PhaseOf(s', u).Waiting? && !PhaseOf(s', u).call.Write?
      ensures PhaseOf(s', u).latched == OffsetOf(s'.shared, PhaseOf(s', u).call)
    {
      OnlyHolder(s, t, u, j.call.desc);
    }
  }

  lemma UnlockDescriptionKeeps(f: Shared, s: Sys, t: Tid)
    requires Inv(f, s) && Do(s, t, UnlockDescription).Some?
    ensures Inv(f, Do(s, t, UnlockDescription).value)
  {
    OthersStay(s, t, UnlockDescription);
    UnlockKeepsLocks(s, t);
  }

  lemma UnlockKeepsLocks(s: Sys, t: Tid)
    requires LocksOk(s) && Do(s, t, UnlockDescription).Some?
    ensures LocksOk(Do(s, t, UnlockDescription).value)
  {
    var s' := Do(s, t, UnlockDescription).value;
    OthersStay(s, t, UnlockDescription);
    var d := PhaseOf(s, t).desc;
    assert Holds(PhaseOf(s, t), d);
    forall u: Tid | u != t ensures !Holds(PhaseOf(s', u), d) {
      OnlyHolder(s, t, u, d);
    }
    assert PhaseOf(s', t) == Idle;
  }

  lemma {:induction false} RunKeeps(f: Shared, moves: seq<Move>)
    ensures Inv(f, Run(Start(f), moves))
  {
    if moves == [] {
      assert Calls([]) == [];
    } else {
      var before := Run(Start(f), moves[..|moves| - 1]);
      var m := moves[|moves| - 1];
      RunKeeps(f, moves[..|moves| - 1]);
      if Do(before, m.tid, m.action).Some? {
        match m.action
        case LockDescription(c) => LockDescriptionKeeps(f, before, m.tid, c);
        case LockFile => LockFileKeeps(f, before, m.tid);
        case DoTurn => DoTurnKeeps(f, before, m.tid);
        case Finish => FinishKeeps(f, before, m.tid);
        case UnlockDescription => UnlockDescriptionKeeps(f, before, m.tid);
      }
    }
  }

  /**
   After any schedule, every finished call has given the answer it gives when the calls are made one at a time in the
   order in which they took the file lock; and whenever no call holds the file lock, the bytes and positions are those
   of that serial run.
   */
  lemma CallsAreAtomic(f: Shared, moves: seq<Move>)
    ensures var s := Run(Start(f), moves);
      && Calls(s.log) <= s.order && |s.order| <= |s.log| + 1
      && (forall i | 0 <= i < |s.log| :: s.log[i].answer == Exec(Replay(f, s.order[..i]), s.order[i]).1)
      && (s.fileLock.None? ==> s.order == Calls(s.log) && s.shared == Replay(f, s.order))
  {
    var s := Run(Start(f), moves);
    RunKeeps(f, moves);
    forall i | 0 <= i < |s.log|
      ensures i < |s.order| && s.log[i].answer == Exec(Replay(f, s.order[..i]), s.order[i]).1
    {
      assert s.order[..i] == Calls(s.log)[..i];
    }
  }

  /** The locks never stand in each other's way: unless all threads are idle, one of them can move. */
  lemma NoDeadlock(f: Shared, moves: seq<Move>, t: Tid) returns (u: Tid, a: Action)
    requires !PhaseOf(Run(Start(f), moves), t).Idle?
    ensures Do(Run(Start(f), moves), u, a).Some?
  {
    var s := Run(Start(f), moves);
    RunKeeps(f, moves);
    u := if s.fileLock.Some? then s.fileLock.value else t;
    a := match PhaseOf(s, u)
      case Busy(j) => if j.rest.Over? then Finish else DoTurn
      case Leaving(_) => UnlockDescription
      case _ => LockFile;
  }

  /** An appending write that fits puts its bytes, whole, at the end of the file as the calls before it left it. */
  lemma AppendsAreWhole(f: Shared, calls: seq<Call>, i: nat)
    requires i < |calls| && calls[i].Write? && calls[i].desc in f.appends && NoNulls(calls[i].data)
    requires |Replay(f, calls[..i]).bytes| + |Concat(calls[i].data)| <= f.max
    ensures Replay(f, calls[..i + 1]).bytes == Replay(f, calls[..i]).bytes + Concat(calls[i].data)
  {
    var c := calls[i];
    var before := Replay(f, calls[..i]);
    assert calls[..i + 1] == calls[..i] + [c];
    ReplaySnoc(f, calls[..i], c);
    ReplayKeepsFlags(f, calls[..i]);
    AppendOnly(before.bytes, c.data, f.max);
  }

  lemma AppendOnly(c: seq<Byte>, iovs: seq<Ciovec>, max: nat)
    requires NoNulls(iovs) && |c| + |Concat(iovs)| <= max
    ensures WriteLoop(c, iovs, |c|, max, 0) == (c + Concat(iovs), Ok(|Concat(iovs)|))
  {
    if iovs != [] {
      VectoredWriteIsFlat(c, iovs, |c|, max);
      WriteIs(c, Concat(iovs), |c|, max, c + Concat(iovs));
    } else {
      assert c + [] == c;
    }
  }

  lemma {:induction false} ReplayKeepsFlags(f: Shared, calls: seq<Call>)
    ensures Replay(f, calls).appends == f.appends && Replay(f, calls).max == f.max
  {
    if calls != [] {
      ReplayKeepsFlags(f, calls[..|calls| - 1]);
    }
  }

  /** A read that meets no null pointer is one flat read of the file as the calls before it left it. */
  lemma {:induction false} ReadRunIsFlat(c: seq<Byte>, iovs: seq<Iovec>, off: nat, acc: seq<Byte>)
    requires forall i | 0 <= i < |iovs| :: iovs[i].isNull ==> iovs[i].len == 0
    ensures ReadRun(c, iovs, off, acc) == Ok(acc + ReadOne(c, Room(iovs), off + |acc|))
    decreases |iovs|
  {
    if iovs == [] {
      assert ReadOne(c, 0, off + |acc|) == [] && acc + [] == acc;
    } else {
      var piece := ReadOne(c, iovs[0].len, off + |acc|);
      ReadOneMore(c, iovs[0].len, Room(iovs[1..]), off, acc);
      if |piece| == iovs[0].len {
        ReadRunIsFlat(c, iovs[1..], off, acc + piece);
      }
    }
  }

  lemma ReadOneMore(c: seq<Byte>, a: nat, b: nat, off: nat, acc: seq<Byte>)
    ensures var piece := ReadOne(c, a, off + |acc|); var all := acc + ReadOne(c, a + b, off + |acc|);
      if |piece| < a then all == acc + piece
      else |piece| == a && all == acc + piece + ReadOne(c, b, off + |acc + piece|)
  {
    ReadJoins(c, a, b, off + |acc|);
    Regroup(acc, ReadOne(c, a, off + |acc|), ReadOne(c, b, off + |acc| + a));
  }

  lemma Regroup(x: seq<Byte>, y: seq<Byte>, z: seq<Byte>)
    ensures x + (y + z) == x + y + z && |x + y| == |x| + |y|
  {
  }

  predicate IsRead(c: Call) {
    c.Read? || c.Pread?
  }

  /** A read that meets no null pointer is one flat read of the file as the calls before it left it. */
  lemma ReadsAreFlat(f: Shared, calls: seq<Call>, i: nat)
    requires i < |calls| && IsRead(calls[i])
    requires forall k | 0 <= k < |calls[i].into| :: calls[i].into[k].isNull ==> calls[i].into[k].len == 0
    ensures var before := Replay(f, calls[..i]);
      Exec(before, calls[i]).1 ==
        Got(Ok(ReadOne(before.bytes, Room(calls[i].into), OffsetOf(before, calls[i]))))
  {
    var before := Replay(f, calls[..i]);
    var off := OffsetOf(before, calls[i]);
    ReadRunIsFlat(before.bytes, calls[i].into, off, []);
    var data := ReadOne(before.bytes, Room(calls[i].into), off);
    assert [] + data == data;
  }
}
