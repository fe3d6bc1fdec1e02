/**
 Directory listings: the entries cached when a directory is opened, and the calls that hand them out piece by piece
 while the tree changes underneath.
 */
module Dirents {
  import opened Common
  import opened Trees
  import opened PathLaws
  import opened Syscalls
  import opened Runs
  import opened FileSystem

  datatype Dirent = Dirent(name: string, kind: FileKind, ino: Ino)

  /** What `getdents` stores for one entry. */
  datatype Record = Record(entry: Dirent, off: nat)

  function KindOf(t: Tree, i: Ino): FileKind {
    if i !in t.nodes then DataKind
    else match t.nodes[i].body case Data => DataKind case Dir(_) => DirectoryKind case Link(_) => SymlinkKind
  }

  function Listing(t: Tree, es: seq<Entry>): (s: seq<Dirent>)
    ensures |s| == |es|
    ensures forall k | 0 <= k < |es| :: s[k] == Dirent(es[k].name, KindOf(t, es[k].child), es[k].child)
  {
    if es == [] then [] else [Dirent(es[0].name, KindOf(t, es[0].child), es[0].child)] + Listing(t, es[1..])
  }

  /** The list cached by `OpenFileState::create` for a linked directory. */
  function Snapshot(t: Tree, d: Ino): seq<Dirent>
    requires Linked(t, d)
  {
    [Dirent(".", DirectoryKind, d), Dirent("..", DirectoryKind, t.nodes[d].parent.value)] + Listing(t, Entries(t, d))
  }

  predicate NamesDiffer(s: seq<Dirent>) {
    forall j, k | 0 <= j < k < |s| :: s[j].name != s[k].name
  }

  /** After "." and ".." a snapshot lists exactly the entries of the directory. */
  lemma ListingHasTheEntries(t: Tree, d: Ino, e: Entry)
    ensures e in Entries(t, d) <==> Dirent(e.name, KindOf(t, e.child), e.child) in Listing(t, Entries(t, d))
  {
    var es, x := Entries(t, d), Dirent(e.name, KindOf(t, e.child), e.child);
    if e in es {
      var k :| 0 <= k < |es| && es[k] == e;
      assert Listing(t, es)[k] == x;
    }
    if x in Listing(t, es) {
      var k :| 0 <= k < |es| && Listing(t, es)[k] == x;
      assert es[k] == e;
    }
  }

  /** First the directory itself, then its parent, then the entries in their order, each with the kind of its file. */
  lemma SnapshotIs(t: Tree, d: Ino, k: nat)
    requires Shape(t) && Linked(t, d)
    ensures var s, es := Snapshot(t, d), Entries(t, d);
      && |s| == |es| + 2 && s[0] == Dirent(".", DirectoryKind, d)
      && s[1].name == ".." && s[1].kind == DirectoryKind && t.nodes[d].parent == Some(s[1].ino)
      && (k < |es| ==>
            && s[k + 2].name == es[k].name && s[k + 2].ino == es[k].child
            && (s[k + 2].kind == DirectoryKind <==> IsDir(t, es[k].child))
            && (s[k + 2].kind == SymlinkKind <==> IsLink(t, es[k].child)))
  {
  }

  /** No name comes twice in a snapshot, unless an entry is called ".". */
  lemma SnapshotNamesDiffer(t: Tree, d: Ino)
    requires Shape(t) && NameShape(t) && Linked(t, d)
    ensures NamesDiffer(Snapshot(t, d)) <==> FindName(Entries(t, d), ".").None?
  {
    var es, s := Entries(t, d), Snapshot(t, d);
    assert Distinct(es);
    FindNameIsMembership(es, ".");
    assert forall k | 2 <= k < |s| :: s[k].name == es[k - 2].name && es[k - 2] in es;
    if FindName(es, ".").Some? {
      assert Entry(".", FindName(es, ".").value) in es;
      var k :| 0 <= k < |es| && es[k].name == ".";
      assert s[k + 2].name == s[0].name;
    }
  }

  // ---------- the open directory ----------

  /** An `OpenFileState`, as far as directory reading is concerned. */
  class DirDescription {
    const file: File
    const dirents: seq<Dirent>
    var position: nat

    constructor (file: File, dirents: seq<Dirent>)
      ensures this.file == file && this.dirents == dirents && position == 0
    {
      this.file, this.dirents, this.position := file, dirents, 0;
    }

    /** `getdents`, for records of `recordSize` bytes. */
    method GetDents(count: nat, recordSize: nat) returns (r: Result<seq<Record>>)
      requires recordSize > 0
      modifies this`position
      ensures r.Err? <==> count / recordSize == 0 || file.kind != DirectoryKind
      ensures r.Err? ==> r.error == if count / recordSize == 0 then EINVAL else ENOTDIR
      ensures r.Err? ==> position == old(position)
      ensures r.Ok? ==>
        && position == old(position) + |r.value|
        && (forall k | 0 <= k < |r.value| :: r.value[k].off == old(position) + k + 1)
        && EntriesOf(r.value) == Batch(dirents, file.parent != null, old(position), count / recordSize)
    {
      if count / recordSize == 0 {
        return Err(EINVAL);
      }
      if file.kind != DirectoryKind {
        return Err(ENOTDIR);
      }
      if file.parent == null {
        return Ok([]);
      }
      var result := Fill(count, recordSize);
      return Ok(result);
    }

    /** The loop of `getdents`. */
    method Fill(count: nat, recordSize: nat) returns (result: seq<Record>)
      requires recordSize > 0
      modifies this`position
      ensures position == old(position) + |result|
      ensures forall k | 0 <= k < |result| :: result[k].off == old(position) + k + 1
      ensures EntriesOf(result) == Batch(dirents, true, old(position), count / recordSize)
    {
      var index, bytesRead := position, 0;
      result := [];
      ghost var room := count / recordSize;
      while index < |dirents| && bytesRead + recordSize <= count
        invariant position == old(position) && bytesRead <= count
        invariant |result| + room == count / recordSize && room == (count - bytesRead) / recordSize
        invariant index == position + |result| && (index <= |dirents| || result == [])
        invariant forall k | 0 <= k < |result| :: result[k] == Record(dirents[position + k], position + k + 1)
        decreases |dirents| - index
      {
        OneLess(count - bytesRead, recordSize);
        room := room - 1;
        result := result + [Record(dirents[index], index + 1)];
        bytesRead := bytesRead + recordSize;
        index := index + 1;
      }
      if count - bytesRead < recordSize {
        NoRoom(count - bytesRead, recordSize);
      }
      RecordsAreTheBatch(dirents, position, result, count / recordSize);
      position := index;
    }
  }

  /** One record less fits into so many bytes less. */
  lemma OneLess(count: nat, size: nat)
    requires size > 0 && count >= size
    ensures count / size == 1 + (count - size) / size
  {
    var d := count / size - 1 - (count - size) / size;
    assert d * size == (count - size) % size - count % size;
    assert (d >= 1 ==> d * size >= size) && (d <= -1 ==> d * size + size <= 0);
  }

  lemma NoRoom(count: nat, size: nat)
    requires count < size
    ensures count / size == 0
  {
  }

  function EntriesOf(rs: seq<Record>): (s: seq<Dirent>)
    ensures |s| == |rs| && forall k | 0 <= k < |rs| :: s[k] == rs[k].entry
  {
    if rs == [] then [] else [rs[0].entry] + EntriesOf(rs[1..])
  }

  /** The entries one call hands out: as many as fit, from the position on, and none once the directory is detached. */
  function Batch(dirents: seq<Dirent>, linked: bool, pos: nat, fit: nat): seq<Dirent> {
    if !linked || pos >= |dirents| then []
    else if pos + fit <= |dirents| then dirents[pos..pos + fit] else dirents[pos..]
  }

  lemma RecordsAreTheBatch(dirents: seq<Dirent>, pos: nat, rs: seq<Record>, fit: nat)
    requires pos + |rs| <= |dirents| || rs == []
    requires forall k | 0 <= k < |rs| :: rs[k] == Record(dirents[pos + k], pos + k + 1)
    requires |rs| <= fit && (|rs| < fit ==> pos + |rs| >= |dirents|)
    ensures EntriesOf(rs) == Batch(dirents, true, pos, fit)
  {
  }

  lemma DirentAt(fs: WasmFS, dir: File, k: nat)
    requires fs.Coupled() && fs.KnownDir(dir) && k < |dir.entries| && dir.KeysOk() && dir.parent != null
    ensures var e := dir.entries[k];
      var s := Snapshot(fs.tree, dir.ino);
      k + 2 < |s| && s[k + 2] == Dirent(e.name, e.child.kind, e.child.ino)
  {
    fs.NodeFacts(dir);
    fs.NodeFacts(dir.entries[k].child);
  }

  /** The loop of `getEntries`, and the two names put before it. */
  method OpenDirectory(fs: WasmFS, dir: File) returns (o: DirDescription)
    requires fs.Coupled() && fs.KnownDir(dir) && dir.parent != null
    ensures fresh(o) && o.file == dir && o.position == 0
    ensures Linked(fs.tree, dir.ino) && o.dirents == Snapshot(fs.tree, dir.ino)
  {
    fs.NodeFacts(dir);
    var dirents := [Dirent(".", DirectoryKind, dir.ino), Dirent("..", DirectoryKind, dir.parent.ino)];
    ghost var whole := Snapshot(fs.tree, dir.ino);
    var k := 0;
    while k < |dir.entries|
      invariant k <= |dir.entries| && |dirents| == k + 2 && forall j | 0 <= j < k + 2 :: dirents[j] == whole[j]
    {
      DirentAt(fs, dir, k);
      var entry := dir.entries[k];
      dirents := dirents + [Dirent(entry.name, entry.child.kind, entry.child.ino)];
      k := k + 1;
    }
    o := new DirDescription(dir, dirents);
  }

  // ---------- a series of calls ----------

  /** What may happen while a directory is open: any call on the tree, or a `getdents` with room for `fit` records. */
  datatype Event = Sys(call: Call) | GetDents(fit: nat)

  /** The tree at the end, the entries handed out, and the room the calls had for entries. */
  datatype Progress = Progress(tree: Tree, seen: seq<Dirent>, room: nat)

  /** A run while the directory is open. A fault ends it. */
  ghost function Watch(t: Tree, d: Ino, dirents: seq<Dirent>, pos: nat, run: seq<Event>): Progress
    requires Shape(t)
    decreases run
  {
    if run == [] then Progress(t, [], 0)
    else match run[0]
      case Sys(c) =>
        ApplyKeeps(t, c);
        if Apply(t, c).1 == Fault then Progress(t, [], 0) else Watch(Apply(t, c).0, d, dirents, pos, run[1..])
      case GetDents(fit) =>
        var batch := Batch(dirents, Linked(t, d), pos, fit);
        var rest := Watch(t, d, dirents, pos + |batch|, run[1..]);
        Progress(rest.tree, batch + rest.seen, fit + rest.room)
  }

  lemma StepKeeps(t: Tree, c: Call, i: Ino)
    requires Shape(t) && i in t.nodes
    ensures Shape(Apply(t, c).0) && i in Apply(t, c).0.nodes && (!Linked(t, i) ==> !Linked(Apply(t, c).0, i))
  {
    ApplyKeeps(t, c);
  }

  /** A detached directory stays detached and its descriptions hand out nothing. */
  lemma {:induction false} DetachedListsNothing(t: Tree, d: Ino, dirents: seq<Dirent>, pos: nat, run: seq<Event>)
    requires Shape(t) && d in t.nodes && !Linked(t, d)
    ensures var p := Watch(t, d, dirents, pos, run); p.seen == [] && !Linked(p.tree, d)
    decreases run
  {
    if run != [] {
      match run[0]
      case Sys(c) =>
        StepKeeps(t, c, d);
        if Apply(t, c).1 != Fault {
          DetachedListsNothing(Apply(t, c).0, d, dirents, pos, run[1..]);
        }
      case GetDents(fit) =>
        DetachedListsNothing(t, d, dirents, pos, run[1..]);
    }
  }

  /**
   If the directory is still linked at the end, the calls together hand out the cached list from the position on, in
   order, as far as they had room, whatever was inserted, removed or renamed between them.
   */
  lemma {:induction false} BatchesAreTheSnapshot(t: Tree, d: Ino, dirents: seq<Dirent>, pos: nat, run: seq<Event>)
    requires Shape(t) && d in t.nodes && Linked(Watch(t, d, dirents, pos, run).tree, d) && pos <= |dirents|
    ensures var p := Watch(t, d, dirents, pos, run); p.seen == Batch(dirents, true, pos, p.room)
    decreases run
  {
    if !Linked(t, d) {
      DetachedListsNothing(t, d, dirents, pos, run);
    } else if run != [] && run[0].Sys? {
      var t' := WatchCall(t, d, dirents, pos, run);
      if Apply(t, run[0].call).1 != Fault {
        BatchesAreTheSnapshot(t', d, dirents, pos, run[1..]);
      }
    } else if run != [] {
      var next := pos + |Batch(dirents, true, pos, run[0].fit)|;
      var rest := WatchGets(t, d, dirents, pos, run, next);
      BatchesJoin(dirents, pos, run[0].fit, rest.room);
      BatchesAreTheSnapshot(t, d, dirents, next, run[1..]);
    }
  }

  lemma WatchCall(t: Tree, d: Ino, dirents: seq<Dirent>, pos: nat, run: seq<Event>) returns (t': Tree)
    requires Shape(t) && d in t.nodes && run != [] && run[0].Sys?
    ensures t' == Apply(t, run[0].call).0 && Shape(t') && d in t'.nodes
    ensures Watch(t, d, dirents, pos, run) ==
      if Apply(t, run[0].call).1 == Fault then Progress(t, [], 0) else Watch(t', d, dirents, pos, run[1..])
  {
    t' := Apply(t, run[0].call).0;
    StepKeeps(t, run[0].call, d);
  }

  lemma WatchGets(t: Tree, d: Ino, dirents: seq<Dirent>, pos: nat, run: seq<Event>, next: nat) returns (rest: Progress)
    requires Shape(t) && Linked(t, d) && run != [] && run[0].GetDents?
    requires next == pos + |Batch(dirents, true, pos, run[0].fit)|
    ensures rest == Watch(t, d, dirents, next, run[1..])
    ensures Watch(t, d, dirents, pos, run) ==
      Progress(rest.tree, Batch(dirents, true, pos, run[0].fit) + rest.seen, run[0].fit + rest.room)
  {
    rest := Watch(t, d, dirents, next, run[1..]);
  }

  lemma BatchesJoin(dirents: seq<Dirent>, pos: nat, a: nat, b: nat)
    requires pos <= |dirents|
    ensures var batch := Batch(dirents, true, pos, a);
      pos + |batch| <= |dirents| &&
      batch + Batch(dirents, true, pos + |batch|, b) == Batch(dirents, true, pos, a + b)
  {
  }

  /**
   With room for all of it, reading an open directory to its end gives exactly ".", ".." and the entries of the moment
   it was opened, and one more call gives nothing.
   */
  lemma ListingIsComplete(t: Tree, d: Ino, run: seq<Event>, fit: nat)
    requires Shape(t) && IsDir(t, d) && Linked(t, d)
    requires var p := Watch(t, d, Snapshot(t, d), 0, run); Linked(p.tree, d) && p.room >= |Snapshot(t, d)|
    ensures var s := Snapshot(t, d); var p := Watch(t, d, s, 0, run);
      p.seen == s && Batch(s, Linked(p.tree, d), |p.seen|, fit) == []
  {
    BatchesAreTheSnapshot(t, d, Snapshot(t, d), 0, run);
  }
}
