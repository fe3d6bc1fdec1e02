/**
 Sequences of calls on the objects: every run of a program on the object graph is a run of calls on the tree, so what
 holds after every run of the tree holds of the objects.
 */
module Sessions {
  import opened Common
  import opened Trees
  import opened Resolve
  import opened Syscalls
  import opened Runs
  import opened FileSystem

  /** The directory a path starts from: the working directory, or an open descriptor. */
  datatype At = Cwd | Fd(fd: nat)

  datatype Request =
    | Mkdir(at: At, path: string, canRead: bool, canWrite: bool)
    | Symlink(target: string, at: At, path: string)
    | Open(at: At, path: string, flags: OpenFlags, canRead: bool, canWrite: bool, wantFd: bool)
    | Unlink(at: At, path: string, removeDir: bool)
    | Rename(at: At, path: string, newAt: At, newPath: string)
    | Chmod(at: At, path: string, links: LinkBehavior, canRead: bool, canWrite: bool)
    | Chdir(path: string)

  /** What a program sees: the tree, its working directory and the files it opened. Nothing runs after a fault. */
  datatype Session = Session(tree: Tree, cwd: Ino, open: seq<Ino>, down: bool)

  function BaseOf(p: Session, at: At): Option<Ino> {
    match at
    case Cwd => Some(p.cwd)
    case Fd(k) => if k < |p.open| then Some(p.open[k]) else None
  }

  /** The second directory of a rename; the other requests have one. */
  function OtherAt(q: Request): At
    requires !q.Chdir?
  {
    if q.Rename? then q.newAt else q.at
  }

  /** The call on the tree that a request comes to, given its directories. */
  function Made(q: Request, base: Ino, newBase: Ino): Call
    requires !q.Chdir?
  {
    match q
    case Mkdir(_, path, r, w) => CMkdir(base, path, r, w)
    case Symlink(target, _, path) => CSymlink(target, base, path)
    case Open(_, path, flags, r, w, wantFd) => COpen(base, path, flags, r, w, wantFd)
    case Unlink(_, path, removeDir) => CUnlink(base, path, removeDir)
    case Rename(_, path, _, newPath) => CRename(base, path, newBase, newPath)
    case Chmod(_, path, links, r, w) => CChmod(base, path, links, r, w)
  }

  /** There is no call if a descriptor is not open, and none for chdir. */
  function CallOf(p: Session, q: Request): Option<Call> {
    if q.Chdir? || BaseOf(p, q.at).None? || BaseOf(p, OtherAt(q)).None? then None
    else Some(Made(q, BaseOf(p, q.at).value, BaseOf(p, OtherAt(q)).value))
  }

  ghost function Step(p: Session, q: Request): (r: (Session, Outcome))
    requires Shape(p.tree)
    ensures Shape(r.0.tree)
  {
    match CallOf(p, q)
    case None => if q.Chdir? then ChangeDir(p, q.path) else (p, Fail(EBADF))
    case Some(c) =>
      ApplyKeeps(p.tree, c);
      var r := Apply(p.tree, c);
      (Session(r.0, p.cwd, Descriptors(p.open, r.1), r.1 == Fault), r.1)
  }

  /** A call that opens a file adds a descriptor. */
  function Descriptors(open: seq<Ino>, out: Outcome): seq<Ino> {
    if out.Opened? then open + [out.file] else open
  }

  /** Descriptors stay what they are, an opened file gets the next one, and only chdir moves the working directory. */
  lemma StepKeepsDescriptors(p: Session, q: Request)
    requires Shape(p.tree) && !p.down
    ensures var r := Step(p, q);
      && |p.open| <= |r.0.open| <= |p.open| + 1 && r.0.open[..|p.open|] == p.open
      && (|r.0.open| > |p.open| <==> r.1.Opened?)
      && (r.1.Opened? ==> r.0.open[|p.open|] == r.1.file)
      && (!q.Chdir? ==> r.0.cwd == p.cwd)
      && (q.Chdir? ==>
            && r.0.tree == p.tree
            && (r.1 == Done <==>
                  ParseFileAt(p.tree, p.cwd, q.path, FollowLinks) == Ok(r.0.cwd) && IsDir(p.tree, r.0.cwd)))
      && (r.0.down <==> r.1 == Fault)
  {
  }

  function ChangeDir(p: Session, path: string): (Session, Outcome) {
    match ParseFileAt(p.tree, p.cwd, path, FollowLinks)
    case Err(e) => (p, Fail(e))
    case Ok(i) => if IsDir(p.tree, i) then (p.(cwd := i), Done) else (p, Fail(ENOTDIR))
  }

  ghost function RunOf(p: Session, qs: seq<Request>): Session
    requires Shape(p.tree)
    decreases qs
  {
    if qs == [] || p.down then p else RunOf(Step(p, qs[0]).0, qs[1..])
  }

  /** The calls on the tree that a program makes. */
  ghost function CallsOf(p: Session, qs: seq<Request>): seq<Call>
    requires Shape(p.tree)
    decreases qs
  {
    if qs == [] || p.down then []
    else (match CallOf(p, qs[0]) case None => [] case Some(c) => [c]) + CallsOf(Step(p, qs[0]).0, qs[1..])
  }

  /** A program does to the tree what the run of its calls does. */
  lemma {:induction false} ProgramIsARun(p: Session, qs: seq<Request>)
    requires Shape(p.tree) && !p.down
    ensures RunOf(p, qs).tree == After(p.tree, CallsOf(p, qs))
    decreases qs
  {
    if qs != [] {
      var next := Step(p, qs[0]).0;
      if CallOf(p, qs[0]).Some? {
        var c := CallOf(p, qs[0]).value;
        var rest := CallsOf(next, qs[1..]);
        assert CallsOf(p, qs) == [c] + rest;
        assert ([c] + rest)[0] == c && ([c] + rest)[1..] == rest;
        ApplyKeeps(p.tree, c);
      } else {
        assert CallsOf(p, qs) == CallsOf(next, qs[1..]);
      }
      if !next.down {
        ProgramIsARun(next, qs[1..]);
      }
    }
  }

  // ---------- on objects ----------

  function Inos(open: seq<File>): (s: seq<Ino>)
    ensures |s| == |open| && forall k | 0 <= k < |open| :: s[k] == open[k].ino
  {
    if open == [] then [] else Inos(open[..|open| - 1]) + [open[|open| - 1].ino]
  }

  ghost predicate AllKnown(fs: WasmFS, open: seq<File>)
    reads fs`files
  {
    forall k | 0 <= k < |open| :: fs.Knows(open[k])
  }

  ghost function SessionOf(fs: WasmFS, open: seq<File>, down: bool): Session
    reads fs`tree, fs`cwd, fs.cwd
  {
    Session(fs.tree, fs.cwd.ino, Inos(open), down)
  }

  function Base(fs: WasmFS, open: seq<File>, at: At): (f: File?)
    reads fs`cwd
  {
    match at
    case Cwd => fs.cwd
    case Fd(k) => if k < |open| then open[k] else null
  }

  lemma BaseIs(fs: WasmFS, open: seq<File>, at: At)
    requires fs.Coupled() && AllKnown(fs, open)
    ensures var f := Base(fs, open, at); var i := BaseOf(SessionOf(fs, open, false), at);
      if f == null then i.None? else fs.Knows(f) && i == Some(f.ino)
  {
  }

  /** One request, and the descriptors after it. */
  method Serve(fs: WasmFS, open: seq<File>, q: Request) returns (out: Outcome, open': seq<File>)
    requires fs.Valid() && AllKnown(fs, open)
    modifies fs`files, fs`tree, fs`nextIno, fs`cwd, fs.files.Values
    ensures fs.Valid() && fs.Grew() && AllKnown(fs, open')
    ensures (SessionOf(fs, open', out == Fault), out) == Step(old(SessionOf(fs, open, false)), q)
  {
    if q.Chdir? {
      open' := open;
      out := ServeChdir(fs, open, q.path);
    } else {
      out, open' := ServeCall(fs, open, q);
    }
  }

  method ServeChdir(fs: WasmFS, open: seq<File>, path: string) returns (out: Outcome)
    requires fs.Valid() && AllKnown(fs, open)
    modifies fs`cwd
    ensures fs.Valid() && (SessionOf(fs, open, out == Fault), out) == ChangeDir(old(SessionOf(fs, open, false)), path)
  {
    out := fs.Chdir(fs.cwd, path);
  }

  method ServeCall(fs: WasmFS, open: seq<File>, q: Request) returns (out: Outcome, open': seq<File>)
    requires fs.Valid() && AllKnown(fs, open) && !q.Chdir?
    modifies fs`files, fs`tree, fs`nextIno, fs.files.Values
    ensures fs.Valid() && fs.Grew() && AllKnown(fs, open')
    ensures (SessionOf(fs, open', out == Fault), out) == Step(old(SessionOf(fs, open, false)), q)
  {
    ghost var p := SessionOf(fs, open, false);
    BaseIs(fs, open, q.at);
    BaseIs(fs, open, OtherAt(q));
    var base, newBase := Base(fs, open, q.at), Base(fs, open, OtherAt(q));
    if base == null || newBase == null {
      NotOpen(p, q);
      out, open' := Fail(EBADF), open;
    } else {
      out, open' := Execute(fs, open, base, newBase, q);
      StepIs(p, q, base.ino, newBase.ino, fs.tree, out);
    }
  }

  /** An opened file gets the next descriptor. */
  function WithFile(open: seq<File>, out: Outcome, file: File?): (open': seq<File>)
    requires out.Opened? ==> file != null && file.ino == out.file
    ensures Inos(open') == Descriptors(Inos(open), out)
  {
    if out.Opened?
    then
      var f: File := file;
      assert (open + [f])[..|open|] == open;
      open + [f]
    else open
  }

  lemma NotOpen(p: Session, q: Request)
    requires Shape(p.tree) && !q.Chdir? && CallOf(p, q).None?
    ensures Step(p, q) == (p, Fail(EBADF))
  {
  }

  lemma StepIs(p: Session, q: Request, base: Ino, newBase: Ino, t: Tree, out: Outcome)
    requires Shape(p.tree) && !q.Chdir? && BaseOf(p, q.at) == Some(base) && BaseOf(p, OtherAt(q)) == Some(newBase)
    requires (t, out) == Apply(p.tree, Made(q, base, newBase))
    ensures Step(p, q) == (Session(t, p.cwd, Descriptors(p.open, out), out == Fault), out)
  {
  }

  lemma OnlyOpenOpens(t: Tree, c: Call)
    requires Shape(t) && !c.COpen?
    ensures !Apply(t, c).1.Opened?
  {
  }

  /** The call itself, and the descriptors after it. */
  method Execute(fs: WasmFS, open: seq<File>, base: File, newBase: File, q: Request)
    returns (out: Outcome, open': seq<File>)
    requires fs.Valid() && AllKnown(fs, open) && fs.Knows(base) && fs.Knows(newBase) && !q.Chdir?
    modifies fs`files, fs`tree, fs`nextIno, fs.files.Values
    ensures fs.Valid() && fs.Grew() && AllKnown(fs, open') && Inos(open') == Descriptors(Inos(open), out)
    ensures (fs.tree, out) == Apply(old(fs.tree), Made(q, base.ino, newBase.ino))
  {
    open' := open;
    if q.Open? {
      out, open' := ExecuteOpen(fs, open, base, q);
      OpenMakes(old(fs.tree), q, base.ino, newBase.ino);
    } else {
      OnlyOpenOpens(fs.tree, Made(q, base.ino, newBase.ino));
      out := ExecuteOther(fs, base, newBase, q);
    }
  }

  method ExecuteOpen(fs: WasmFS, open: seq<File>, base: File, q: Request) returns (out: Outcome, open': seq<File>)
    requires fs.Valid() && AllKnown(fs, open) && fs.Knows(base) && q.Open?
    modifies fs`files, fs`tree, fs`nextIno, fs.files.Values
    ensures fs.Valid() && fs.Grew() && AllKnown(fs, open') && Inos(open') == Descriptors(Inos(open), out)
    ensures (fs.tree, out) ==
      Syscalls.Open(old(fs.tree), base.ino, q.path, q.flags, q.canRead, q.canWrite, q.wantFd)
  {
    var file;
    out, file := fs.Openat(base, q.path, q.flags, q.canRead, q.canWrite, q.wantFd);
    open' := WithFile(open, out, file);
  }

  lemma OpenMakes(t: Tree, q: Request, base: Ino, newBase: Ino)
    requires Shape(t) && q.Open?
    ensures Apply(t, Made(q, base, newBase)) ==
      Syscalls.Open(t, base, q.path, q.flags, q.canRead, q.canWrite, q.wantFd)
  {
  }

  method ExecuteOther(fs: WasmFS, base: File, newBase: File, q: Request) returns (out: Outcome)
    requires fs.Valid() && fs.Knows(base) && fs.Knows(newBase) && !q.Chdir? && !q.Open?
    modifies fs`files, fs`tree, fs`nextIno, fs.files.Values
    ensures fs.Valid() && fs.Grew() && (fs.tree, out) == Apply(old(fs.tree), Made(q, base.ino, newBase.ino))
  {
    if q.Mkdir? {
      out := fs.Mkdirat(base, q.path, q.canRead, q.canWrite);
    } else if q.Symlink? {
      out := fs.Symlinkat(q.target, base, q.path);
    } else {
      out := ExecuteOld(fs, base, newBase, q);
    }
  }

  /** The calls that make no file. */
  method ExecuteOld(fs: WasmFS, base: File, newBase: File, q: Request) returns (out: Outcome)
    requires fs.Valid() && fs.Knows(base) && fs.Knows(newBase) && (q.Unlink? || q.Rename? || q.Chmod?)
    modifies fs`tree, fs.files.Values
    ensures fs.Valid() && (fs.tree, out) == Apply(old(fs.tree), Made(q, base.ino, newBase.ino))
  {
    OldMakes(fs.tree, q, base.ino, newBase.ino);
    if q.Unlink? {
      out := fs.Unlinkat(base, q.path, q.removeDir);
    } else if q.Rename? {
      out := fs.Renameat(base, q.path, newBase, q.newPath);
    } else {
      out := fs.Chmodat(base, q.path, q.links, q.canRead, q.canWrite);
    }
  }

  lemma OldMakes(t: Tree, q: Request, base: Ino, newBase: Ino)
    requires Shape(t) && (q.Unlink? || q.Rename? || q.Chmod?)
    ensures var r := Apply(t, Made(q, base, newBase));
      && (q.Unlink? ==> r == Syscalls.Unlink(t, base, q.path, q.removeDir))
      && (q.Rename? ==> r == Syscalls.Rename(t, base, q.path, newBase, q.newPath))
      && (q.Chmod? ==> r == Syscalls.Chmod(t, base, q.path, q.links, q.canRead, q.canWrite))
  {
  }

  lemma KeyOf<K, V>(m: map<K, V>, v: V) returns (k: K)
    requires v in m.Values
    ensures k in m && m[k] == v
  {
    k :| k in m && m[k] == v;
  }

  lemma RunCons(p: Session, qs: seq<Request>)
    requires Shape(p.tree) && !p.down && qs != []
    ensures RunOf(p, qs) == RunOf(Step(p, qs[0]).0, qs[1..])
  {
  }

  /** A program on the objects, up to a fault. */
  method RunProgram(fs: WasmFS, open: seq<File>, down: bool, qs: seq<Request>) returns (open': seq<File>, down': bool)
    requires fs.Valid() && AllKnown(fs, open)
    modifies fs`files, fs`tree, fs`nextIno, fs`cwd, fs.files.Values
    ensures fs.Valid() && fs.Grew() && AllKnown(fs, open')
    ensures SessionOf(fs, open', down') == RunOf(old(SessionOf(fs, open, down)), qs)
    decreases qs
  {
    open', down' := open, down;
    if qs != [] && !down {
      ghost var p := SessionOf(fs, open, down);
      RunCons(p, qs);
      var out;
      out, open' := Serve(fs, open, qs[0]);
      forall f | f in fs.files.Values ensures f in old(fs.files.Values) || fresh(f) {
        var i := KeyOf(fs.files, f);
        assert i in old(fs.files) ==> old(fs.files[i]) in old(fs.files.Values);
      }
      open', down' := RunProgram(fs, open', out == Fault, qs[1..]);
    }
  }

  function Start(): Session {
    Session(Initial(), 0, [], false)
  }

  /** What every run of the tree keeps is so of the objects after every program that starts with a new file system. */
  method FromTheStart(qs: seq<Request>) returns (fs: WasmFS, open: seq<File>, down: bool)
    ensures fs.Valid() && AllKnown(fs, open) && Shape(Initial())
    ensures SessionOf(fs, open, down) == RunOf(Start(), qs) && fs.tree == After(Initial(), CallsOf(Start(), qs))
  {
    InitialIsATree();
    fs := new WasmFS();
    fs.InitRootDirectory();
    ProgramIsARun(Start(), qs);
    open, down := RunProgram(fs, [], false, qs);
  }

  /** On objects: entries and parent pointers say the same, and no child has two entries. */
  lemma ObjectsAreATree(fs: WasmFS, d: File, f: File)
    requires fs.Valid() && fs.KnownDir(d) && fs.Knows(f)
    ensures f.parent == d && f != fs.root <==> exists k :: 0 <= k < |d.entries| && d.entries[k].child == f
    ensures forall j, k | 0 <= j < k < |d.entries| ::
      d.entries[j].child != d.entries[k].child && d.entries[j].name != d.entries[k].name
    ensures f.parent != null ==> fs.KnownDir(f.parent)
  {
    fs.NodeFacts(d);
    fs.NodeFacts(f);
    var es := Entries(fs.tree, d.ino);
    assert Distinct(es);
    forall k | 0 <= k < |d.entries| ensures d.entries[k].child == f ==> f.parent == d && f != fs.root {
      assert es[k] in Entries(fs.tree, d.ino);
      assert d.entries[k].child == fs.files[es[k].child];
    }
    if f.parent == d && f != fs.root {
      assert Linked(fs.tree, f.ino) && HasChild(es, f.ino);
      var k :| 0 <= k < |es| && es[k].child == f.ino;
      assert d.entries[k].child == fs.files[f.ino];
    }
  }
}
