/**
 When each call on the tree succeeds, with which error it fails, and what a success gives, stated by the files that
 lookups and paths lead to, their kinds and permission bits.
 */
module Answers {
  import opened Common
  import opened Paths
  import opened Trees
  import opened TreeLaws
  import opened PathLaws
  import opened Resolve
  import opened Syscalls
  import opened SyscallLaws
  import opened Runs
  import opened LinkCounts

  // ---------- paths ----------

  /** Every call fails with the error of its path and then changes nothing; a bad base is EBADF or ENOTDIR. */
  lemma PathErrors(t: Tree, base: Ino, path: string, target: string, r: bool, w: bool, removeDir: bool)
    requires Shape(t)
    ensures base !in t.nodes ==> ParseAt(t, base, path) == Err(EBADF)
    ensures base in t.nodes && !IsDir(t, base) ==> ParseAt(t, base, path) == Err(ENOTDIR)
    ensures ParseAt(t, base, path).Err? ==>
      var e := (t, Fail(ParseAt(t, base, path).error));
      && Mkdir(t, base, path, r, w) == e && Symlink(t, target, base, path) == e
      && (!(removeDir && EndsInSlashDot(path)) ==> Unlink(t, base, path, removeDir) == e)
  {
  }

  // ---------- mkdir, symlink ----------

  /** The new file sits under its name with its parent, body and permission bits, and nothing else changed. */
  ghost predicate Created(t: Tree, t': Tree, d: Ino, name: string, node: Node) {
    && t.next !in t.nodes && t.next in t'.nodes && t'.nodes[t.next] == node
    && (name != "." && name != ".." ==> Lookup(t', d, name) == Some(t.next))
    && (forall i | i in t.nodes && i != d :: i in t'.nodes && t'.nodes[i] == t.nodes[i])
    && d in t.nodes && d in t'.nodes && t'.nodes[d].canRead == t.nodes[d].canRead
    && t'.nodes[d].canWrite == t.nodes[d].canWrite && t'.nodes[d].parent == t.nodes[d].parent
    && Entries(t', d) == Entries(t, d) + [Entry(name, t.next)]
  }

  lemma AttachCreates(t: Tree, d: Ino, name: string, body: Body, r: bool, w: bool)
    requires Shape(t) && IsDir(t, d) && Linked(t, d) && Lookup(t, d, name).None? && (body.Dir? ==> body.entries == [])
    ensures Created(t, Attach(t, d, name, body, r, w), d, name, Node(Some(d), body, r, w))
  {
    var t' := Attach(t, d, name, body, r, w);
    AttachKeepsShape(t, d, name, body, r, w);
    assert Distinct(Entries(t', d));
    FindNameIsMembership(Entries(t', d), name);
    assert Entries(t', d)[|Entries(t, d)|] == Entry(name, t.next);
  }

  /** mkdir makes an empty directory with the bits asked for, exactly where none of its four checks fails. */
  lemma MkdirAnswers(t: Tree, base: Ino, path: string, r: bool, w: bool, at: ParentChild)
    requires Shape(t) && ParseAt(t, base, path) == Ok(at)
    ensures var out := Mkdir(t, base, path, r, w); var short := |at.name| <= 255;
      var taken := Lookup(t, at.parent, at.name).Some?; var d := t.nodes[at.parent];
      && (out.1 == Done <==> short && !taken && d.canWrite && d.parent.Some?)
      && (out.1 == Fail(ENAMETOOLONG) <==> !short)
      && (out.1 == Fail(EEXIST) <==> short && taken)
      && (out.1 == Fail(EACCES) <==> short && !taken && !d.canWrite)
      && (out.1 == Fail(EIO) <==> short && !taken && d.canWrite && d.parent.None?)
      && (out.1 == Done ==> Created(t, out.0, at.parent, at.name, Node(Some(at.parent), Dir([]), r, w)))
  {
    if Mkdir(t, base, path, r, w).1 == Done {
      AttachCreates(t, at.parent, at.name, Dir([]), r, w);
    }
  }

  /** "dev" of the initial tree is not writable, and "tmp" is. */
  lemma OnlyTmpIsWritable(r: bool, w: bool)
    ensures Shape(Initial()) && Lookup(Initial(), 0, "dev") == Some(1) && Lookup(Initial(), 0, "tmp") == Some(2)
    ensures Mkdir(Initial(), 1, "x", r, w) == (Initial(), Fail(EACCES))
    ensures Mkdir(Initial(), 2, "x", r, w).1 == Done
  {
    InitialIsATree();
    var t := Initial();
    assert Entries(t, 0)[1..] == [Entry("tmp", 2)] && "dev"[0] != "tmp"[0];
    assert FindName([Entry("tmp", 2)], "tmp") == Some(2);
    assert Entries(t, 1) == [] && Entries(t, 2) == [];
    ComponentsOfComponent("x");
    assert ParseAt(t, 1, "x") == Ok(ParentChild(1, "x")) && ParseAt(t, 2, "x") == Ok(ParentChild(2, "x"));
  }

  /** symlink makes a link with the target given. */
  lemma SymlinkAnswers(t: Tree, target: string, base: Ino, path: string, at: ParentChild)
    requires Shape(t) && ParseAt(t, base, path) == Ok(at)
    ensures var out := Symlink(t, target, base, path); var short := |at.name| <= 255;
      var taken := Lookup(t, at.parent, at.name).Some?; var d := t.nodes[at.parent];
      && (out.1 == Done <==> short && !taken && d.parent.Some?)
      && (out.1 == Fail(ENAMETOOLONG) <==> !short)
      && (out.1 == Fail(EEXIST) <==> short && taken)
      && (out.1 == Fail(EPERM) <==> short && !taken && d.parent.None?)
      && (out.1 == Done ==> Created(t, out.0, at.parent, at.name, Node(Some(at.parent), Link(target), false, false)))
  {
    if Symlink(t, target, base, path).1 == Done {
      AttachCreates(t, at.parent, at.name, Link(target), false, false);
    }
  }

  /** Following a new link resolves its target from the directory the link is in, at the cost of one expansion. */
  lemma NewLinkLeadsToTarget(t: Tree, target: string, base: Ino, path: string, at: ParentChild, n: nat)
    requires Shape(t) && ParseAt(t, base, path) == Ok(at) && Symlink(t, target, base, path).1 == Done
    requires target != "" && n < MAX_RECURSIONS && at.name != "." && at.name != ".."
    ensures var t' := Symlink(t, target, base, path).0;
      && GetChild(t', at.parent, at.name, FollowLinks, n) == ParseFile(t', target, at.parent, FollowLinks, n + 1)
      && GetChild(t', at.parent, at.name, NoFollowLinks, n) == Parsed(Ok(t.next), n)
      && IsLink(t', t.next)
  {
    SymlinkAnswers(t, target, base, path, at);
    var t' := Symlink(t, target, base, path).0;
    LinkLoopTurnsOnce(t', at.parent, t.next, n);
  }

  // ---------- unlink, rmdir ----------

  predicate Slashes(s: string) {
    forall k | 0 <= k < |s| :: s[k] == '/'
  }

  lemma {:induction false} TrimmedIs(path: string) returns (s: string)
    ensures path == TrimSlashes(path) + s && Slashes(s)
    ensures TrimSlashes(path) != "" ==> TrimSlashes(path)[|TrimSlashes(path)| - 1] != '/'
    decreases |path|
  {
    if path != "" && path[|path| - 1] == '/' {
      var s' := TrimmedIs(path[..|path| - 1]);
      s := s' + "/";
      assert path == path[..|path| - 1] + "/";
    } else {
      s := "";
      assert path == path + s;
    }
  }

  /** rmdir refuses exactly the paths that end in "/." but for trailing slashes. */
  lemma DotIsRefused(path: string)
    ensures EndsInSlashDot(path) <==> exists p: string, s: string :: Slashes(s) && path == p + "/." + s
  {
    var s := TrimmedIs(path);
    var trimmed := TrimSlashes(path);
    if EndsInSlashDot(path) {
      var p := trimmed[..|trimmed| - 2];
      assert trimmed == p + "/.";
      assert Slashes(s) && path == p + "/." + s;
    }
    forall p: string, s': string | Slashes(s') && path == p + "/." + s' ensures EndsInSlashDot(path) {
      SamePrefix(trimmed, s, p + "/.", s');
    }
  }

  /** A string ends in only one way in slashes behind a character that is none. */
  lemma SamePrefix(a: string, s: string, b: string, s': string)
    requires a + s == b + s' && Slashes(s) && Slashes(s') && b != "" && b[|b| - 1] != '/'
    requires a != "" ==> a[|a| - 1] != '/'
    ensures a == b
  {
    var whole := a + s;
    assert forall k | |a| <= k < |whole| :: whole[k] == s[k - |a|] == '/';
    assert forall k | |b| <= k < |whole| :: whole[k] == s'[k - |b|] == '/';
    assert whole[|b| - 1] == b[|b| - 1] && (a != "" ==> whole[|a| - 1] == a[|a| - 1]);
    assert |a| == |b|;
    assert whole[..|a|] == a && whole[..|b|] == b;
  }

  /**
   unlink takes files that are no directory, rmdir empty directories, from a writable parent; neither takes the root.
   */
  lemma UnlinkAnswers(t: Tree, base: Ino, path: string, removeDir: bool, at: ParentChild)
    requires Shape(t) && ParseAt(t, base, path) == Ok(at) && !(removeDir && EndsInSlashDot(path))
    ensures var out := Unlink(t, base, path, removeDir).1; var found := Lookup(t, at.parent, at.name);
      var writable := t.nodes[at.parent].canWrite;
      && (out == Fail(ENOENT) <==> found.None?)
      && (found.Some? ==>
            var f := found.value; var isDir := IsDir(t, f); var full := isDir && Entries(t, f) != [];
            && (out == Done <==> f != t.root && isDir == removeDir && !full && writable)
            && (out == Fail(EBUSY) <==> f == t.root)
            && (out == Fail(EISDIR) <==> f != t.root && isDir && !removeDir)
            && (out == Fail(ENOTEMPTY) <==> f != t.root && full && removeDir)
            && (out == Fail(ENOTDIR) <==> f != t.root && !isDir && removeDir)
            && (out == Fail(EACCES) <==> f != t.root && isDir == removeDir && !full && !writable))
  {
  }

  lemma RmdirOfDot(t: Tree, base: Ino, path: string)
    requires Shape(t)
    ensures (exists p: string, s: string :: Slashes(s) && path == p + "/." + s) ==>
      Unlink(t, base, path, true) == (t, Fail(EINVAL))
  {
    DotIsRefused(path);
  }

  // ---------- rename ----------

  /**
   A rename of distinct files succeeds exactly if the source exists, neither file is the root, both parents are
   writable, the new parent is linked and not inside the source, and what is overwritten is an empty directory for a
   directory and no directory for any other file. The errors come in this order.
   */
  lemma RenameAnswers(t: Tree, oldP: ParentChild, newP: ParentChild)
    requires Shape(t) && IsDir(t, oldP.parent) && IsDir(t, newP.parent)
    ensures var out := RenameParsed(t, oldP, newP).1; var short := |newP.name| <= 255;
      var source := Lookup(t, oldP.parent, oldP.name); var dest := Lookup(t, newP.parent, newP.name);
      && (out == Fail(ENAMETOOLONG) <==> !short)
      && (out == Fail(ENOENT) <==> short && source.None?)
      && (short && source.Some? && source == dest ==> RenameParsed(t, oldP, newP) == (t, Done))
      && (short && source.Some? && source != dest ==>
            var x := source.value; var root := x == t.root || dest == Some(t.root);
            var writable := t.nodes[oldP.parent].canWrite && t.nodes[newP.parent].canWrite;
            var linked := t.nodes[newP.parent].parent.Some?; var inside := Above(t, x, newP.parent);
            var here := !root && writable && linked && !inside;
            && (out == Fail(EBUSY) <==> root)
            && (out == Fail(EACCES) <==> !root && !writable)
            && (out == Fault <==> !root && writable && !linked)
            && (out == Fail(EINVAL) <==> !root && writable && linked && inside)
            && (dest.None? ==> (out == Done <==> here))
            && (dest.Some? ==>
                  var y := dest.value;
                  && (out == Done <==> here && (IsDir(t, x) <==> IsDir(t, y)) && (IsDir(t, y) ==> Entries(t, y) == []))
                  && (out == Fail(EISDIR) <==> here && IsDir(t, y) && !IsDir(t, x))
                  && (out == Fail(ENOTEMPTY) <==> here && IsDir(t, x) && IsDir(t, y) && Entries(t, y) != [])
                  && (out == Fail(ENOTDIR) <==> here && IsDir(t, x) && !IsDir(t, y))))
  {
    LookupIsLinked(t, oldP.parent, oldP.name);
    LookupIsLinked(t, newP.parent, newP.name);
    var source := Lookup(t, oldP.parent, oldP.name);
    if source.Some? && source.value != t.root {
      if Linked(t, newP.parent) {
        ClimbFindsAncestors(t, source.value, newP.parent);
      } else {
        DetachedIsLost(t, source.value, newP.parent);
      }
    }
  }

  /** The first path that does not resolve decides. */
  lemma RenameOfPaths(t: Tree, oldBase: Ino, oldPath: string, newBase: Ino, newPath: string)
    requires Shape(t)
    ensures var out := Rename(t, oldBase, oldPath, newBase, newPath);
      var a := ParseAt(t, oldBase, oldPath); var b := ParseAt(t, newBase, newPath);
      && (a.Err? ==> out == (t, Fail(a.error)))
      && (a.Ok? && b.Err? ==> out == (t, Fail(b.error)))
      && (a.Ok? && b.Ok? ==> out == RenameParsed(t, a.value, b.value))
  {
  }

  /** In the initial tree with a new file "f", a directory cannot replace the file nor the file the directory. */
  lemma KindsDoNotMix(t: Tree, r: bool, w: bool)
    requires LooksInitial(t)
    ensures var t' := Attach(t, 0, "f", Data, r, w);
      && Shape(t')
      && RenameParsed(t', ParentChild(0, "tmp"), ParentChild(0, "f")) == (t', Fail(ENOTDIR))
      && RenameParsed(t', ParentChild(0, "f"), ParentChild(0, "tmp")) == (t', Fail(EISDIR))
  {
    var t' := Attach(t, 0, "f", Data, r, w);
    assert Entries(t, 0)[1..] == [Entry("tmp", 2)] && "f"[0] != "dev"[0] && "f"[0] != "tmp"[0];
    assert FindName([Entry("tmp", 2)], "f").None? && FindName(Entries(t, 0), "f").None?;
    AttachKeepsShape(t, 0, "f", Data, r, w);
    AttachCreates(t, 0, "f", Data, r, w);
    var es := Entries(t', 0);
    assert es == [Entry("dev", 1), Entry("tmp", 2), Entry("f", t.next)];
    assert "dev"[0] != "tmp"[0] && es[1..][0] == Entry("tmp", 2);
    assert FindName(es[1..], "tmp") == Some(2) && Lookup(t', 0, "tmp") == Some(2);
    RenameAnswers(t', ParentChild(0, "tmp"), ParentChild(0, "f"));
    RenameAnswers(t', ParentChild(0, "f"), ParentChild(0, "tmp"));
  }

  // ---------- open ----------

  /** The file that open ends at: with O_NOFOLLOW no link, and else what the leaf leads to. */
  ghost predicate LeadsTo(t: Tree, base: Ino, path: string, noFollow: bool, f: Ino) {
    if noFollow then ParseFileAt(t, base, path, NoFollowLinks) == Ok(f) && !IsLink(t, f)
    else if !OnlyTogetherTooMany(t, base, path) then ParseFileAt(t, base, path, FollowLinks) == Ok(f)
    else TargetOfLeaf(t, base, path) == Ok(f)
  }

  /** The leaf's target, resolved on its own. */
  function TargetOfLeaf(t: Tree, base: Ino, path: string): Result<Ino> {
    var at := ParseParent(t, path, base, 0);
    if at.res.Err? then Err(at.res.error)
    else match Lookup(t, at.res.value.parent, at.res.value.name)
      case None => Err(ENOENT)
      case Some(leaf) =>
        if !IsLink(t, leaf) then Ok(leaf)
        else ParseFile(t, t.nodes[leaf].body.target, at.res.value.parent, FollowLinks, 0).res
  }

  /** What the kind and the bits of a file allow. */
  predicate Grants(n: Node, flags: OpenFlags) {
    && (flags.access == ReadOnly || flags.access == ReadWrite ==> n.canRead)
    && (flags.access == WriteOnly || flags.access == ReadWrite ==> n.canWrite && !n.body.Dir?)
    && (flags.directory ==> n.body.Dir?)
    && (flags.truncate ==> n.canWrite && !n.body.Dir?)
  }

  /** Nothing but files of the tree is ever found. */
  lemma FoundIsThere(t: Tree, base: Ino, path: string, b: LinkBehavior, f: Ino)
    requires Shape(t) && ParseFileAt(t, base, path, b) == Ok(f)
    ensures f in t.nodes
  {
    PathFinds(t, path, base, b, 0);
  }

  lemma {:induction false} PathFinds(t: Tree, path: string, base: Ino, b: LinkBehavior, n: nat)
    requires Shape(t) && n <= MAX_RECURSIONS
    ensures var r := ParseFile(t, path, base, b, n).res; r.Ok? ==> r.value in t.nodes
    decreases MAX_RECURSIONS - n, 1
  {
    var at := ParseParent(t, path, base, n);
    if at.res.Ok? {
      LookupIsLinked(t, at.res.value.parent, at.res.value.name);
      var leaf := Lookup(t, at.res.value.parent, at.res.value.name);
      if leaf.Some? && b == FollowLinks {
        LinkFinds(t, at.res.value.parent, leaf.value, at.links);
      }
    }
  }

  lemma {:induction false} LinkFinds(t: Tree, dir: Ino, child: Ino, n: nat)
    requires Shape(t) && n <= MAX_RECURSIONS && child in t.nodes
    ensures var r := Expand(t, dir, child, n).res; r.Ok? ==> r.value in t.nodes
    decreases MAX_RECURSIONS - n, 0
  {
    if IsLink(t, child) && n < MAX_RECURSIONS && t.nodes[child].body.target != "" {
      LinkLoopTurnsOnce(t, dir, child, n);
      PathFinds(t, t.nodes[child].body.target, dir, FollowLinks, n + 1);
    }
  }

  /**
   Without O_CREAT, open gives a descriptor of exactly the file its path leads to, and it does so if and only if the
   kind and the permission bits of that file grant what the flags ask for.
   */
  lemma OpenAnswers(t: Tree, base: Ino, path: string, flags: OpenFlags, r: bool, w: bool, wantFd: bool, f: Ino, x: bool)
    requires Shape(t) && IsDir(t, base) && flags.access != BadMode && !flags.create
    requires ParseAt(t, base, path).Ok? ==> |ParseAt(t, base, path).value.name| <= 255
    ensures Open(t, base, path, flags, r, w, wantFd).0 == t
    ensures Open(t, base, path, flags, r, w, wantFd).1 == Opened(f, x) <==>
      && LeadsTo(t, base, path, flags.noFollow, f) && x == flags.truncate && f in t.nodes && Grants(t.nodes[f], flags)
  {
    var at := ParseParent(t, path, base, 0);
    if at.res.Ok? {
      LeafAnswers(t, base, path, flags.noFollow);
      LookupIsLinked(t, at.res.value.parent, at.res.value.name);
    }
  }

  /** How the leaf decides where open ends. */
  lemma LeafAnswers(t: Tree, base: Ino, path: string, noFollow: bool)
    requires Shape(t) && IsDir(t, base) && ParseParent(t, path, base, 0).res.Ok?
    ensures var at := ParseParent(t, path, base, 0).res.value;
      match Lookup(t, at.parent, at.name)
      case None => forall f :: !LeadsTo(t, base, path, noFollow, f)
      case Some(leaf) =>
        if !IsLink(t, leaf) then forall f :: LeadsTo(t, base, path, noFollow, f) <==> f == leaf
        else if noFollow then forall f :: !LeadsTo(t, base, path, noFollow, f)
        else forall f :: LeadsTo(t, base, path, noFollow, f) <==>
          ParseFile(t, t.nodes[leaf].body.target, at.parent, FollowLinks, 0).res == Ok(f)
  {
    var at := ParseParent(t, path, base, 0);
    LeafAgrees(t, at.res.value.parent, at.res.value.name, at.links);
  }

  /** The error for a file whose kind or bits do not grant what the flags ask for; the checks come in this order. */
  lemma OpenRefuses(t: Tree, base: Ino, path: string, flags: OpenFlags, r: bool, w: bool, wantFd: bool, f: Ino)
    requires Shape(t) && IsDir(t, base) && flags.access != BadMode && !flags.create
    requires ParseAt(t, base, path).Ok? ==> |ParseAt(t, base, path).value.name| <= 255
    requires LeadsTo(t, base, path, flags.noFollow, f) && f in t.nodes
    ensures var out := Open(t, base, path, flags, r, w, wantFd).1; var n := t.nodes[f];
      var dirWrite := n.body.Dir? && flags.access != ReadOnly;
      var bits := (flags.access == WriteOnly || n.canRead) && (flags.access == ReadOnly || n.canWrite);
      var kind := flags.directory ==> n.body.Dir?;
      && (out == Fail(EISDIR) <==> dirWrite || (n.body.Dir? && bits && flags.truncate))
      && (out == Fail(ENOTDIR) <==> !dirWrite && bits && !kind)
      && (out == Fail(EACCES) <==> !dirWrite && (!bits || (kind && !n.body.Dir? && flags.truncate && !n.canWrite)))
  {
    var at := ParseParent(t, path, base, 0);
    if at.res.Ok? {
      LeafAnswers(t, base, path, flags.noFollow);
    }
  }

  /** With O_CREAT, a missing leaf becomes a new data file with the bits asked for, and that is what is opened. */
  lemma OpenCreates(t: Tree, base: Ino, path: string, flags: OpenFlags, r: bool, w: bool, wantFd: bool, at: ParentChild)
    requires Shape(t) && flags.access != BadMode && ParseAt(t, base, path) == Ok(at) && |at.name| <= 255
    requires Lookup(t, at.parent, at.name).None?
    ensures var out := Open(t, base, path, flags, r, w, wantFd);
      if flags.create && t.nodes[at.parent].parent.Some?
      then out.1 == (if wantFd then Opened(t.next, false) else Done) &&
           Created(t, out.0, at.parent, at.name, Node(Some(at.parent), Data, r, w))
      else out == (t, Fail(ENOENT))
  {
    if flags.create && Linked(t, at.parent) {
      AttachCreates(t, at.parent, at.name, Data, r, w);
    }
  }

  /** On an existing leaf O_CREAT alone changes nothing; with O_EXCL it fails, after a link has been followed. */
  lemma OpenExistingLeaf(t: Tree, base: Ino, path: string, flags: OpenFlags, r: bool, w: bool, wantFd: bool,
                         at: ParentChild)
    requires Shape(t) && flags.access != BadMode && ParseAt(t, base, path) == Ok(at) && |at.name| <= 255
    requires Lookup(t, at.parent, at.name).Some? && flags.create
    ensures !flags.exclusive ==>
      Open(t, base, path, flags, r, w, wantFd) == Open(t, base, path, flags.(create := false), r, w, wantFd)
    ensures flags.exclusive ==>
      var out := Open(t, base, path, flags, r, w, wantFd); var leaf := Lookup(t, at.parent, at.name).value;
      && out.0 == t
      && (!IsLink(t, leaf) ==> out.1 == Fail(EEXIST))
      && (IsLink(t, leaf) && flags.noFollow ==> out.1 == Fail(ELOOP))
      && (IsLink(t, leaf) && !flags.noFollow ==>
            out.1 == match TargetOfLeaf(t, base, path) case Ok(_) => Fail(EEXIST) case Err(e) => Fail(e))
  {
  }

  /** What stops an open before the checks on the file. */
  lemma OpenStops(t: Tree, base: Ino, path: string, flags: OpenFlags, r: bool, w: bool, wantFd: bool)
    requires Shape(t)
    ensures var out := Open(t, base, path, flags, r, w, wantFd); var at := ParseAt(t, base, path);
      && (flags.access == BadMode ==> out == (t, Fail(EINVAL)))
      && (flags.access != BadMode && at.Err? ==> out == (t, Fail(at.error)))
      && (flags.access != BadMode && at.Ok? && |at.value.name| > 255 ==> out == (t, Fail(ENAMETOOLONG)))
  {
  }

  // ---------- chmod, getcwd ----------

  /**
   chmod sets both bits of exactly the file the path leads to: the link itself if links are not followed, and never a
   link if they are.
   */
  lemma ChmodAnswers(t: Tree, base: Ino, path: string, b: LinkBehavior, r: bool, w: bool)
    requires Shape(t)
    ensures var out := Chmod(t, base, path, b, r, w); var found := ParseFileAt(t, base, path, b);
      && (found.Err? ==> out == (t, Fail(found.error)))
      && (found.Ok? ==>
            var i := found.value;
            && out.1 == Done && i in t.nodes && out.0.nodes.Keys == t.nodes.Keys
            && out.0.nodes[i].canRead == r && out.0.nodes[i].canWrite == w
            && out.0.nodes[i].body == t.nodes[i].body && out.0.nodes[i].parent == t.nodes[i].parent
            && (forall j | j in t.nodes && j != i :: out.0.nodes[j] == t.nodes[j])
            && out.0.root == t.root && out.0.next == t.next
            && (b == FollowLinks ==> !IsLink(t, i))
            && (b == NoFollowLinks ==>
                  var at := ParseAt(t, base, path); at.Ok? && Lookup(t, at.value.parent, at.value.name) == Some(i)))
  {
    var found := ParseFileAt(t, base, path, b);
    if found.Ok? {
      FoundIsThere(t, base, path, b, found.value);
    }
  }

  /** When getcwd fails, and with which error. */
  lemma GetcwdAnswers(t: Tree, cwd: Ino, nullBuf: bool, size: nat)
    requires Shape(t) && cwd in t.nodes
    ensures var r := Getcwd(t, cwd, nullBuf, size); var linked := t.nodes[cwd].parent.Some?;
      && (r == Err(EFAULT) <==> nullBuf && size > 0)
      && (r == Err(EINVAL) <==> !nullBuf && size == 0)
      && (r == Err(ENOENT) <==> nullBuf == (size == 0) && !linked)
      && (nullBuf == (size == 0) && linked && size <= |PathTo(t, cwd)| + 1 ==> r == Err(ERANGE))
      && (r.Ok? ==> r.value == PathTo(t, cwd) && |r.value| + 1 < size)
  {
  }
}
