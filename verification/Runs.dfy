/** The main results about the tree: what holds after every run of calls, and what one rename changes. */
module Runs {
  import opened Common
  import opened Paths
  import opened Trees
  import opened TreeLaws
  import opened Resolve
  import opened PathLaws
  import opened Syscalls
  import opened SyscallLaws

  /** The tree wasmfs starts with: a root that is its own parent, holding "dev" and "tmp". */
  function Initial(): Tree {
    Attach(WithDev(), 0, "tmp", Dir([]), true, true)
  }

  function Bare(): Tree {
    Tree(0, map[0 := Node(Some(0), Dir([]), true, true)], 1)
  }

  function WithDev(): Tree {
    Attach(Bare(), 0, "dev", Dir([]), true, false)
  }

  /** The tree after a run. A fault ends the run. */
  ghost function After(t: Tree, cs: seq<Call>): (t': Tree)
    requires Shape(t)
    ensures Shape(t') && t'.root == t.root
    ensures NameShape(t) ==> NameShape(t')
    decreases cs
  {
    if cs == [] then t
    else
      ApplyKeeps(t, cs[0]);
      var r := Apply(t, cs[0]);
      if r.1 == Fault then r.0 else After(r.0, cs[1..])
  }

  lemma ApplyKeeps(t: Tree, c: Call)
    requires Shape(t)
    ensures Keeps(t, Apply(t, c).0, OntoDot(t, c))
  {
    ApplyIsAChange(t, c);
    ChangeKeeps(t, Apply(t, c).0, OntoDot(t, c));
  }

  lemma BareIsATree()
    ensures Shape(Bare()) && NamesOk(Bare()) && NameShape(Bare()) && Entries(Bare(), 0) == []
  {
    assert Ranks(Bare(), map[0 := 0]);
  }

  lemma BareWithDev()
    ensures Shape(WithDev()) && NamesOk(WithDev()) && NameShape(WithDev())
    ensures IsDir(WithDev(), 0) && Linked(WithDev(), 0) && FindName(Entries(WithDev(), 0), "tmp").None?
  {
    BareIsATree();
    AttachKeepsShape(Bare(), 0, "dev", Dir([]), true, false);
    AttachKeepsNames(Bare(), 0, "dev", Dir([]), true, false);
    assert Entries(WithDev(), 0) == [Entry("dev", 1)];
    assert "dev"[0] != "tmp"[0];
  }

  lemma InitialIsATree()
    ensures Shape(Initial()) && NamesOk(Initial()) && NameShape(Initial())
  {
    BareWithDev();
    AttachKeepsShape(WithDev(), 0, "tmp", Dir([]), true, true);
    AttachKeepsNames(WithDev(), 0, "tmp", Dir([]), true, true);
  }

  /**
   After every run from the initial tree: entries and parent pointers say the same, each file sits under one
   (directory, name), and the parents of every linked file lead to the root in finitely many steps.
   */
  lemma EveryRunKeepsTheTree(cs: seq<Call>, x: Ino, d: Ino, e: Entry)
    ensures Shape(Initial())
    ensures var t := After(Initial(), cs);
      && Shape(t) && NameShape(t)
      && (Linked(t, x) ==> exists k :: Up(t, x, k) == Some(t.root))
      && (e in Entries(t, d) ==> e.child != t.root && t.nodes[e.child].parent == Some(d))
      && (Linked(t, x) && x != t.root ==> HasChild(Entries(t, t.nodes[x].parent.value), x))
      && (forall d', n' | Entry(n', e.child) in Entries(t, d') && e in Entries(t, d) :: d' == d && n' == e.name)
  {
    InitialIsATree();
    var t := After(Initial(), cs);
    if Linked(t, x) {
      var k := LinkedReachesRoot(t, x);
    }
    forall d', n' | Entry(n', e.child) in Entries(t, d') && e in Entries(t, d) ensures d' == d && n' == e.name {
      OnePlace(t, d', n', d, e.name, e.child);
    }
  }

  /** Once detached, a directory is empty, finds nothing, and is never an entry again, however the run goes on. */
  lemma {:induction false} DetachedForGood(t: Tree, cs: seq<Call>, i: Ino)
    requires Shape(t) && i in t.nodes && !Linked(t, i)
    ensures var t' := After(t, cs);
      && i in t'.nodes && !Linked(t', i) && Entries(t', i) == []
      && (forall name :: Lookup(t', i, name).None?)
      && (forall d :: !HasChild(Entries(t', d), i))
    decreases cs
  {
    if cs != [] {
      ApplyKeeps(t, cs[0]);
      if Apply(t, cs[0]).1 != Fault {
        DetachedForGood(Apply(t, cs[0]).0, cs[1..], i);
      }
    }
  }

  /** In a run no step of which moves a file onto the leaf ".", every entry name stays one a path can spell. */
  ghost predicate NeverOntoDot(t: Tree, cs: seq<Call>)
    requires Shape(t)
    decreases cs
  {
    cs == [] || (!OntoDot(t, cs[0]) &&
      (ApplyKeeps(t, cs[0]); Apply(t, cs[0]).1 == Fault || NeverOntoDot(Apply(t, cs[0]).0, cs[1..])))
  }

  lemma {:induction false} NamesStayOk(t: Tree, cs: seq<Call>)
    requires Shape(t) && NamesOk(t) && NeverOntoDot(t, cs)
    ensures NamesOk(After(t, cs))
    decreases cs
  {
    if cs != [] {
      ApplyKeeps(t, cs[0]);
      if Apply(t, cs[0]).1 != Fault {
        NamesStayOk(Apply(t, cs[0]).0, cs[1..]);
      }
    }
  }

  /** What getcwd returns, after any run, resolves to the working directory, unless some name above it is ".". */
  lemma GetcwdResolves(cs: seq<Call>, cwd: Ino, size: nat, base: Ino, b: LinkBehavior)
    requires Shape(Initial()) && IsDir(After(Initial(), cs), cwd)
    ensures var t := After(Initial(), cs); var r := Getcwd(t, cwd, false, size);
      && (r.Ok? <==> Linked(t, cwd) && |PathTo(t, cwd)| + 1 < size)
      && (r.Ok? ==> (ParseFile(t, r.value, base, b, 0) == Parsed(Ok(cwd), 0) <==> "." !in NamesTo(t, cwd)))
      && (NeverOntoDot(Initial(), cs) && r.Ok? ==> "." !in NamesTo(t, cwd))
  {
    InitialIsATree();
    var t := After(Initial(), cs);
    if Linked(t, cwd) {
      CwdRoundTrip(t, cwd, base, b);
      if NeverOntoDot(Initial(), cs) {
        NamesStayOk(Initial(), cs);
      }
    }
  }

  /** What getcwd prints for `i` does not lead back to `i`. */
  ghost predicate CwdLost(t: Tree, i: Ino) {
    Shape(t) && Linked(t, i) && IsDir(t, i) && ParseFile(t, PathTo(t, i), t.root, FollowLinks, 0) != Parsed(Ok(i), 0)
  }

  /**
   The exception is real: rename("dev", "tmp/.") on the initial tree succeeds and leaves an entry called ".", and what
   getcwd prints inside the moved directory no longer leads there.
   */
  lemma RenameOntoDotHappens()
    ensures Shape(Initial()) && OntoDot(Initial(), CRename(0, "dev", 0, "tmp/."))
    ensures var t := After(Initial(), [CRename(0, "dev", 0, "tmp/.")]); !NamesOk(t) && CwdLost(t, 1)
  {
    InitialIsATree();
    DotWitnessParses(Initial());
    DotWitnessMoves(Initial());
    DotRenameLosesCwd(Initial(), "dev", "tmp/.", ParentChild(0, "dev"), ParentChild(2, "."));
  }

  ghost predicate LooksInitial(t: Tree) {
    && Shape(t) && NameShape(t) && t.root == 0 && IsDir(t, 0) && IsDir(t, 2) && IsDir(t, 1)
    && Entries(t, 0) == [Entry("dev", 1), Entry("tmp", 2)] && Entries(t, 2) == []
    && CanWrite(t, 0) && CanWrite(t, 2) && t.nodes[2].parent == Some(0)
  }

  lemma DotRenameLosesCwd(t: Tree, path: string, newPath: string, oldP: ParentChild, newP: ParentChild)
    requires Shape(t) && NameShape(t)
    requires ParseAt(t, t.root, path) == Ok(oldP) && ParseAt(t, t.root, newPath) == Ok(newP)
    requires MovesOntoDot(t, oldP, newP)
    ensures OntoDot(t, CRename(t.root, path, t.root, newPath))
    ensures var t' := After(t, [CRename(t.root, path, t.root, newPath)]); var m := Lookup(t, oldP.parent, oldP.name);
      !NamesOk(t') && m.Some? && CwdLost(t', m.value)
  {
    var c := CRename(t.root, path, t.root, newPath);
    RenameIsRenameParsed(t, c, oldP, newP);
    OneCall(t, c);
    DotRenameHides(t, oldP, newP);
  }

  lemma RenameIsRenameParsed(t: Tree, c: Call, oldP: ParentChild, newP: ParentChild)
    requires Shape(t) && c.CRename?
    requires ParseAt(t, c.base, c.path) == Ok(oldP) && ParseAt(t, c.newBase, c.newPath) == Ok(newP)
    ensures Apply(t, c) == RenameParsed(t, oldP, newP)
    ensures OntoDot(t, c) <==> MovesOntoDot(t, oldP, newP)
  {
  }

  lemma OneCall(t: Tree, c: Call)
    requires Shape(t)
    ensures After(t, [c]) == Apply(t, c).0
  {
    ApplyKeeps(t, c);
    assert [c][1..] == [];
    assert After(Apply(t, c).0, []) == Apply(t, c).0;
  }

  lemma DotWitnessMoves(t: Tree)
    requires LooksInitial(t)
    ensures MovesOntoDot(t, ParentChild(0, "dev"), ParentChild(2, "."))
    ensures Lookup(t, 0, "dev") == Some(1)
  {
    assert Lookup(t, 0, "dev") == Some(1) && Lookup(t, 2, ".") == Some(2);
    ClimbFindsAncestors(t, 1, 2);
    assert !Above(t, 1, 2) by { assert !Above(t, 1, 0); }
    assert OverwriteError(t, 1, 2).None?;
  }

  lemma DotWitnessParses(t: Tree)
    requires LooksInitial(t)
    ensures ParseAt(t, 0, "dev") == Ok(ParentChild(0, "dev"))
    ensures ParseAt(t, 0, "tmp/.") == Ok(ParentChild(2, "."))
  {
    ComponentsOfComponent("dev");
    TmpDotParses(t);
  }

  lemma TmpDotParses(t: Tree)
    requires LooksInitial(t)
    ensures ParseAt(t, 0, "tmp/.") == Ok(ParentChild(2, "."))
  {
    ComponentsOfJoin("tmp", ".");
    ComponentsOfComponent("tmp");
    ComponentsOfComponent(".");
    assert "tmp" + "/" + "." == "tmp/.";
    assert "dev"[0] != "tmp"[0];
    assert FindName([Entry("tmp", 2)], "tmp") == Some(2);
    assert Entries(t, 0)[1..] == [Entry("tmp", 2)];
    assert Lookup(t, 0, "tmp") == Some(2);
    assert GetChild(t, 0, "tmp", FollowLinks, 0) == Parsed(Ok(2), 0);
    assert Descend(t, ["."], 2, 0) == Parsed(Ok(ParentChild(2, ".")), 0);
    assert ["tmp"] + ["."] == ["tmp", "."] && ["tmp", "."][1..] == ["."];
    assert Descend(t, ["tmp", "."], 0, 0) == Parsed(Ok(ParentChild(2, ".")), 0);
  }

  /** Whatever directory is moved onto a leaf ".", its printed path is lost. */
  lemma DotRenameHides(t: Tree, oldP: ParentChild, newP: ParentChild)
    requires Shape(t) && NameShape(t) && IsDir(t, oldP.parent) && IsDir(t, newP.parent)
    requires IsComponent(oldP.name) && IsComponent(newP.name) && MovesOntoDot(t, oldP, newP)
    ensures var t' := RenameParsed(t, oldP, newP).0; var m := Lookup(t, oldP.parent, oldP.name);
      m.Some? && !NamesOk(t') && CwdLost(t', m.value)
  {
    var t' := RenameParsed(t, oldP, newP).0;
    DotGuards(t, oldP, newP);
    RenameEffect(t, oldP, newP);
    RenameMoves(t, oldP, newP);
    RenameKeepsNames(t, oldP, newP);
    var m := Lookup(t, oldP.parent, oldP.name).value;
    MoveEffect(t, newP.parent, ".", m);
    assert Entry(".", m) in Entries(t', newP.parent);
    EntryOf(t', m);
    assert "." in NamesTo(t', m) by {
      assert Distinct(Entries(t', newP.parent));
      FindChildIsMembership(Entries(t', newP.parent), ".", m);
      var names := NamesTo(t', m);
      assert names[|names| - 1] == ".";
    }
    CwdRoundTrip(t', m, t'.root, FollowLinks);
  }

  // ---------- one rename ----------

  /** A call that fails or faults changes nothing. */
  lemma FailureChangesNothing(t: Tree, c: Call)
    requires Shape(t)
    ensures Apply(t, c).1.Fail? || Apply(t, c).1.Fault? ==> Apply(t, c).0 == t
  {
  }

  /**
   Rename faults exactly when its new parent is a detached directory and no earlier check stops it: the source exists
   and is not the root, both parents are writable and the new name is short enough.
   */
  lemma RenameFaultsOnlyWhenDetached(t: Tree, oldP: ParentChild, newP: ParentChild)
    requires Shape(t) && IsDir(t, oldP.parent) && IsDir(t, newP.parent)
    ensures RenameParsed(t, oldP, newP).1 == Fault <==>
      && !Linked(t, newP.parent) && |newP.name| <= MAX_NAME
      && Lookup(t, oldP.parent, oldP.name).Some? && Lookup(t, oldP.parent, oldP.name) != Some(t.root)
      && CanWrite(t, oldP.parent) && CanWrite(t, newP.parent)
  {
    LookupIsLinked(t, oldP.parent, oldP.name);
    LookupIsLinked(t, newP.parent, newP.name);
    if Lookup(t, oldP.parent, oldP.name).Some? && Lookup(t, oldP.parent, oldP.name) != Some(t.root) {
      var m := Lookup(t, oldP.parent, oldP.name).value;
      if Linked(t, newP.parent) {
        ClimbFindsAncestors(t, m, newP.parent);
      } else {
        DetachedIsLost(t, m, newP.parent);
      }
    }
  }

  /**
   A successful rename of distinct files: the moved file leaves its one old place and sits at the new one, what was
   there is detached, and no other (directory, name) pair changes.
   */
  lemma RenameEffect(t: Tree, oldP: ParentChild, newP: ParentChild)
    requires Shape(t) && IsDir(t, oldP.parent) && IsDir(t, newP.parent)
    requires RenameParsed(t, oldP, newP).1 == Done
    requires Lookup(t, oldP.parent, oldP.name) != Lookup(t, newP.parent, newP.name)
    ensures var t' := RenameParsed(t, oldP, newP).0; var d := newP.parent;
      && Shape(t')
      && Lookup(t, oldP.parent, oldP.name).Some?
      && var m := Lookup(t, oldP.parent, oldP.name).value;
      && Linked(t, m) && m != t.root
      && Entry(newP.name, m) in Entries(t', d)
      && (newP.name != "." ==> Lookup(t', d, newP.name) == Some(m))
      && (newP.name != "." && Lookup(t, d, newP.name).Some? ==> !Linked(t', Lookup(t, d, newP.name).value))
      && (forall x: Ino, e: Entry {:trigger e in Entries(t', x)} | !(x == d && e.name == newP.name) ::
            e in Entries(t', x) <==> e in Entries(t, x) && e.child != m)
  {
    RenameMoves(t, oldP, newP);
    RenameKeepsShape(t, oldP, newP);
    var m := Lookup(t, oldP.parent, oldP.name).value;
    var t' := RenameParsed(t, oldP, newP).0;
    MoveEffect(t, newP.parent, newP.name, m);
    assert Distinct(Entries(t', newP.parent));
    FindNameIsMembership(Entries(t', newP.parent), newP.name);
    assert Entry(newP.name, m) in Entries(t', newP.parent);
    assert Linked(t', newP.parent) by {
      OverwrittenIsAnotherChild(t, newP.parent, newP.name, m);
    }
  }

  lemma BelowIsUntouched(t: Tree, d: Ino, name: string, m: Ino, x: Ino)
    requires Movable(t, d, m) && !Above(t, m, d) && Linked(t, x) && Above(t, m, x)
    ensures var t' := Move(t, d, name, m);
      Entries(t', x) == Entries(t, x) && Linked(t', x)
  {
    MoveEffect(t, d, name, m);
    LiftedOverwritten(t, d, name, m);
    OverwrittenIsAnotherChild(t, d, name, m);
    MoveNodes(t, d, name, m, Overwritten(t, d, name, m));
    AboveRanks(t, m, x);
    assert x != d && x != t.nodes[m].parent.value;
  }

  lemma {:induction false} AboveRanks(t: Tree, a: Ino, x: Ino)
    requires Shape(t) && Linked(t, x) && Above(t, a, x)
    ensures Linked(t, a) && Rank(t)[a] <= Rank(t)[x]
    decreases Rank(t)[x]
  {
    if x != a {
      ParentIsLinked(t, x);
      AboveRanks(t, a, t.nodes[x].parent.value);
    }
  }

  /** A move changes no file but directories. */
  lemma MoveKeepsFiles(t: Tree, d: Ino, name: string, m: Ino, i: Ino)
    requires Movable(t, d, m)
    ensures var t' := Move(t, d, name, m); IsLink(t', i) == IsLink(t, i) && IsDir(t', i) == IsDir(t, i)
  {
    MoveEffect(t, d, name, m);
  }

  /** One component below the moved file, when resolving it expands no link. */
  lemma ChildBelowSurvives(t: Tree, d: Ino, name: string, m: Ino, x: Ino, leaf: string, b: LinkBehavior, n: nat)
    requires Movable(t, d, m) && !Above(t, m, d) && Linked(t, x) && Above(t, m, x) && leaf != ".."
    requires n <= MAX_RECURSIONS && GetChild(t, x, leaf, b, n).links == n
    ensures GetChild(Move(t, d, name, m), x, leaf, b, n) == GetChild(t, x, leaf, b, n)
    ensures var c := GetChild(t, x, leaf, b, n).res; c.Ok? ==> Linked(t, c.value) && Above(t, m, c.value)
  {
    BelowIsUntouched(t, d, name, m, x);
    var c := Lookup(t, x, leaf);
    assert Lookup(Move(t, d, name, m), x, leaf) == c;
    if c.Some? {
      MoveKeepsFiles(t, d, name, m, c.value);
      LookupIsLinked(t, x, leaf);
      if leaf != "." {
        FoundUnder(t, x, leaf);
        assert t.nodes[c.value].parent == Some(x);
      }
    }
  }

  lemma {:induction false} FollowBelowSurvives(t: Tree, d: Ino, name: string, m: Ino, x: Ino, names: seq<string>,
                                               b: LinkBehavior, n: nat)
    requires Movable(t, d, m) && !Above(t, m, d) && Linked(t, x) && Above(t, m, x) && names != [] && ".." !in names
    requires n <= MAX_RECURSIONS && Follow(t, names, x, b, n).links == n
    ensures Follow(Move(t, d, name, m), names, x, b, n) == Follow(t, names, x, b, n)
    decreases |names|
  {
    var t' := Move(t, d, name, m);
    if |names| == 1 {
      ChildBelowSurvives(t, d, name, m, x, names[0], b, n);
    } else {
      FollowCons(t, names, x, b, n);
      FollowCons(t', names, x, b, n);
      ChildBelowSurvives(t, d, name, m, x, names[0], FollowLinks, n);
      var child := GetChild(t, x, names[0], FollowLinks, n);
      if child.res.Ok? {
        MoveKeepsFiles(t, d, name, m, child.res.value);
        if IsDir(t, child.res.value) {
          assert ".." !in names[1..];
          FollowBelowSurvives(t, d, name, m, child.res.value, names[1..], b, n);
        }
      }
    }
  }

  /** Following a list of components is resolving the first and following the rest from there. */
  lemma FollowCons(t: Tree, names: seq<string>, x: Ino, b: LinkBehavior, n: nat)
    requires n <= MAX_RECURSIONS && |names| > 1
    ensures var child := GetChild(t, x, names[0], FollowLinks, n);
      && Follow(t, names, x, b, n) == Continue(t, child, names[1..], b)
      && child.links <= Follow(t, names, x, b, n).links
  {
    var child := GetChild(t, x, names[0], FollowLinks, n);
    if child.res.Ok? && IsDir(t, child.res.value) {
      assert Descend(t, names, x, n) == Descend(t, names[1..], child.res.value, child.links);
    }
  }

  /**
   After a successful rename every relative path below the moved file that uses no ".." resolves as it did before, if
   resolving it expanded no link.
   */
  lemma RenameKeepsPathsBelow(t: Tree, oldP: ParentChild, newP: ParentChild, m: Ino, x: Ino, path: string,
                              b: LinkBehavior, n: nat)
    requires Shape(t) && IsDir(t, oldP.parent) && IsDir(t, newP.parent) && RenameParsed(t, oldP, newP).1 == Done
    requires Lookup(t, oldP.parent, oldP.name) == Some(m) && Linked(t, x) && Above(t, m, x)
    requires (path != "" ==> path[0] != '/') && ".." !in Components(path)
    requires n <= MAX_RECURSIONS && ParseFile(t, path, x, b, n).links == n
    ensures ParseFile(RenameParsed(t, oldP, newP).0, path, x, b, n) == ParseFile(t, path, x, b, n)
  {
    var t' := RenameParsed(t, oldP, newP).0;
    if Lookup(t, newP.parent, newP.name) != Some(m) && path != "" {
      RenameMoves(t, oldP, newP);
      if Components(path) == [] {
        NoComponents(path);
      }
      assert ParseFile(t, path, x, b, n) == Follow(t, Components(path), x, b, n);
      assert ParseFile(t', path, x, b, n) == Follow(t', Components(path), x, b, n);
      FollowBelowSurvives(t, newP.parent, newP.name, m, x, Components(path), b, n);
    }
  }
}
