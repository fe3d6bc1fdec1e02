/** What every call keeps, what rename and unlink change, and what holds over whole runs. */
module SyscallLaws {
  import opened Common
  import opened Paths
  import opened Trees
  import opened TreeLaws
  import opened Resolve
  import opened PathLaws
  import opened Syscalls

  // ---------- the ancestor walk ----------

  /** From a linked directory the walk ends, and it finds the moved file exactly when that file is above. */
  lemma {:induction false} ClimbFindsAncestors(t: Tree, a: Ino, x: Ino)
    requires Shape(t) && Linked(t, x) && a != t.root
    ensures Climb(t, a, x) == if Above(t, a, x) then Hit else ReachedRoot
    decreases Rank(t)[x]
  {
    if x != t.root && x != a {
      ParentIsLinked(t, x);
      ClimbFindsAncestors(t, a, t.nodes[x].parent.value);
    }
  }

  /** From a detached directory the walk meets a null parent at once. */
  lemma DetachedIsLost(t: Tree, a: Ino, x: Ino)
    requires Shape(t)
    ensures !Linked(t, x) && x != a ==> Climb(t, a, x) == Lost
  {
  }

  lemma FoundUnder(t: Tree, d: Ino, name: string)
    requires Shape(t) && Lookup(t, d, name).Some? && name != "." && name != ".."
    ensures Linked(t, d) && Entry(name, Lookup(t, d, name).value) in Entries(t, d)
  {
    assert Distinct(Entries(t, d));
    FindNameIsMembership(Entries(t, d), name);
  }

  /** The destination checks leave nothing below what is overwritten, even for the leaves "." and "..". */
  lemma ChecksSuffice(t: Tree, d: Ino, name: string, m: Ino)
    requires Movable(t, d, m)
    requires var o := Lookup(t, d, name);
      o != Some(m) && o != Some(t.root) && (o.Some? ==> OverwriteError(t, m, o.value).None?)
    ensures OverwritesNothingBelow(t, d, name, m) && name != ".."
    ensures name != "." ==> Overwritten(t, d, name, m) == Lookup(t, d, name)
    ensures name == "." ==> Entries(t, d) == []
  {
    ParentIsLinked(t, d);
    DotDotIsNotEmpty(t, d);
  }

  /** When rename moves a file, the move is one that keeps the tree a tree. */
  lemma RenameMoves(t: Tree, oldP: ParentChild, newP: ParentChild)
    requires Shape(t) && IsDir(t, oldP.parent) && IsDir(t, newP.parent)
    requires RenameParsed(t, oldP, newP).1 == Done
    requires Lookup(t, oldP.parent, oldP.name) != Lookup(t, newP.parent, newP.name)
    ensures Lookup(t, oldP.parent, oldP.name).Some?
    ensures var m := Lookup(t, oldP.parent, oldP.name).value;
      && Movable(t, newP.parent, m)
      && RenameParsed(t, oldP, newP).0 == Move(t, newP.parent, newP.name, m)
      && !Above(t, m, newP.parent)
      && OverwritesNothingBelow(t, newP.parent, newP.name, m)
      && newP.name != ".." && |newP.name| <= MAX_NAME
      && (newP.name != "." ==> Overwritten(t, newP.parent, newP.name, m) == Lookup(t, newP.parent, newP.name))
      && (newP.name == "." ==> Entries(t, newP.parent) == [])
  {
    var m := Lookup(t, oldP.parent, oldP.name).value;
    LookupIsLinked(t, oldP.parent, oldP.name);
    DetachedIsLost(t, m, newP.parent);
    ClimbFindsAncestors(t, m, newP.parent);
    ChecksSuffice(t, newP.parent, newP.name, m);
  }

  lemma RenameKeepsShape(t: Tree, oldP: ParentChild, newP: ParentChild)
    requires Shape(t) && IsDir(t, oldP.parent) && IsDir(t, newP.parent)
    ensures Shape(RenameParsed(t, oldP, newP).0)
  {
    var r := RenameParsed(t, oldP, newP);
    if r.1 == Done && Lookup(t, oldP.parent, oldP.name) != Lookup(t, newP.parent, newP.name) {
      RenameMoves(t, oldP, newP);
      MoveKeepsShape(t, newP.parent, newP.name, Lookup(t, oldP.parent, oldP.name).value);
    }
  }

  // ---------- unlink ----------

  /**
   A successful unlink or rmdir removes exactly its pair and detaches the file, except for the leaf ".": there it
   returns success and changes nothing.
   */
  lemma UnlinkEffect(t: Tree, base: Ino, path: string, removeDir: bool)
    requires Shape(t) && Unlink(t, base, path, removeDir).1 == Done
    ensures var t' := Unlink(t, base, path, removeDir).0; var at := ParseAt(t, base, path).value;
      && Shape(t') && at.name != ".."
      && Lookup(t, at.parent, at.name).Some?
      && if at.name == "." then t' == t && removeDir && Entries(t, at.parent) == []
         else
           var file := Lookup(t, at.parent, at.name).value;
           && Lookup(t', at.parent, at.name).None? && file in t'.nodes && !Linked(t', file)
           && (forall x, e {:trigger e in Entries(t', x)} ::
                 e in Entries(t', x) <==> e in Entries(t, x) && !(x == at.parent && e.name == at.name))
           && (forall i | i in t.nodes && i != file :: i in t'.nodes && t'.nodes[i].parent == t.nodes[i].parent)
  {
    var at := ParseAt(t, base, path).value;
    var file := Lookup(t, at.parent, at.name).value;
    if at.name == ".." {
      DotDotIsNotEmpty(t, at.parent);
    } else if at.name != "." {
      FoundUnder(t, at.parent, at.name);
      RemoveEffect(t, at.parent, at.name, file);
      RemoveKeepsShape(t, at.parent, at.name, file);
      GoneFromDirectory(t, at.parent, at.name, file);
    } else {
      assert FindName(Entries(t, at.parent), ".").None?;
    }
  }

  lemma GoneFromDirectory(t: Tree, d: Ino, name: string, c: Ino)
    requires Shape(t) && Entry(name, c) in Entries(t, d) && name != "." && name != ".."
    ensures Lookup(RemoveName(t, d, name), d, name).None?
  {
    RemoveEffect(t, d, name, c);
    FindNameIsMembership(Entries(RemoveName(t, d, name), d), name);
  }

  lemma DotDotIsNotEmpty(t: Tree, d: Ino)
    requires Shape(t) && Linked(t, d)
    ensures d != t.root ==> Entries(t, t.nodes[d].parent.value) != []
  {
    if d != t.root {
      assert HasChild(Entries(t, t.nodes[d].parent.value), d);
    }
  }

  // ---------- names ----------

  /**
   Rename is about to move a directory onto the leaf ".", the one way an entry called "." comes into being: the source
   is a directory other than the root and the destination, the destination is linked, empty and not the root, both
   parents are writable, and the source is not above the destination.
   */
  ghost predicate MovesOntoDot(t: Tree, oldP: ParentChild, newP: ParentChild)
    requires Shape(t)
  {
    var source := Lookup(t, oldP.parent, oldP.name);
    && newP.name == "."
    && source.Some? && IsDir(t, source.value) && source.value != t.root && source.value != newP.parent
    && Linked(t, newP.parent) && newP.parent != t.root && Entries(t, newP.parent) == []
    && CanWrite(t, oldP.parent) && CanWrite(t, newP.parent)
    && !Above(t, source.value, newP.parent)
  }

  /** Those guards let exactly the calls through that succeed and move something onto ".". */
  lemma DotGuards(t: Tree, oldP: ParentChild, newP: ParentChild)
    requires Shape(t) && IsDir(t, oldP.parent) && IsDir(t, newP.parent)
    ensures MovesOntoDot(t, oldP, newP) <==>
      && newP.name == "." && RenameParsed(t, oldP, newP).1 == Done
      && Lookup(t, oldP.parent, oldP.name) != Lookup(t, newP.parent, newP.name)
  {
    LookupIsLinked(t, oldP.parent, oldP.name);
    var source := Lookup(t, oldP.parent, oldP.name);
    if newP.name == "." && source.Some? {
      if Linked(t, newP.parent) {
        if source.value != t.root {
          ClimbFindsAncestors(t, source.value, newP.parent);
        }
      } else {
        DetachedIsLost(t, source.value, newP.parent);
      }
    }
  }

  lemma AttachKeepsNames(t: Tree, d: Ino, name: string, body: Body, r: bool, w: bool)
    requires Wired(t) && IsDir(t, d) && (body.Dir? ==> body.entries == [])
    requires IsComponent(name) && |name| <= MAX_NAME && Linked(t, d) && Lookup(t, d, name).None?
    ensures NameShape(t) ==> NameShape(Attach(t, d, name, body, r, w))
    ensures NamesOk(t) ==> NamesOk(Attach(t, d, name, body, r, w))
  {
    AttachEffect(t, d, name, body, r, w);
  }

  lemma RenameKeepsNames(t: Tree, oldP: ParentChild, newP: ParentChild)
    requires Shape(t) && IsDir(t, oldP.parent) && IsDir(t, newP.parent)
    requires IsComponent(oldP.name) && IsComponent(newP.name)
    ensures NameShape(t) ==> NameShape(RenameParsed(t, oldP, newP).0)
    ensures NamesOk(t) ==> (NamesOk(RenameParsed(t, oldP, newP).0) <==> !MovesOntoDot(t, oldP, newP))
  {
    var r := RenameParsed(t, oldP, newP);
    DotGuards(t, oldP, newP);
    if r.1 == Done && Lookup(t, oldP.parent, oldP.name) != Lookup(t, newP.parent, newP.name) {
      RenameMoves(t, oldP, newP);
      var m := Lookup(t, oldP.parent, oldP.name).value;
      MoveEffect(t, newP.parent, newP.name, m);
      assert Entry(newP.name, m) in Entries(r.0, newP.parent);
    }
  }

  // ---------- one call ----------

  ghost predicate OntoDot(t: Tree, c: Call)
    requires Shape(t)
  {
    && c.CRename?
    && var oldP, newP := ParseAt(t, c.base, c.path), ParseAt(t, c.newBase, c.newPath);
       oldP.Ok? && newP.Ok? && MovesOntoDot(t, oldP.value, newP.value)
  }

  /** What a call does to the tree, in terms of the backend's changes. */
  ghost predicate Change(t: Tree, t': Tree, onto: bool)
    requires Shape(t)
  {
    || t' == t
    || (exists d, name, body, r, w :: AttachCase(t, t', d, name, body, r, w))
    || (exists d, name, c :: RemoveCase(t, t', d, name, c))
    || (exists d, name, m :: MoveCase(t, t', d, name, m, onto))
    || (exists i, r, w :: ModeCase(t, t', i, r, w))
  }

  ghost predicate AttachCase(t: Tree, t': Tree, d: Ino, name: string, body: Body, r: bool, w: bool) {
    && IsDir(t, d) && Linked(t, d) && Lookup(t, d, name).None? && (body.Dir? ==> body.entries == [])
    && IsComponent(name) && |name| <= MAX_NAME && t' == Attach(t, d, name, body, r, w)
  }

  ghost predicate RemoveCase(t: Tree, t': Tree, d: Ino, name: string, c: Ino) {
    IsDir(t, d) && Entry(name, c) in Entries(t, d) && Entries(t, c) == [] && t' == RemoveName(t, d, name)
  }

  ghost predicate MoveCase(t: Tree, t': Tree, d: Ino, name: string, m: Ino, onto: bool) {
    && Movable(t, d, m) && !Above(t, m, d) && OverwritesNothingBelow(t, d, name, m)
    && IsComponent(name) && |name| <= MAX_NAME && name != ".." && (name == "." <==> onto)
    && t' == Move(t, d, name, m)
  }

  ghost predicate ModeCase(t: Tree, t': Tree, i: Ino, r: bool, w: bool) {
    i in t.nodes && t' == SetNode(t, i, t.nodes[i].(canRead := r, canWrite := w))
  }

  lemma ApplyIsAChange(t: Tree, c: Call)
    requires Shape(t)
    ensures Change(t, Apply(t, c).0, OntoDot(t, c))
  {
    match c
    case CMkdir(base, path, r, w) =>
      var at := ParseAt(t, base, path);
      if Apply(t, c).1 == Done {
        assert AttachCase(t, Apply(t, c).0, at.value.parent, at.value.name, Dir([]), r, w);
      }
    case CSymlink(target, base, path) =>
      var at := ParseAt(t, base, path);
      if Apply(t, c).1 == Done {
        assert AttachCase(t, Apply(t, c).0, at.value.parent, at.value.name, Link(target), false, false);
      }
    case COpen(base, path, flags, r, w, wantFd) =>
      var at := ParseAt(t, base, path);
      if Apply(t, c).0 != t {
        assert AttachCase(t, Apply(t, c).0, at.value.parent, at.value.name, Data, r, w);
      }
    case CUnlink(base, path, removeDir) =>
      UnlinkIsAChange(t, base, path, removeDir);
    case CRename(base, path, newBase, newPath) =>
      var oldP, newP := ParseAt(t, base, path), ParseAt(t, newBase, newPath);
      if oldP.Ok? && newP.Ok? {
        RenameIsAChange(t, oldP.value, newP.value);
      }
    case CChmod(base, path, b, r, w) =>
      var i := ParseFileAt(t, base, path, b);
      if Apply(t, c).1 == Done {
        assert ModeCase(t, Apply(t, c).0, i.value, r, w);
      }
  }

  lemma UnlinkIsAChange(t: Tree, base: Ino, path: string, removeDir: bool)
    requires Shape(t)
    ensures Change(t, Unlink(t, base, path, removeDir).0, false)
  {
    var r := Unlink(t, base, path, removeDir);
    if r.1 == Done {
      UnlinkEffect(t, base, path, removeDir);
      var at := ParseAt(t, base, path).value;
      if at.name != "." {
        FoundUnder(t, at.parent, at.name);
        assert RemoveCase(t, r.0, at.parent, at.name, Lookup(t, at.parent, at.name).value);
      }
    }
  }

  lemma RenameIsAChange(t: Tree, oldP: ParentChild, newP: ParentChild)
    requires Shape(t) && IsDir(t, oldP.parent) && IsDir(t, newP.parent)
    requires IsComponent(oldP.name) && IsComponent(newP.name)
    ensures Change(t, RenameParsed(t, oldP, newP).0, MovesOntoDot(t, oldP, newP))
  {
    var r := RenameParsed(t, oldP, newP);
    DotGuards(t, oldP, newP);
    if r.1 == Done && Lookup(t, oldP.parent, oldP.name) != Lookup(t, newP.parent, newP.name) {
      RenameMoves(t, oldP, newP);
      assert MoveCase(t, r.0, newP.parent, newP.name, Lookup(t, oldP.parent, oldP.name).value,
                      MovesOntoDot(t, oldP, newP));
    }
  }

  /** No node goes away, and a detached file stays detached. */
  ghost predicate StaysDetached(t: Tree, t': Tree) {
    && t.nodes.Keys <= t'.nodes.Keys
    && forall i | i in t.nodes && !Linked(t, i) :: i in t'.nodes && !Linked(t', i)
  }

  /** What every change keeps. */
  ghost predicate Keeps(t: Tree, t': Tree, onto: bool) {
    && Shape(t') && t'.root == t.root && StaysDetached(t, t')
    && (NameShape(t) ==> NameShape(t'))
    && (NamesOk(t) && !onto ==> NamesOk(t'))
  }

  lemma ChangeKeeps(t: Tree, t': Tree, onto: bool)
    requires Shape(t) && Change(t, t', onto)
    ensures Keeps(t, t', onto)
  {
    if t' == t {
    } else if exists d, name, body, r, w :: AttachCase(t, t', d, name, body, r, w) {
      var d, name, body, r, w :| AttachCase(t, t', d, name, body, r, w);
      AttachKeeps(t, t', d, name, body, r, w, onto);
    } else if exists d, name, c :: RemoveCase(t, t', d, name, c) {
      var d, name, c :| RemoveCase(t, t', d, name, c);
      RemoveKeeps(t, t', d, name, c, onto);
    } else if exists d, name, m :: MoveCase(t, t', d, name, m, onto) {
      var d, name, m :| MoveCase(t, t', d, name, m, onto);
      MoveKeeps(t, t', d, name, m, onto);
    } else {
      var i, r, w :| ModeCase(t, t', i, r, w);
      ModeKeeps(t, t', i, r, w, onto);
    }
  }

  lemma AttachKeeps(t: Tree, t': Tree, d: Ino, name: string, body: Body, r: bool, w: bool, onto: bool)
    requires Shape(t) && AttachCase(t, t', d, name, body, r, w)
    ensures Keeps(t, t', onto)
  {
    AttachKeepsShape(t, d, name, body, r, w);
    AttachKeepsNames(t, d, name, body, r, w);
    assert forall i | i in t.nodes :: i != t.next && i in t'.nodes && t'.nodes[i].parent == t.nodes[i].parent;
  }

  lemma RemoveKeeps(t: Tree, t': Tree, d: Ino, name: string, c: Ino, onto: bool)
    requires Shape(t) && RemoveCase(t, t', d, name, c)
    ensures Keeps(t, t', onto)
  {
    RemoveKeepsShape(t, d, name, c);
    RemoveEffect(t, d, name, c);
  }

  lemma MoveKeeps(t: Tree, t': Tree, d: Ino, name: string, m: Ino, onto: bool)
    requires Shape(t) && MoveCase(t, t', d, name, m, onto)
    ensures Keeps(t, t', onto)
  {
    MoveKeepsShape(t, d, name, m);
    MoveEffect(t, d, name, m);
  }

  lemma ModeKeeps(t: Tree, t': Tree, i: Ino, r: bool, w: bool, onto: bool)
    requires Shape(t) && ModeCase(t, t', i, r, w)
    ensures Keeps(t, t', onto)
  {
    assert forall x :: Entries(t', x) == Entries(t, x) && Linked(t', x) == Linked(t, x) && IsDir(t', x) == IsDir(t, x);
    ModeKeepsWiring(t, t', i, r, w);
    assert Ranks(t', Rank(t)) by {
      forall x {:trigger Linked(t', x)} | Linked(t', x) && x != t'.root
        ensures Rank(t)[t'.nodes[x].parent.value] < Rank(t)[x]
      {
        assert Linked(t, x);
      }
    }
  }

  lemma ModeKeepsWiring(t: Tree, t': Tree, i: Ino, r: bool, w: bool)
    requires Wired(t) && ModeCase(t, t', i, r, w)
    ensures Wired(t')
  {
    assert forall x :: Entries(t', x) == Entries(t, x) && Linked(t', x) == Linked(t, x) && IsDir(t', x) == IsDir(t, x);
    forall x ensures Distinct(Entries(t', x)) {
      assert Distinct(Entries(t, x));
    }
  }
}
