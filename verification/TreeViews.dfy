/**
 The memory backend keeps the same map as the cached directories do, in entry vectors instead of caches: every call on
 the tree is a change of the map.
 */
module TreeViews {
  import opened Common
  import opened Paths
  import opened Trees
  import opened TreeLaws
  import opened PathLaws
  import opened Resolve
  import opened Syscalls
  import opened SyscallLaws
  import opened Runs
  import opened NameMaps

  /** The entries are the pairs, and the parent pointers are the parents. */
  ghost predicate Shows(t: Tree, m: NameMap) {
    && (forall d, e {:trigger e in Entries(t, d)} | e in Entries(t, d) ::
          Pair(d, e.name) in m.pairs && m.pairs[Pair(d, e.name)] == e.child)
    && (forall p {:trigger p in m.pairs} | p in m.pairs :: Entry(p.name, m.pairs[p]) in Entries(t, p.dir))
    && ParentsShow(t, m)
  }

  ghost predicate ParentsShow(t: Tree, m: NameMap) {
    && (forall i {:trigger Linked(t, i)} | Linked(t, i) :: i in m.parents && m.parents[i] == t.nodes[i].parent.value)
    && forall i {:trigger i in m.parents} | i in m.parents :: Linked(t, i)
  }

  /** The handle's lookup over the memory backend is the lookup of the map. */
  lemma LookupIsFind(t: Tree, m: NameMap, d: Ino, name: string)
    requires Shape(t) && Shows(t, m)
    ensures Lookup(t, d, name) == Find(m, d, name)
  {
    assert Distinct(Entries(t, d));
    FindNameIsMembership(Entries(t, d), name);
    var at := Pair(d, name);
    if at in m.pairs {
      assert Entry(name, m.pairs[at]) in Entries(t, d);
    }
    if FindName(Entries(t, d), name).Some? {
      assert Entry(name, FindName(Entries(t, d), name).value) in Entries(t, d);
    }
  }

  /** A map that a tree shows has one place for each file, in a directory with a parent. */
  lemma ShownIsSound(t: Tree, m: NameMap)
    requires Shape(t) && Shows(t, m)
    ensures Sound(m)
  {
    forall p | p in m.pairs
      ensures m.pairs[p] in m.parents && m.parents[m.pairs[p]] == p.dir && p.dir in m.parents
    {
      assert Entry(p.name, m.pairs[p]) in Entries(t, p.dir);
      assert Linked(t, m.pairs[p]);
      assert Linked(t, p.dir);
    }
    forall p, q | p in m.pairs && q in m.pairs && m.pairs[p] == m.pairs[q] ensures p == q {
      OnePlace(t, p.dir, p.name, q.dir, q.name, m.pairs[p]);
    }
  }

  lemma AttachIsPut(t: Tree, m: NameMap, d: Ino, name: string, body: Body, r: bool, w: bool)
    requires Shape(t) && Shows(t, m) && IsDir(t, d) && Linked(t, d) && FindName(Entries(t, d), name).None?
    requires body.Dir? ==> body.entries == []
    ensures Fits(m, Put(Pair(d, name), t.next))
    ensures Shows(Attach(t, d, name, body, r, w), Changed(m, Put(Pair(d, name), t.next)))
  {
    assert Distinct(Entries(t, d));
    FindNameIsMembership(Entries(t, d), name);
    AttachEffect(t, d, name, body, r, w);
    var t' := Attach(t, d, name, body, r, w);
    assert t.next !in t.nodes;
    assert forall i :: Linked(t', i) <==> Linked(t, i) || i == t.next;
    assert Entry(name, t.next) in Entries(t', d);
  }

  lemma RemoveIsTake(t: Tree, m: NameMap, d: Ino, name: string, c: Ino)
    requires Shape(t) && Shows(t, m) && Entry(name, c) in Entries(t, d) && Entries(t, c) == []
    ensures Fits(m, Take(Pair(d, name))) && Shows(RemoveName(t, d, name), Changed(m, Take(Pair(d, name))))
  {
    RemoveEffect(t, d, name, c);
    var t' := RemoveName(t, d, name);
    assert forall i :: Linked(t', i) <==> Linked(t, i) && i != c;
  }

  lemma MoveIsRename(t: Tree, m: NameMap, d: Ino, name: string, x: Ino, oldName: string)
    requires Shape(t) && Shows(t, m) && Movable(t, d, x) && !Above(t, x, d) && OverwritesNothingBelow(t, d, name, x)
    requires Entry(oldName, x) in Entries(t, t.nodes[x].parent.value)
    ensures Shows(Move(t, d, name, x), Changed(m, Rename(Pair(t.nodes[x].parent.value, oldName), Pair(d, name))))
  {
    MoveEffect(t, d, name, x);
    var t' := Move(t, d, name, x);
    var from, to := Pair(t.nodes[x].parent.value, oldName), Pair(d, name);
    RenameIs(m, from, to);
    MovePairs(t, m, d, name, x, from);
    MoveParents(t, m, d, name, x, from);
  }

  lemma MovePairs(t: Tree, m: NameMap, d: Ino, name: string, x: Ino, from: Pair)
    requires Shape(t) && Shows(t, m) && Movable(t, d, x) && from in m.pairs && m.pairs[from] == x
    ensures var m' := Changed(m, Rename(from, Pair(d, name))); var t' := Move(t, d, name, x);
      && (forall y, e {:trigger e in Entries(t', y)} | e in Entries(t', y) ::
            Pair(y, e.name) in m'.pairs && m'.pairs[Pair(y, e.name)] == e.child)
      && forall p {:trigger p in m'.pairs} | p in m'.pairs :: Entry(p.name, m'.pairs[p]) in Entries(t', p.dir)
  {
    var m', t' := Changed(m, Rename(from, Pair(d, name))), Move(t, d, name, x);
    MoveEffect(t, d, name, x);
    RenameIs(m, from, Pair(d, name));
    RenamedPairs(m, from, Pair(d, name));
    ShownIsSound(t, m);
    forall p | p in m'.pairs ensures Entry(p.name, m'.pairs[p]) in Entries(t', p.dir) {
      assert p != Pair(d, name) ==> Entry(p.name, m.pairs[p]) in Entries(t, p.dir);
    }
  }

  /** The pairs after a renaming: the new one, and all old ones but those at the two places. */
  lemma RenamedPairs(m: NameMap, from: Pair, to: Pair)
    requires from in m.pairs
    ensures var m' := Changed(m, Rename(from, to));
      && (forall p :: p in m'.pairs <==> p == to || (p in m.pairs && p != from))
      && forall p | p in m'.pairs :: m'.pairs[p] == if p == to then m.pairs[from] else m.pairs[p]
  {
    RenameIs(m, from, to);
  }

  /** The parents after a renaming: only what was at the new place loses its own. */
  lemma RenamedParents(m: NameMap, from: Pair, to: Pair)
    requires OnePlaceEach(m) && from in m.pairs
    ensures var m' := Changed(m, Rename(from, to)); var x := m.pairs[from];
      && (forall i :: i in m'.parents <==>
            i == x || (i in m.parents && !(to in m.pairs && to != from && i == m.pairs[to])))
      && forall i | i in m'.parents :: m'.parents[i] == if i == x then to.dir else m.parents[i]
  {
    RenameIs(m, from, to);
  }

  lemma MoveParents(t: Tree, m: NameMap, d: Ino, name: string, x: Ino, from: Pair)
    requires Shape(t) && Shows(t, m) && Movable(t, d, x) && from in m.pairs && m.pairs[from] == x
    ensures ParentsShow(Move(t, d, name, x), Changed(m, Rename(from, Pair(d, name))))
  {
    ShownIsSound(t, m);
    MoveEffect(t, d, name, x);
    RenamedParents(m, from, Pair(d, name));
    OverwrittenIsThere(t, m, d, name, x, from);
    MoveLinks(t, d, name, x);
  }

  lemma MoveLinks(t: Tree, d: Ino, name: string, x: Ino)
    requires Shape(t) && Movable(t, d, x) && Overwritten(t, d, name, x) != Some(x)
    ensures forall i :: Linked(Move(t, d, name, x), i) <==> Linked(t, i) && Overwritten(t, d, name, x) != Some(i)
  {
    MoveEffect(t, d, name, x);
  }

  /** What a move overwrites is what the map has there once the moved file has left its place. */
  lemma OverwrittenIsThere(t: Tree, m: NameMap, d: Ino, name: string, x: Ino, from: Pair)
    requires Shape(t) && Shows(t, m) && Movable(t, d, x) && from in m.pairs && m.pairs[from] == x
    ensures var to := Pair(d, name);
      Overwritten(t, d, name, x) == if to in m.pairs && to != from then Some(m.pairs[to]) else None
    ensures Overwritten(t, d, name, x) != Some(x)
  {
    assert Linked(t, d);
    LookupIsFindName(t, m, d, name);
    ShownIsSound(t, m);
  }

  lemma LookupIsFindName(t: Tree, m: NameMap, d: Ino, name: string)
    requires Shape(t) && Shows(t, m)
    ensures FindName(Entries(t, d), name) == if Pair(d, name) in m.pairs then Some(m.pairs[Pair(d, name)]) else None
  {
    assert Distinct(Entries(t, d));
    FindNameIsMembership(Entries(t, d), name);
    if FindName(Entries(t, d), name).Some? {
      assert Entry(name, FindName(Entries(t, d), name).value) in Entries(t, d);
    }
    if Pair(d, name) in m.pairs {
      assert Entry(name, m.pairs[Pair(d, name)]) in Entries(t, d);
    }
  }

  // ---------- calls and runs ----------

  function PairOf(at: ParentChild): Pair {
    Pair(at.parent, at.name)
  }

  /** The entry that holds a linked file. */
  function PlaceOf(t: Tree, x: Ino): Pair
    requires Linked(t, x)
  {
    var p := t.nodes[x].parent.value;
    Pair(p, FindChild(Entries(t, p), x))
  }

  /**
   What a call does to the map, from the places its paths lead to: mkdir, symlink and a creating open put a new file,
   unlink and rmdir take a name, rename renames the entry of its source, and everything else does nothing.
   */
  ghost function ChangeOf(t: Tree, c: Call): NameMaps.Change
    requires Shape(t)
  {
    match c
    case CMkdir(base, path, _, _) => PutIf(t, ParseAt(t, base, path), Apply(t, c).1 == Done)
    case CSymlink(_, base, path) => PutIf(t, ParseAt(t, base, path), Apply(t, c).1 == Done)
    case COpen(base, path, flags, _, _, _) =>
      var at := ParseAt(t, base, path);
      PutIf(t, at, Creates(t, at, flags))
    case CUnlink(base, path, _) => TakeIf(ParseAt(t, base, path), Apply(t, c).1 == Done)
    case CRename(base, path, newBase, newPath) =>
      var oldP, newP := ParseAt(t, base, path), ParseAt(t, newBase, newPath);
      if oldP.Ok? && newP.Ok? && Apply(t, c).1 == Done then RenameOf(t, oldP.value, newP.value) else Nothing
    case CChmod(_, _, _, _, _) => Nothing
  }

  ghost function PutIf(t: Tree, at: Result<ParentChild>, works: bool): NameMaps.Change {
    if at.Ok? && works then Put(PairOf(at.value), t.next) else Nothing
  }

  ghost function TakeIf(at: Result<ParentChild>, works: bool): NameMaps.Change {
    if at.Ok? && at.value.name != "." && works then Take(PairOf(at.value)) else Nothing
  }

  /** The leaf is missing, and open may create it. */
  predicate Creates(t: Tree, at: Result<ParentChild>, flags: OpenFlags) {
    && flags.access != BadMode && flags.create && at.Ok? && |at.value.name| <= MAX_NAME
    && Linked(t, at.value.parent) && Lookup(t, at.value.parent, at.value.name).None?
  }

  ghost function RenameOf(t: Tree, oldP: ParentChild, newP: ParentChild): NameMaps.Change
    requires Shape(t)
  {
    var source := Lookup(t, oldP.parent, oldP.name);
    LookupIsLinked(t, oldP.parent, oldP.name);
    if source.None? || source == Lookup(t, newP.parent, newP.name) then Nothing
    else Rename(PlaceOf(t, source.value), PairOf(newP))
  }

  /** Every call on the tree makes exactly its change of the map. */
  lemma CallIsAChange(t: Tree, m: NameMap, c: Call)
    requires Shape(t) && Shows(t, m)
    ensures Shows(Apply(t, c).0, Changed(m, ChangeOf(t, c)))
  {
    match c
    case CMkdir(base, path, r, w) =>
      if Apply(t, c).1 == Done {
        var at := ParseAt(t, base, path).value;
        AttachShows(t, Apply(t, c).0, m, at.parent, at.name, Dir([]), r, w);
      }
    case CSymlink(target, base, path) =>
      if Apply(t, c).1 == Done {
        var at := ParseAt(t, base, path).value;
        AttachShows(t, Apply(t, c).0, m, at.parent, at.name, Link(target), false, false);
      }
    case COpen(base, path, flags, r, w, _) =>
      if Creates(t, ParseAt(t, base, path), flags) {
        var at := ParseAt(t, base, path).value;
        AttachShows(t, Apply(t, c).0, m, at.parent, at.name, Data, r, w);
      }
    case CUnlink(base, path, removeDir) => UnlinkShows(t, m, base, path, removeDir);
    case CRename(base, path, newBase, newPath) =>
      var oldP, newP := ParseAt(t, base, path), ParseAt(t, newBase, newPath);
      if oldP.Ok? && newP.Ok? {
        RenameShows(t, m, oldP.value, newP.value);
      }
    case CChmod(base, path, b, r, w) =>
      if Apply(t, c).1 == Done {
        ModeShows(t, Apply(t, c).0, m, ParseFileAt(t, base, path, b).value, r, w);
      }
  }

  lemma UnlinkShows(t: Tree, m: NameMap, base: Ino, path: string, removeDir: bool)
    requires Shape(t) && Shows(t, m)
    ensures var r := Unlink(t, base, path, removeDir);
      Shows(r.0, Changed(m, TakeIf(ParseAt(t, base, path), r.1 == Done)))
  {
    if Unlink(t, base, path, removeDir).1 == Done {
      var at, c := UnlinkRemoves(t, base, path, removeDir);
      if at.name != "." {
        RemoveIsTake(t, m, at.parent, at.name, c);
      }
    }
  }

  lemma UnlinkRemoves(t: Tree, base: Ino, path: string, removeDir: bool) returns (at: ParentChild, c: Ino)
    requires Shape(t) && Unlink(t, base, path, removeDir).1 == Done
    ensures ParseAt(t, base, path) == Ok(at) && IsDir(t, at.parent)
    ensures at.name == "." ==> Unlink(t, base, path, removeDir).0 == t
    ensures at.name != "." ==>
      && Entry(at.name, c) in Entries(t, at.parent) && Entries(t, c) == []
      && Unlink(t, base, path, removeDir).0 == RemoveName(t, at.parent, at.name)
  {
    UnlinkEffect(t, base, path, removeDir);
    at := ParseAt(t, base, path).value;
    c := Lookup(t, at.parent, at.name).value;
    if at.name != "." {
      FoundUnder(t, at.parent, at.name);
    }
  }

  lemma RenameShows(t: Tree, m: NameMap, oldP: ParentChild, newP: ParentChild)
    requires Shape(t) && Shows(t, m) && IsDir(t, oldP.parent) && IsDir(t, newP.parent)
    ensures var r := RenameParsed(t, oldP, newP);
      Shows(r.0, Changed(m, if r.1 == Done then RenameOf(t, oldP, newP) else Nothing))
  {
    var r := RenameParsed(t, oldP, newP);
    if r.1 == Done && Lookup(t, oldP.parent, oldP.name) != Lookup(t, newP.parent, newP.name) {
      RenameMoves(t, oldP, newP);
      MoveShows(t, m, newP.parent, newP.name, Lookup(t, oldP.parent, oldP.name).value);
    }
  }

  lemma AttachShows(t: Tree, t': Tree, m: NameMap, d: Ino, name: string, body: Body, r: bool, w: bool)
    requires Shape(t) && Shows(t, m) && IsDir(t, d) && Linked(t, d) && Lookup(t, d, name).None?
    requires (body.Dir? ==> body.entries == []) && t' == Attach(t, d, name, body, r, w)
    ensures Shows(t', Changed(m, Put(Pair(d, name), t.next)))
  {
    AttachIsPut(t, m, d, name, body, r, w);
  }

  lemma MoveShows(t: Tree, m: NameMap, d: Ino, name: string, x: Ino)
    requires Shape(t) && Shows(t, m) && Movable(t, d, x) && !Above(t, x, d) && OverwritesNothingBelow(t, d, name, x)
    ensures Shows(Move(t, d, name, x), Changed(m, Rename(PlaceOf(t, x), Pair(d, name))))
  {
    EntryOf(t, x);
    MoveIsRename(t, m, d, name, x, PlaceOf(t, x).name);
  }

  lemma ModeShows(t: Tree, t': Tree, m: NameMap, i: Ino, r: bool, w: bool)
    requires Shows(t, m) && ModeCase(t, t', i, r, w)
    ensures Shows(t', m)
  {
    assert forall x :: Entries(t', x) == Entries(t, x) && Linked(t', x) == Linked(t, x);
  }

  function ChangedAll(m: NameMap, chs: seq<NameMaps.Change>): NameMap
    decreases chs
  {
    if chs == [] then m else ChangedAll(Changed(m, chs[0]), chs[1..])
  }

  /** The changes that the calls of a run make, one for each call up to a fault. */
  ghost function ChangesOf(t: Tree, cs: seq<Call>): seq<NameMaps.Change>
    requires Shape(t)
    decreases cs
  {
    if cs == [] then []
    else
      ApplyKeeps(t, cs[0]);
      if Apply(t, cs[0]).1 == Fault then [] else [ChangeOf(t, cs[0])] + ChangesOf(Apply(t, cs[0]).0, cs[1..])
  }

  /** After every run of calls the tree shows the map after the changes of those calls. */
  lemma {:induction false} RunShowsAMap(t: Tree, m: NameMap, cs: seq<Call>)
    requires Shape(t) && Shows(t, m)
    ensures Shows(After(t, cs), ChangedAll(m, ChangesOf(t, cs)))
    decreases cs
  {
    if cs != [] {
      ApplyKeeps(t, cs[0]);
      if Apply(t, cs[0]).1 == Fault {
        FailureChangesNothing(t, cs[0]);
      } else {
        var ch, rest := ChangeOf(t, cs[0]), ChangesOf(Apply(t, cs[0]).0, cs[1..]);
        CallIsAChange(t, m, cs[0]);
        RunShowsAMap(Apply(t, cs[0]).0, Changed(m, ch), cs[1..]);
        assert ([ch] + rest)[0] == ch && ([ch] + rest)[1..] == rest;
      }
    }
  }

  /** The map of a new file system. */
  function InitialMap(): NameMap {
    NameMap(map[Pair(0, "dev") := 1, Pair(0, "tmp") := 2], map[0 := 0, 1 := 0, 2 := 0])
  }

  lemma InitialShows()
    ensures Shape(Initial()) && Shows(Initial(), InitialMap())
  {
    InitialIsATree();
    InitialEntries();
    assert forall i :: Linked(Initial(), i) <==> i == 0 || i == 1 || i == 2;
  }

  lemma InitialEntries()
    ensures Entries(Initial(), 0) == [Entry("dev", 1), Entry("tmp", 2)]
    ensures forall d, e | e in Entries(Initial(), d) :: d == 0 && (e == Entry("dev", 1) || e == Entry("tmp", 2))
  {
    assert forall d | d != 0 :: Entries(Initial(), d) == [];
  }

  /**
   After every run from a new file system, every lookup through a directory handle finds what the map holds after the
   changes of the calls, and that map has one place for each file.
   */
  lemma EveryRunShowsAMap(cs: seq<Call>, d: Ino, name: string)
    ensures Shape(Initial())
    ensures var t := After(Initial(), cs); var m := ChangedAll(InitialMap(), ChangesOf(Initial(), cs));
      Shows(t, m) && Sound(m) && Lookup(t, d, name) == Find(m, d, name)
  {
    InitialShows();
    RunShowsAMap(Initial(), InitialMap(), cs);
    var t, m := After(Initial(), cs), ChangedAll(InitialMap(), ChangesOf(Initial(), cs));
    ShownIsSound(t, m);
    LookupIsFind(t, m, d, name);
  }
}
