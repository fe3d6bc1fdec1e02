/**
 The directory tree as a value. A file is identified by its inode number, as `File::getIno` identifies it by its
 address. Every node carries its parent pointer beside the entries of its directory, exactly the two places the
 memory backend keeps the same fact.
 */
module Trees {
  import opened Common
  import opened Paths

  type Ino = int

  datatype Entry = Entry(name: string, child: Ino)

  datatype Body = Data | Dir(entries: seq<Entry>) | Link(target: string)

  /** `canRead` and `canWrite` stand for `mode & 0444` and `mode & 0222`. A null parent pointer is `None`. */
  datatype Node = Node(parent: Option<Ino>, body: Body, canRead: bool, canWrite: bool)

  /** `next` bounds every inode number in use, so it names a file not yet created. */
  datatype Tree = Tree(root: Ino, nodes: map<Ino, Node>, next: Ino)

  // ---------- entry vectors ----------

  ghost predicate HasChild(es: seq<Entry>, c: Ino) {
    exists n :: Entry(n, c) in es
  }

  predicate Distinct(es: seq<Entry>) {
    forall j, k | 0 <= j < k < |es| :: es[j].name != es[k].name && es[j].child != es[k].child
  }

  /** `findEntry`: the child of the first entry with that name. */
  function FindName(es: seq<Entry>, name: string): Option<Ino> {
    if es == [] then None else if es[0].name == name then Some(es[0].child) else FindName(es[1..], name)
  }

  /** `MemoryDirectory::getName`: the name of the first entry with that child, or the empty string. */
  function FindChild(es: seq<Entry>, child: Ino): string {
    if es == [] then "" else if es[0].child == child then es[0].name else FindChild(es[1..], child)
  }

  function EraseName(es: seq<Entry>, name: string): seq<Entry> {
    if es == [] then [] else if es[0].name == name then es[1..] else [es[0]] + EraseName(es[1..], name)
  }

  function EraseChild(es: seq<Entry>, child: Ino): seq<Entry> {
    if es == [] then [] else if es[0].child == child then es[1..] else [es[0]] + EraseChild(es[1..], child)
  }

  lemma {:induction false} FindNameIsMembership(es: seq<Entry>, name: string)
    requires Distinct(es)
    ensures FindName(es, name).None? <==> forall e | e in es :: e.name != name
    ensures forall c :: FindName(es, name) == Some(c) <==> Entry(name, c) in es
  {
    if es != [] {
      FindNameIsMembership(es[1..], name);
      assert es == [es[0]] + es[1..];
    }
  }

  lemma {:induction false} FindChildIsMembership(es: seq<Entry>, name: string, child: Ino)
    requires Distinct(es) && Entry(name, child) in es
    ensures FindChild(es, child) == name
  {
    assert es == [es[0]] + es[1..];
    if es[0].child != child {
      FindChildIsMembership(es[1..], name, child);
    }
  }

  lemma DistinctCons(e: Entry, es: seq<Entry>)
    requires Distinct(es)
    requires forall e' | e' in es :: e'.name != e.name && e'.child != e.child
    ensures Distinct([e] + es)
  {
    forall j, k | 0 <= j < k < |es| + 1
      ensures ([e] + es)[j].name != ([e] + es)[k].name && ([e] + es)[j].child != ([e] + es)[k].child
    {
      assert ([e] + es)[k] == es[k - 1] && es[k - 1] in es;
      assert j > 0 ==> ([e] + es)[j] == es[j - 1];
    }
  }

  lemma DistinctUncons(es: seq<Entry>)
    requires Distinct(es) && es != []
    ensures Distinct(es[1..])
    ensures forall e | e in es[1..] :: e in es && e.name != es[0].name && e.child != es[0].child
    ensures forall e :: e in es <==> e == es[0] || e in es[1..]
  {
    assert es == [es[0]] + es[1..];
  }

  /** Erasing by name drops exactly the entry of that name and keeps the order of the rest. */
  lemma {:induction false} EraseNameKeeps(es: seq<Entry>, name: string)
    requires Distinct(es)
    ensures Distinct(EraseName(es, name))
    ensures forall e :: e in EraseName(es, name) <==> e in es && e.name != name
  {
    if es != [] {
      DistinctUncons(es);
      if es[0].name != name {
        EraseNameKeeps(es[1..], name);
        DistinctCons(es[0], EraseName(es[1..], name));
      }
    }
  }

  lemma {:induction false} EraseChildKeeps(es: seq<Entry>, child: Ino)
    requires Distinct(es)
    ensures Distinct(EraseChild(es, child))
    ensures forall e :: e in EraseChild(es, child) <==> e in es && e.child != child
  {
    if es != [] {
      DistinctUncons(es);
      if es[0].child != child {
        EraseChildKeeps(es[1..], child);
        DistinctCons(es[0], EraseChild(es[1..], child));
      }
    }
  }

  /** The first match decides what is found and what is erased. */
  lemma {:induction false} FirstWithName(es: seq<Entry>, name: string, k: nat)
    requires k <= |es| && (forall j | 0 <= j < k :: es[j].name != name)
    requires k == |es| || es[k].name == name
    ensures FindName(es, name) == if k < |es| then Some(es[k].child) else None
    ensures EraseName(es, name) == if k < |es| then es[..k] + es[k + 1..] else es
  {
    if k > 0 {
      FirstWithName(es[1..], name, k - 1);
    }
  }

  lemma {:induction false} FirstWithChild(es: seq<Entry>, child: Ino, k: nat)
    requires k <= |es| && (forall j | 0 <= j < k :: es[j].child != child)
    requires k == |es| || es[k].child == child
    ensures FindChild(es, child) == if k < |es| then es[k].name else ""
    ensures EraseChild(es, child) == if k < |es| then es[..k] + es[k + 1..] else es
  {
    if k > 0 {
      FirstWithChild(es[1..], child, k - 1);
    }
  }

  // ---------- the shape of a reachable tree ----------

  predicate IsDir(t: Tree, i: Ino) {
    i in t.nodes && t.nodes[i].body.Dir?
  }

  predicate IsLink(t: Tree, i: Ino) {
    i in t.nodes && t.nodes[i].body.Link?
  }

  predicate Linked(t: Tree, i: Ino) {
    i in t.nodes && t.nodes[i].parent.Some?
  }

  function Entries(t: Tree, d: Ino): seq<Entry> {
    if IsDir(t, d) then t.nodes[d].body.entries else []
  }

  ghost predicate RootOk(t: Tree) {
    IsDir(t, t.root) && t.nodes[t.root].parent == Some(t.root)
  }

  /** A file with a parent pointer is among the entries of that parent. */
  ghost predicate ParentsOk(t: Tree) {
    forall i {:trigger Linked(t, i)} | Linked(t, i) && i != t.root ::
      IsDir(t, t.nodes[i].parent.value) && HasChild(Entries(t, t.nodes[i].parent.value), i)
  }

  /** A file among the entries of a directory has that directory as its parent. */
  ghost predicate ChildrenOk(t: Tree) {
    forall d, e {:trigger e in Entries(t, d)} | e in Entries(t, d) ::
      e.child in t.nodes && e.child != t.root && t.nodes[e.child].parent == Some(d)
  }

  ghost predicate DistinctOk(t: Tree) {
    forall d {:trigger Distinct(Entries(t, d))} :: Distinct(Entries(t, d))
  }

  /** Detached directories are empty. */
  ghost predicate DetachedOk(t: Tree) {
    forall d {:trigger Entries(t, d)} | d in t.nodes && t.nodes[d].parent.None? :: Entries(t, d) == []
  }

  ghost predicate FreshOk(t: Tree) {
    forall i {:trigger i in t.nodes} | i in t.nodes :: i < t.next
  }

  /** `r` decreases along every parent pointer, so no chain of parents runs in a circle or goes on for ever. */
  ghost predicate Ranks(t: Tree, r: map<Ino, nat>) {
    && r.Keys == t.nodes.Keys
    && forall i {:trigger Linked(t, i)} | Linked(t, i) && i != t.root ::
         t.nodes[i].parent.value in r && i in r && r[t.nodes[i].parent.value] < r[i]
  }

  ghost predicate Grounded(t: Tree) {
    exists r :: Ranks(t, r)
  }

  ghost predicate Wired(t: Tree) {
    RootOk(t) && ParentsOk(t) && ChildrenOk(t) && DistinctOk(t) && DetachedOk(t) && FreshOk(t)
  }

  /** The invariant of every reachable tree. */
  ghost predicate Shape(t: Tree) {
    Wired(t) && Grounded(t)
  }

  /** Every entry name is one a path can spell. */
  ghost predicate NamesOk(t: Tree) {
    forall d, e {:trigger e in Entries(t, d)} | e in Entries(t, d) :: ValidName(e.name)
  }

  ghost function Rank(t: Tree): (r: map<Ino, nat>)
    requires Grounded(t)
    ensures Ranks(t, r)
  {
    var r :| Ranks(t, r); r
  }

  /** `a` is `x` or one of the directories met on the way from `x` up to the root. */
  ghost predicate Above(t: Tree, a: Ino, x: Ino)
    requires Grounded(t)
    decreases if x in Rank(t) then Rank(t)[x] else 0
  {
    x == a || (Linked(t, x) && x != t.root && Above(t, a, t.nodes[x].parent.value))
  }

  /** The k-th parent of x. */
  function Up(t: Tree, x: Ino, k: nat): Option<Ino>
    decreases k
  {
    if k == 0 then Some(x)
    else if Linked(t, x) then Up(t, t.nodes[x].parent.value, k - 1)
    else None
  }

  /** Every linked file reaches the root in finitely many parent steps. */
  lemma {:induction false} LinkedReachesRoot(t: Tree, x: Ino) returns (k: nat)
    requires Shape(t) && Linked(t, x)
    ensures Up(t, x, k) == Some(t.root) && k <= Rank(t)[x]
    decreases Rank(t)[x]
  {
    if x == t.root {
      k := 0;
    } else {
      var p := t.nodes[x].parent.value;
      ParentIsLinked(t, x);
      k := LinkedReachesRoot(t, p);
      k := k + 1;
    }
  }

  /** A linked file hangs below a linked directory: unlinked directories keep nothing. */
  lemma ParentIsLinked(t: Tree, x: Ino)
    requires Wired(t) && Linked(t, x)
    ensures IsDir(t, t.nodes[x].parent.value) && Linked(t, t.nodes[x].parent.value)
  {
  }

  /** A file sits under at most one (directory, name). */
  lemma OnePlace(t: Tree, d: Ino, n: string, d': Ino, n': string, c: Ino)
    requires Wired(t) && Entry(n, c) in Entries(t, d) && Entry(n', c) in Entries(t, d')
    ensures d == d' && n == n'
  {
    assert Distinct(Entries(t, d));
  }

  // ---------- the backend's primitive changes ----------

  /** `Directory::Handle::getChild` over the memory backend. */
  function Lookup(t: Tree, d: Ino, name: string): Option<Ino> {
    if !Linked(t, d) then None
    else if name == "." then Some(d)
    else if name == ".." then t.nodes[d].parent
    else FindName(Entries(t, d), name)
  }

  function SetNode(t: Tree, i: Ino, n: Node): Tree {
    t.(nodes := t.nodes[i := n])
  }

  function SetEntries(t: Tree, d: Ino, es: seq<Entry>): Tree
    requires d in t.nodes
  {
    SetNode(t, d, t.nodes[d].(body := Dir(es)))
  }

  function SetParent(t: Tree, i: Ino, p: Option<Ino>): Tree
    requires i in t.nodes
  {
    SetNode(t, i, t.nodes[i].(parent := p))
  }

  /** A new file under (d, name): `insertDataFile`, `insertDirectory` and `insertSymlink`. */
  function Attach(t: Tree, d: Ino, name: string, body: Body, canRead: bool, canWrite: bool): Tree
    requires d in t.nodes
  {
    SetNode(SetEntries(t, d, Entries(t, d) + [Entry(name, t.next)]), t.next, Node(Some(d), body, canRead, canWrite))
      .(next := t.next + 1)
  }

  /** `MemoryDirectory::removeChild`: nothing happens when the name is not there. */
  function RemoveName(t: Tree, d: Ino, name: string): Tree
    requires d in t.nodes
  {
    match FindName(Entries(t, d), name)
    case None => t
    case Some(c) =>
      var t1 := if c in t.nodes then SetParent(t, c, None) else t;
      SetEntries(t1, d, EraseName(Entries(t, d), name))
  }

  /** `MemoryDirectory::insertMove` followed by the handle's `setParent`. */
  function Move(t: Tree, d: Ino, name: string, m: Ino): Tree
    requires m in t.nodes && d in t.nodes && Linked(t, m) && t.nodes[m].parent.value in t.nodes
  {
    var p := t.nodes[m].parent.value;
    var t1 := SetEntries(t, p, EraseChild(Entries(t, p), m));
    var t2 := RemoveName(t1, d, name);
    SetParent(SetEntries(t2, d, Entries(t2, d) + [Entry(name, m)]), m, Some(d))
  }
}
