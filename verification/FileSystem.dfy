/**
 The files of the memory backend as objects that point at each other, and the calls as methods that update them in
 place. A ghost tree records what the pointers say; every method is proved against the functions on that tree.
 */
module FileSystem {
  import opened Common
  import opened Paths
  import opened Trees
  import opened Resolve
  import opened PathLaws
  import opened Syscalls
  import opened Runs

  datatype FileKind = DataKind | DirectoryKind | SymlinkKind

  datatype ChildEntry = ChildEntry(name: string, child: File)

  /** `File`, with the `entries` of `MemoryDirectory` and the `target` of `MemorySymlink`. */
  class File {
    const ino: Ino
    const kind: FileKind
    const target: string
    var canRead: bool
    var canWrite: bool
    var parent: File?
    var entries: seq<ChildEntry>
    ghost var keys: seq<Entry>

    /** `keys` names each child by its inode number. */
    ghost predicate KeysOk()
      reads this
    {
      && |keys| == |entries|
      && forall k | 0 <= k < |entries| :: keys[k] == Entry(entries[k].name, entries[k].child.ino)
    }

    constructor (ino: Ino, kind: FileKind, target: string, canRead: bool, canWrite: bool)
      ensures this.ino == ino && this.kind == kind && this.target == target
      ensures this.canRead == canRead && this.canWrite == canWrite && parent == null && entries == [] && keys == []
    {
      this.ino, this.kind, this.target := ino, kind, target;
      this.canRead, this.canWrite, this.parent, this.entries := canRead, canWrite, null, [];
      this.keys := [];
    }

    /** `findEntry`: the index of the first entry with that name, or the number of entries. */
    method FindEntry(name: string) returns (k: nat)
      requires KeysOk()
      ensures k <= |entries|
      ensures FindName(keys, name) == if k < |entries| then Some(entries[k].child.ino) else None
      ensures k < |entries| ==> EraseName(keys, name) == keys[..k] + keys[k + 1..]
    {
      k := 0;
      while k < |entries| && entries[k].name != name
        invariant k <= |entries| && forall j | 0 <= j < k :: entries[j].name != name
      {
        k := k + 1;
      }
      FirstWithName(keys, name, k);
    }

    /** The `push_back` of `insertChild`. */
    method Append(name: string, child: File)
      requires KeysOk()
      modifies this`entries, this`keys
      ensures KeysOk() && keys == old(keys) + [Entry(name, child.ino)]
      ensures entries == old(entries) + [ChildEntry(name, child)]
    {
      entries := entries + [ChildEntry(name, child)];
      keys := keys + [Entry(name, child.ino)];
    }

    /** `MemoryDirectory::getName`. */
    method GetName(file: File) returns (name: string)
      requires KeysOk()
      requires forall k | 0 <= k < |entries| :: entries[k].child.ino == file.ino ==> entries[k].child == file
      ensures name == FindChild(keys, file.ino)
    {
      var k := 0;
      while k < |entries| && entries[k].child != file
        invariant k <= |entries| && forall j | 0 <= j < k :: entries[j].child != file
      {
        k := k + 1;
      }
      FirstWithChild(keys, file.ino, k);
      name := if k < |entries| then entries[k].name else "";
    }

    method EraseAt(k: nat)
      requires KeysOk() && k < |entries|
      modifies this`entries, this`keys
      ensures KeysOk() && keys == old(keys)[..k] + old(keys)[k + 1..]
      ensures forall j | 0 <= j < |entries| :: entries[j] == old(entries)[if j < k then j else j + 1]
      ensures |entries| == |old(entries)| - 1
    {
      entries := entries[..k] + entries[k + 1..];
      keys := keys[..k] + keys[k + 1..];
    }

    /** The loop of `insertMove` over the old directory's entries. */
    method FindFile(file: File) returns (k: nat)
      requires KeysOk()
      requires forall k | 0 <= k < |entries| :: entries[k].child.ino == file.ino ==> entries[k].child == file
      ensures k <= |entries|
      ensures EraseChild(keys, file.ino) == if k < |entries| then keys[..k] + keys[k + 1..] else keys
    {
      k := 0;
      while k < |entries| && entries[k].child != file
        invariant k <= |entries| && forall j | 0 <= j < k :: entries[j].child != file
      {
        k := k + 1;
      }
      FirstWithChild(keys, file.ino, k);
    }
  }

  twostate predicate Kept(f: File)
    reads f
  {
    f.parent == old(f.parent) && f.entries == old(f.entries) && f.keys == old(f.keys) &&
    f.canRead == old(f.canRead) && f.canWrite == old(f.canWrite)
  }

  ghost function NodeOf(f: File): Node
    reads f
  {
    Node(if f.parent == null then None else Some(f.parent.ino),
         match f.kind case DataKind => Data case DirectoryKind => Dir(f.keys) case SymlinkKind => Link(f.target),
         f.canRead, f.canWrite)
  }

  /** The loop that ignores trailing slashes. */
  method TrimTrailing(path: string) returns (rest: string)
    ensures rest == TrimSlashes(path)
  {
    rest := path;
    while rest != "" && rest[|rest| - 1] == '/'
      invariant TrimSlashes(rest) == TrimSlashes(path)
      decreases |rest|
    {
      rest := rest[..|rest| - 1];
    }
  }

  /** The loop that skips the slashes in front of a segment. */
  method SkipLeading(path: string) returns (rest: string)
    requires path != "" && path[|path| - 1] != '/'
    ensures rest != "" && rest[0] != '/' && rest[|rest| - 1] != '/' && |rest| <= |path|
    ensures Components(rest) == Components(path)
  {
    rest := path;
    while rest[0] == '/'
      invariant rest != "" && rest[|rest| - 1] != '/' && |rest| <= |path|
      invariant Components(rest) == Components(path)
      decreases |rest|
    {
      rest := rest[1..];
    }
  }

  datatype Place = Place(parent: File, name: string)

  function NewBody(kind: FileKind, target: string): Body {
    match kind case DataKind => Data case DirectoryKind => Dir([]) case SymlinkKind => Link(target)
  }

  /** A new file, linked nowhere. */
  function WithNew(t: Tree, node: Node): Tree {
    SetNode(t, t.next, node).(next := t.next + 1)
  }

  /** Creating a file, entering it into a directory and setting its parent is what `Attach` does at once. */
  lemma AttachSteps(t: Tree, d: Ino, name: string, body: Body, canRead: bool, canWrite: bool)
    requires IsDir(t, d) && d != t.next
    ensures var t1 := WithNew(t, Node(None, body, canRead, canWrite));
      && IsDir(t1, d)
      && var t2 := SetEntries(t1, d, Entries(t1, d) + [Entry(name, t.next)]);
      && t.next in t2.nodes && SetParent(t2, t.next, Some(d)) == Attach(t, d, name, body, canRead, canWrite)
  {
  }

  /** Clearing the parent and erasing the entry is what `RemoveName` does at once. */
  lemma RemoveSteps(t: Tree, d: Ino, name: string)
    requires IsDir(t, d) && FindName(Entries(t, d), name).Some? && FindName(Entries(t, d), name).value in t.nodes
    ensures var t1 := SetParent(t, FindName(Entries(t, d), name).value, None);
      && d in t1.nodes && Entries(t1, d) == Entries(t, d)
      && SetEntries(t1, d, EraseName(Entries(t, d), name)) == RemoveName(t, d, name)
  {
  }

  lemma SameEntries(t: Tree, d: Ino)
    requires IsDir(t, d)
    ensures SetEntries(t, d, Entries(t, d)) == t
  {
  }

  function Spot(p: Place): ParentChild {
    ParentChild(p.parent.ino, p.name)
  }

  /** How rename ends if one of its early checks ends it. */
  function EarlyOutcome(t: Tree, oldP: ParentChild, newP: ParentChild): Option<Outcome>
    requires IsDir(t, oldP.parent) && IsDir(t, newP.parent)
  {
    var oldFile, newFile := Lookup(t, oldP.parent, oldP.name), Lookup(t, newP.parent, newP.name);
    if |newP.name| > MAX_NAME then Some(Fail(ENAMETOOLONG))
    else if oldFile.None? then Some(Fail(ENOENT))
    else if oldFile == newFile then Some(Done)
    else if oldFile == Some(t.root) || newFile == Some(t.root) then Some(Fail(EBUSY))
    else if !CanWrite(t, oldP.parent) || !CanWrite(t, newP.parent) then Some(Fail(EACCES))
    else None
  }

  lemma EarlyOutcomeDecides(t: Tree, oldP: ParentChild, newP: ParentChild)
    requires Shape(t) && IsDir(t, oldP.parent) && IsDir(t, newP.parent)
    ensures EarlyOutcome(t, oldP, newP).Some? ==> RenameParsed(t, oldP, newP) == (t, EarlyOutcome(t, oldP, newP).value)
    ensures EarlyOutcome(t, oldP, newP).None? ==>
      var x := Lookup(t, oldP.parent, oldP.name);
      && x.Some? && Linked(t, x.value)
      && RenameParsed(t, oldP, newP) == RenameChecked(t, x.value, Lookup(t, newP.parent, newP.name), newP)
  {
    LookupIsLinked(t, oldP.parent, oldP.name);
  }

  class WasmFS {
    const root: File
    var cwd: File
    var nextIno: Ino  // stands for the allocator, which gives every new file an address of its own
    ghost var files: map<Ino, File>
    ghost var tree: Tree

    ghost predicate Knows(f: File)
      reads this`files
    {
      f.ino in files && files[f.ino] == f
    }

    /** The object with this number says what the tree says, and points only at files of this file system. */
    ghost predicate Agrees(i: Ino)
      requires i in files
      reads this`files, this`tree, files[i]
    {
      var f := files[i];
      && f.ino == i && i in tree.nodes && NodeOf(f) == tree.nodes[i] && f.KeysOk()
      && (f.parent != null ==> Knows(f.parent))
      && (forall k | 0 <= k < |f.entries| :: Knows(f.entries[k].child))
    }

    /** The objects and the tree say the same. */
    ghost predicate Coupled()
      reads this`files, this`tree, this`cwd, this`nextIno, files.Values
    {
      && files.Keys == tree.nodes.Keys
      && KnownDir(root) && root.ino == tree.root
      && KnownDir(cwd)
      && nextIno == tree.next
      && (forall i | i in files :: i < nextIno)
      && AllAgree()
    }

    ghost predicate Valid()
      reads this`files, this`tree, this`cwd, this`nextIno, files.Values
    {
      Coupled() && Shape(tree)
    }

    /** Files that were known stay known, and the others are new. */
    twostate predicate Grew()
      reads this`files
    {
      && (forall i | i in old(files) :: i in files && files[i] == old(files[i]))
      && forall i | i in files && i !in old(files) :: fresh(files[i])
    }

    ghost predicate KnownDir(f: File)
      reads this`files
    {
      Knows(f) && f.kind == DirectoryKind
    }

    ghost predicate SameFile(r: Parsed<File>, s: Parsed<Ino>)
      reads this`files
    {
      r.links == s.links &&
      match r.res
      case Ok(f) => Knows(f) && s.res == Ok(f.ino)
      case Err(e) => s.res == Err(e)
    }

    ghost predicate SamePlace(r: Parsed<Place>, s: Parsed<ParentChild>)
      reads this`files
    {
      r.links == s.links &&
      match r.res
      case Ok(p) => KnownDir(p.parent) && s.res == Ok(ParentChild(p.parent.ino, p.name))
      case Err(e) => s.res == Err(e)
    }

    /** What a file's own fields say about its node. */
    lemma NodeFacts(f: File)
      requires Coupled() && Knows(f)
      ensures f.ino in tree.nodes && tree.nodes[f.ino] == NodeOf(f)
      ensures IsDir(tree, f.ino) <==> f.kind == DirectoryKind
      ensures IsLink(tree, f.ino) <==> f.kind == SymlinkKind
      ensures f.kind == DirectoryKind ==> Entries(tree, f.ino) == f.keys && f.KeysOk()
      ensures Linked(tree, f.ino) <==> f.parent != null
      ensures f.parent != null ==> Knows(f.parent) && tree.nodes[f.ino].parent == Some(f.parent.ino)
      ensures forall k | 0 <= k < |f.entries| :: Knows(f.entries[k].child)
    {
      assert Agrees(f.ino);
    }

    /** A file system with nothing but its root directory, which is its own parent. */
    constructor ()
      ensures Valid() && fresh(files.Values) && tree == Bare() && cwd == root
    {
      root := new File(0, DirectoryKind, "", true, true);
      cwd := root;
      nextIno := 1;
      files := map[];
      tree := Bare();
      new;
      root.parent := root;
      files := map[0 := root];
      BareIsATree();
      assert Agrees(0);
    }

    /** `initRootDirectory`: put "dev" and "tmp" into the new root. */
    method InitRootDirectory()
      requires Valid() && tree == Bare()
      modifies this`files, this`tree, this`nextIno, files.Values
      ensures Valid() && Grew() && tree == Initial()
    {
      BareIsATree();
      NodeFacts(root);
      var dev := InsertChild(root, "dev", DirectoryKind, "", true, false);
      AddTmp();
    }

    method AddTmp()
      requires Coupled() && tree == WithDev()
      modifies this`files, this`tree, this`nextIno, files.Values
      ensures Valid() && Grew() && tree == Initial()
    {
      var tmp := InsertChild(root, "tmp", DirectoryKind, "", true, true);
      InitialIsATree();
    }

    // ---------- one object at a time ----------

    /** What an object has to say to agree. */
    lemma AgreesIf(f: File)
      requires Knows(f) && f.ino in tree.nodes && tree.nodes[f.ino] == NodeOf(f) && f.KeysOk()
      requires f.parent != null ==> Knows(f.parent)
      requires forall k | 0 <= k < |f.entries| :: Knows(f.entries[k].child)
      ensures Agrees(f.ino)
    {
    }

    /** A new file, known but not yet linked anywhere. */
    method NewFile(kind: FileKind, target: string, canRead: bool, canWrite: bool) returns (child: File)
      requires Coupled()
      modifies this`files, this`tree, this`nextIno
      ensures Coupled() && fresh(child) && child.ino == old(tree).next && child.kind == kind
      ensures files == old(files)[child.ino := child] && Grew()
      ensures tree == WithNew(old(tree), Node(None, NewBody(kind, target), canRead, canWrite))
    {
      ghost var grown := WithNew(tree, Node(None, NewBody(kind, target), canRead, canWrite));
      child := new File(nextIno, kind, target, canRead, canWrite);
      files := files[nextIno := child];
      tree := grown;
      nextIno := nextIno + 1;
      AgreesIf(child);
      OthersAgree(child.ino);
    }

    /** `setParent`. */
    method SetParentOf(file: File, parent: File?)
      requires Coupled() && Knows(file) && (parent != null ==> Knows(parent))
      modifies this`tree, file`parent
      ensures Coupled() && file.parent == parent
      ensures tree == SetParent(old(tree), file.ino, if parent == null then None else Some(parent.ino))
    {
      file.parent := parent;
      tree := SetParent(tree, file.ino, if parent == null then None else Some(parent.ino));
      AgreesIf(file);
      OthersAgree(file.ino);
    }

    /** `insertChild`: the entry goes to the end of the vector. */
    method AppendEntry(dir: File, name: string, child: File)
      requires Coupled() && KnownDir(dir) && Knows(child)
      modifies this`tree, dir`entries, dir`keys
      ensures Coupled()
      ensures tree == SetEntries(old(tree), dir.ino, Entries(old(tree), dir.ino) + [Entry(name, child.ino)])
    {
      NodeFacts(dir);
      dir.Append(name, child);
      tree := SetEntries(tree, dir.ino, Entries(tree, dir.ino) + [Entry(name, child.ino)]);
      AgreesIf(dir);
      OthersAgree(dir.ino);
    }

    /** Erase the entry that holds `file`, as the loop of `insertMove` does. */
    method EraseEntryOf(dir: File, file: File)
      requires Coupled() && KnownDir(dir) && Knows(file)
      modifies this`tree, dir`entries, dir`keys
      ensures Coupled()
      ensures tree == SetEntries(old(tree), dir.ino, EraseChild(Entries(old(tree), dir.ino), file.ino))
    {
      NodeFacts(dir);
      var k := dir.FindFile(file);
      if k < |dir.entries| {
        EraseEntryAt(dir, k, EraseChild(dir.keys, file.ino));
      } else {
        SameEntries(tree, dir.ino);
      }
    }

    /** Erase the k-th entry. */
    method EraseEntryAt(dir: File, k: nat, ghost left: seq<Entry>)
      requires Coupled() && KnownDir(dir) && dir.KeysOk() && k < |dir.entries|
      requires left == dir.keys[..k] + dir.keys[k + 1..]
      modifies this`tree, dir`entries, dir`keys
      ensures Coupled() && dir.ino in old(tree).nodes && tree == SetEntries(old(tree), dir.ino, left)
    {
      NodeFacts(dir);
      dir.EraseAt(k);
      tree := SetEntries(tree, dir.ino, left);
      AgreesIf(dir);
      OthersAgree(dir.ino);
    }

    /** `setMode`, as far as the permission checks can see. */
    method SetMode(file: File, canRead: bool, canWrite: bool)
      requires Coupled() && Knows(file)
      modifies this`tree, file`canRead, file`canWrite
      ensures Coupled()
      ensures file.ino in old(tree).nodes
      ensures tree == SetNode(old(tree), file.ino, old(tree).nodes[file.ino].(canRead := canRead, canWrite := canWrite))
    {
      NodeFacts(file);
      file.canRead, file.canWrite := canRead, canWrite;
      tree := SetNode(tree, file.ino, tree.nodes[file.ino].(canRead := canRead, canWrite := canWrite));
      AgreesIf(file);
      OthersAgree(file.ino);
    }

    // ---------- the backend's operations ----------

    /** `insertDataFile`, `insertDirectory` and `insertSymlink`, with the handle's `setParent`. */
    method InsertChild(dir: File, name: string, kind: FileKind, target: string, canRead: bool, canWrite: bool)
      returns (child: File)
      requires Coupled() && KnownDir(dir)
      modifies this`files, this`tree, this`nextIno, dir`entries, dir`keys
      ensures Coupled() && Grew() && Knows(child) && child.ino == old(tree).next
      ensures tree == Attach(old(tree), dir.ino, name, NewBody(kind, target), canRead, canWrite)
    {
      NodeFacts(dir);
      AttachSteps(tree, dir.ino, name, NewBody(kind, target), canRead, canWrite);
      child := NewFile(kind, target, canRead, canWrite);
      AppendEntry(dir, name, child);
      SetParentOf(child, dir);
    }

    /** `MemoryDirectory::removeChild`. */
    method RemoveChild(dir: File, name: string)
      requires Coupled() && KnownDir(dir)
      modifies this`tree, files.Values
      ensures Coupled() && tree == RemoveName(old(tree), dir.ino, name)
    {
      NodeFacts(dir);
      var k := dir.FindEntry(name);
      if k < |dir.entries| {
        RemoveSteps(tree, dir.ino, name);
        SetParentOf(dir.entries[k].child, null);
        NodeFacts(dir);
        EraseEntryAt(dir, k, EraseName(dir.keys, name));
      }
    }

    /** `MemoryDirectory::insertMove`, then the handle's `setParent`. */
    method InsertMove(dir: File, name: string, file: File)
      requires Coupled() && KnownDir(dir) && Knows(file) && file.parent != null && file.parent.kind == DirectoryKind
      modifies this`tree, files.Values
      ensures Coupled()
      ensures Linked(old(tree), file.ino) && old(tree).nodes[file.ino].parent.value in old(tree).nodes
      ensures dir.ino in old(tree).nodes && tree == Move(old(tree), dir.ino, name, file.ino)
    {
      NodeFacts(file);
      NodeFacts(dir);
      EraseEntryOf(file.parent, file);
      RemoveChild(dir, name);
      AppendEntry(dir, name, file);
      SetParentOf(file, dir);
    }

    ghost predicate AllAgree()
      reads this`files, this`tree, files.Values
    {
      forall i | i in files :: Agrees(i)
    }

    /** If only file `d` changed, or was added, and it agrees, then all do. */
    twostate lemma OthersAgree(d: Ino)
      requires old(AllAgree()) && d in files && Agrees(d)
      requires forall j | j in old(files) :: j in files && files[j] == old(files[j])
      requires forall i | i in files && i != d :: i in old(files)
      requires forall i | i in old(files) && i != d :: i in tree.nodes && tree.nodes[i] == old(tree.nodes[i])
      requires forall i | i in old(files) && i != d :: Kept(old(files[i]))
      ensures AllAgree()
    {
      forall i | i in files ensures Agrees(i) {
        if i != d {
          assert old(Agrees(i));
          Untouched(i);
        }
      }
    }

    /** A file whose fields and node did not change still agrees, whatever files were added. */
    twostate lemma Untouched(i: Ino)
      requires i in old(files) && i in files && old(files[i]) == files[i] && old(Agrees(i))
      requires forall j | j in old(files) :: j in files && files[j] == old(files[j])
      requires i in tree.nodes && tree.nodes[i] == old(tree.nodes[i]) && Kept(files[i])
      ensures Agrees(i)
    {
      forall k | 0 <= k < |files[i].entries| ensures Knows(files[i].entries[k].child) {
        assert old(Knows(files[i].entries[k].child));
      }
    }

    /** `Directory::Handle::getChild`. */
    method GetChild(dir: File, name: string) returns (child: File?)
      requires Coupled() && KnownDir(dir)
      ensures child == null ==> Lookup(tree, dir.ino, name).None?
      ensures child != null ==> Knows(child) && Lookup(tree, dir.ino, name) == Some(child.ino)
    {
      NodeFacts(dir);
      if dir.parent == null {
        return null;
      }
      if name == "." {
        return dir;
      }
      if name == ".." {
        return dir.parent;
      }
      var k := dir.FindEntry(name);
      if k < |dir.entries| {
        return dir.entries[k].child;
      }
      return null;
    }

    /** `path::getChild`; the counter of expanded links comes back with the result. */
    method ResolveChild(dir: File, name: string, links: LinkBehavior, recursions: nat) returns (r: Parsed<File>)
      requires Coupled() && KnownDir(dir) && recursions <= MAX_RECURSIONS
      ensures SameFile(r, Resolve.GetChild(tree, dir.ino, name, links, recursions))
      decreases MAX_RECURSIONS - recursions, 1
    {
      var found := GetChild(dir, name);
      if found == null {
        return Parsed(Err(ENOENT), recursions);
      }
      if links == NoFollowLinks {
        return Parsed(Ok(found), recursions);
      }
      r := ExpandLinks(dir, found, recursions);
    }

    /** The loop that expands symbolic links. */
    method ExpandLinks(dir: File, found: File, recursions: nat) returns (r: Parsed<File>)
      requires Coupled() && KnownDir(dir) && Knows(found) && recursions <= MAX_RECURSIONS
      ensures SameFile(r, Expand(tree, dir.ino, found.ino, recursions))
      decreases MAX_RECURSIONS - recursions, 0
    {
      var child, n := found, recursions;
      NodeFacts(child);
      while child.kind == SymlinkKind
        invariant Knows(child) && recursions <= n <= MAX_RECURSIONS
        invariant Expand(tree, dir.ino, child.ino, n) == Expand(tree, dir.ino, found.ino, recursions)
        decreases MAX_RECURSIONS - n
      {
        NodeFacts(child);
        n := n + 1;
        if n > MAX_RECURSIONS {
          return Parsed(Err(ELOOP), n);
        }
        var target := child.target;
        if target == "" {
          return Parsed(Err(ENOENT), n);
        }
        var parsed := ParseFile(target, dir, FollowLinks, n);
        if parsed.res.Err? {
          return parsed;
        }
        child, n := parsed.res.value, parsed.links;
      }
      NodeFacts(child);
      return Parsed(Ok(child), n);
    }

    /** `doParseParent`: scan the string in place, descending one segment at a time. */
    method ParseParent(path: string, base: File, recursions: nat) returns (r: Parsed<Place>)
      requires Coupled() && KnownDir(base) && recursions <= MAX_RECURSIONS
      ensures SamePlace(r, Resolve.ParseParent(tree, path, base.ino, recursions))
      decreases MAX_RECURSIONS - recursions, 3
    {
      if path == "" {
        return Parsed(Err(ENOENT), recursions);
      }
      var rest, curr, n := path, base, recursions;
      NodeFacts(root);
      if rest[0] == '/' {
        curr := root;
        rest := rest[1..];
      }
      ComponentsOfTrimmed(rest);
      rest := TrimTrailing(rest);
      if rest == "" {
        return Parsed(Ok(Place(curr, ".")), n);
      }
      SomeComponent(rest);
      r := DescendPath(rest, curr, n);
    }

    /** The loop of `doParseParent`: take one segment off the front of the string at a time. */
    method DescendPath(path: string, base: File, recursions: nat) returns (r: Parsed<Place>)
      requires Coupled() && KnownDir(base) && recursions <= MAX_RECURSIONS
      requires path != "" && path[|path| - 1] != '/' && Components(path) != []
      ensures SamePlace(r, Descend(tree, Components(path), base.ino, recursions))
      decreases MAX_RECURSIONS - recursions, 2
    {
      var rest, curr, n := path, base, recursions;
      while true
        invariant KnownDir(curr) && n <= MAX_RECURSIONS && recursions <= n
        invariant rest != "" && rest[|rest| - 1] != '/' && Components(rest) != []
        invariant Descend(tree, Components(rest), curr.ino, n) == Descend(tree, Components(path), base.ino, recursions)
        decreases |rest|
      {
        rest := SkipLeading(rest);
        var segmentEnd := SegmentEnd(rest);
        FirstSegment(rest);
        if segmentEnd == |rest| {
          return Parsed(Ok(Place(curr, rest)), n);
        }
        SomeComponent(rest[segmentEnd..]);
        var child := ResolveChild(curr, rest[..segmentEnd], FollowLinks, n);
        if child.res.Err? {
          return Parsed(Err(child.res.error), child.links);
        }
        NodeFacts(child.res.value);
        if child.res.value.kind != DirectoryKind {
          return Parsed(Err(ENOTDIR), child.links);
        }
        curr, n := child.res.value, child.links;
        rest := rest[segmentEnd..];
      }
    }

    /** `doParseFile`. */
    method ParseFile(path: string, base: File, links: LinkBehavior, recursions: nat) returns (r: Parsed<File>)
      requires Coupled() && KnownDir(base) && recursions <= MAX_RECURSIONS
      ensures SameFile(r, Resolve.ParseFile(tree, path, base.ino, links, recursions))
      decreases MAX_RECURSIONS - recursions, 4
    {
      var parsed := ParseParent(path, base, recursions);
      if parsed.res.Err? {
        return Parsed(Err(parsed.res.error), parsed.links);
      }
      r := ResolveChild(parsed.res.value.parent, parsed.res.value.name, links, parsed.links);
    }

    // ---------- the calls ----------

    /** `path::parseParent` from a directory descriptor or the working directory. */
    method ParseBase(base: File, path: string) returns (r: Result<Place>)
      requires Coupled() && Knows(base)
      ensures match r
        case Ok(p) => KnownDir(p.parent) && ParseAt(tree, base.ino, path) == Ok(ParentChild(p.parent.ino, p.name))
        case Err(e) => ParseAt(tree, base.ino, path) == Err(e)
    {
      NodeFacts(base);
      if base.kind != DirectoryKind {
        return Err(ENOTDIR);
      }
      var parsed := ParseParent(path, base, 0);
      return parsed.res;
    }

    /** `doMkdir`. */
    method DoMkdir(base: File, path: string, canRead: bool, canWrite: bool) returns (out: Outcome)
      requires Coupled() && RootOk(tree) && Knows(base)
      modifies this`files, this`tree, this`nextIno, files.Values
      ensures Coupled() && Grew() && (tree, out) == Mkdir(old(tree), base.ino, path, canRead, canWrite)
    {
      var parsed := ParseBase(base, path);
      if parsed.Err? {
        return Fail(parsed.error);
      }
      out := DoMkdirAt(parsed.value.parent, parsed.value.name, canRead, canWrite);
    }

    method DoMkdirAt(parent: File, name: string, canRead: bool, canWrite: bool) returns (out: Outcome)
      requires Coupled() && KnownDir(parent)
      modifies this`files, this`tree, this`nextIno, files.Values
      ensures Coupled() && Grew() && parent.ino in old(tree).nodes
      ensures (tree, out) == MkdirAt(old(tree), parent.ino, name, canRead, canWrite)
    {
      NodeFacts(parent);
      if |name| > MAX_NAME {
        return Fail(ENAMETOOLONG);
      }
      var child := GetChild(parent, name);
      if child != null {
        return Fail(EEXIST);
      }
      if !parent.canWrite {
        return Fail(EACCES);
      }
      if parent.parent == null {
        return Fail(EIO);
      }
      var _ := InsertChild(parent, name, DirectoryKind, "", canRead, canWrite);
      return Done;
    }

    method DoSymlink(target: string, base: File, path: string) returns (out: Outcome)
      requires Coupled() && RootOk(tree) && Knows(base)
      modifies this`files, this`tree, this`nextIno, files.Values
      ensures Coupled() && Grew() && (tree, out) == Syscalls.Symlink(old(tree), target, base.ino, path)
    {
      var parsed := ParseBase(base, path);
      if parsed.Err? {
        return Fail(parsed.error);
      }
      out := DoSymlinkAt(target, parsed.value.parent, parsed.value.name);
    }

    method DoSymlinkAt(target: string, parent: File, name: string) returns (out: Outcome)
      requires Coupled() && KnownDir(parent)
      modifies this`files, this`tree, this`nextIno, files.Values
      ensures Coupled() && Grew() && parent.ino in old(tree).nodes
      ensures (tree, out) == SymlinkAt(old(tree), target, parent.ino, name)
    {
      NodeFacts(parent);
      if |name| > MAX_NAME {
        return Fail(ENAMETOOLONG);
      }
      var child := GetChild(parent, name);
      if child != null {
        return Fail(EEXIST);
      }
      if parent.parent == null {
        return Fail(EPERM);
      }
      var _ := InsertChild(parent, name, SymlinkKind, target, false, false);
      return Done;
    }

    /** `doOpen`. */
    method DoOpen(base: File, path: string, flags: OpenFlags, canRead: bool, canWrite: bool, wantFd: bool)
      returns (out: Outcome, file: File?)
      requires Coupled() && RootOk(tree) && Knows(base)
      modifies this`files, this`tree, this`nextIno, files.Values
      ensures Coupled() && Grew() && (tree, out) == Open(old(tree), base.ino, path, flags, canRead, canWrite, wantFd)
      ensures out.Opened? ==> file != null && Knows(file) && file.ino == out.file
    {
      file := null;
      if flags.access == BadMode {
        return Fail(EINVAL), null;
      }
      var parsed := ParseBase(base, path);
      if parsed.Err? {
        return Fail(parsed.error), null;
      }
      out, file := DoOpenAt(parsed.value.parent, parsed.value.name, flags, canRead, canWrite, wantFd);
    }

    method DoOpenAt(parent: File, name: string, flags: OpenFlags, canRead: bool, canWrite: bool, wantFd: bool)
      returns (out: Outcome, file: File?)
      requires Coupled() && KnownDir(parent) && flags.access != BadMode
      modifies this`files, this`tree, this`nextIno, files.Values
      ensures Coupled() && Grew() && parent.ino in old(tree).nodes
      ensures (tree, out) == OpenAt(old(tree), parent.ino, name, flags, canRead, canWrite, wantFd)
      ensures out.Opened? ==> file != null && Knows(file) && file.ino == out.file
    {
      NodeFacts(parent);
      if |name| > MAX_NAME {
        return Fail(ENAMETOOLONG), null;
      }
      var child := GetChild(parent, name);
      if child == null {
        if !flags.create || parent.parent == null {
          return Fail(ENOENT), null;
        }
        file := InsertChild(parent, name, DataKind, "", canRead, canWrite);
        out := if wantFd then Opened(file.ino, false) else Done;
      } else {
        out, file := OpenFound(parent, child, flags);
      }
    }

    /** The part of `doOpen` that runs when the leaf exists: follow it if it is a link, then check it. */
    method OpenFound(parent: File, found: File, flags: OpenFlags) returns (out: Outcome, child: File)
      requires Coupled() && KnownDir(parent) && Knows(found) && flags.access != BadMode
      ensures out == Syscalls.OpenFound(tree, parent.ino, found.ino, flags)
      ensures Knows(child) && (out.Opened? ==> child.ino == out.file)
    {
      NodeFacts(found);
      child := found;
      if child.kind == SymlinkKind {
        if flags.noFollow {
          return Fail(ELOOP), child;
        }
        var followed := ParseFile(child.target, parent, FollowLinks, 0);
        if followed.res.Err? {
          return Fail(followed.res.error), child;
        }
        child := followed.res.value;
      }
      out := CheckOpen(child, flags);
    }

    /** The checks `doOpen` makes on the file it found. */
    method CheckOpen(child: File, flags: OpenFlags) returns (out: Outcome)
      requires Coupled() && Knows(child) && flags.access != BadMode
      ensures out == OpenExisting(tree, child.ino, flags)
    {
      NodeFacts(child);
      if flags.exclusive && flags.create {
        return Fail(EEXIST);
      }
      if child.kind == DirectoryKind && flags.access != ReadOnly {
        return Fail(EISDIR);
      }
      if flags.access != WriteOnly && !child.canRead {
        return Fail(EACCES);
      }
      if flags.access != ReadOnly && !child.canWrite {
        return Fail(EACCES);
      }
      if flags.directory && child.kind != DirectoryKind {
        return Fail(ENOTDIR);
      }
      if flags.truncate {
        if child.kind == DirectoryKind {
          return Fail(EISDIR);
        }
        if !child.canWrite {
          return Fail(EACCES);
        }
      }
      return Opened(child.ino, flags.truncate);
    }

    method DoUnlink(base: File, path: string, removeDir: bool) returns (out: Outcome)
      requires Coupled() && RootOk(tree) && Knows(base)
      modifies this`tree, files.Values
      ensures Coupled() && (tree, out) == Unlink(old(tree), base.ino, path, removeDir)
    {
      if removeDir {
        var p := TrimTrailing(path);
        if |p| >= 2 && p[|p| - 2..] == "/." {
          return Fail(EINVAL);
        }
      }
      var parsed := ParseBase(base, path);
      if parsed.Err? {
        return Fail(parsed.error);
      }
      out := DoUnlinkAt(parsed.value.parent, parsed.value.name, removeDir);
    }

    method DoUnlinkAt(parent: File, name: string, removeDir: bool) returns (out: Outcome)
      requires Coupled() && KnownDir(parent)
      modifies this`tree, files.Values
      ensures Coupled() && parent.ino in old(tree).nodes
      ensures (tree, out) == UnlinkAt(old(tree), parent.ino, name, removeDir)
    {
      NodeFacts(parent);
      var file := GetChild(parent, name);
      if file == null {
        return Fail(ENOENT);
      }
      var refused := CheckUnlink(parent, file, removeDir);
      if refused.Some? {
        return Fail(refused.value);
      }
      RemoveChild(parent, name);
      return Done;
    }

    method CheckUnlink(parent: File, file: File, removeDir: bool) returns (refused: Option<Errno>)
      requires Coupled() && KnownDir(parent) && Knows(file)
      ensures refused ==
        if file.ino == tree.root then Some(EBUSY)
        else if IsDir(tree, file.ino) && !removeDir then Some(EISDIR)
        else if IsDir(tree, file.ino) && Entries(tree, file.ino) != [] then Some(ENOTEMPTY)
        else if !IsDir(tree, file.ino) && removeDir then Some(ENOTDIR)
        else if !CanWrite(tree, parent.ino) then Some(EACCES)
        else None
    {
      NodeFacts(parent);
      NodeFacts(file);
      if file == root {
        return Some(EBUSY);
      }
      if file.kind == DirectoryKind {
        if !removeDir {
          return Some(EISDIR);
        }
        if |file.entries| > 0 {
          return Some(ENOTEMPTY);
        }
      } else if removeDir {
        return Some(ENOTDIR);
      }
      if !parent.canWrite {
        return Some(EACCES);
      }
      return None;
    }

    /** The ancestor walk of rename. `Lost` is where the code would dereference null. */
    method ClimbToRoot(file: File, start: File) returns (c: Climbed)
      requires Valid() && Knows(file) && Knows(start)
      ensures c == Climb(tree, file.ino, start.ino)
    {
      var curr: File := start;
      NodeFacts(curr);
      while curr != root
        invariant Knows(curr) && curr.ino in Rank(tree)
        invariant Climb(tree, file.ino, curr.ino) == Climb(tree, file.ino, start.ino)
        decreases Rank(tree)[curr.ino]
      {
        NodeFacts(curr);
        if curr == file {
          return Hit;
        }
        if curr.parent == null {
          return Lost;
        }
        NodeFacts(curr.parent);
        curr := curr.parent;
      }
      return ReachedRoot;
    }

    /** The last checks of rename: what may overwrite what. */
    method CheckOverwrite(oldFile: File, newFile: File) returns (refused: Option<Errno>)
      requires Coupled() && Knows(oldFile) && Knows(newFile)
      ensures refused == OverwriteError(tree, oldFile.ino, newFile.ino)
    {
      NodeFacts(oldFile);
      NodeFacts(newFile);
      if newFile.kind == DirectoryKind {
        if oldFile.kind != DirectoryKind {
          return Some(EISDIR);
        }
        if |newFile.entries| > 0 {
          return Some(ENOTEMPTY);
        }
      } else if oldFile.kind == DirectoryKind {
        return Some(ENOTDIR);
      }
      return None;
    }

    /** The early checks of rename. */
    method CheckRename(oldP: Place, newP: Place) returns (refused: Option<Outcome>, oldFile: File?, newFile: File?)
      requires Coupled() && KnownDir(oldP.parent) && KnownDir(newP.parent)
      ensures IsDir(tree, oldP.parent.ino) && IsDir(tree, newP.parent.ino)
      ensures oldFile == null ==> Lookup(tree, oldP.parent.ino, oldP.name).None?
      ensures oldFile != null ==> Knows(oldFile) && Lookup(tree, oldP.parent.ino, oldP.name) == Some(oldFile.ino)
      ensures newFile == null ==> Lookup(tree, newP.parent.ino, newP.name).None?
      ensures newFile != null ==> Knows(newFile) && Lookup(tree, newP.parent.ino, newP.name) == Some(newFile.ino)
      ensures refused == EarlyOutcome(tree, Spot(oldP), Spot(newP))
    {
      oldFile := GetChild(oldP.parent, oldP.name);
      newFile := GetChild(newP.parent, newP.name);
      NodeFacts(oldP.parent);
      NodeFacts(newP.parent);
      refused := None;
      if |newP.name| > MAX_NAME {
        refused := Some(Fail(ENAMETOOLONG));
      } else if oldFile == null {
        refused := Some(Fail(ENOENT));
      } else if oldFile == newFile {
        refused := Some(Done);
      } else if oldFile == root || newFile == root {
        refused := Some(Fail(EBUSY));
      } else if !oldP.parent.canWrite || !newP.parent.canWrite {
        refused := Some(Fail(EACCES));
      }
    }

    method DoRename(oldP: Place, newP: Place) returns (out: Outcome)
      requires Valid() && KnownDir(oldP.parent) && KnownDir(newP.parent)
      modifies this`tree, files.Values
      ensures Coupled()
      ensures IsDir(old(tree), oldP.parent.ino) && IsDir(old(tree), newP.parent.ino)
      ensures (tree, out) == RenameParsed(old(tree), Spot(oldP), Spot(newP))
    {
      var refused, oldFile, newFile := CheckRename(oldP, newP);
      EarlyOutcomeDecides(tree, Spot(oldP), Spot(newP));
      if refused.Some? {
        return refused.value;
      }
      out := RenameFound(newP, oldFile, newFile);
    }

    /** Rename after its early checks. */
    method RenameFound(newP: Place, oldFile: File, newFile: File?) returns (out: Outcome)
      requires Valid() && KnownDir(newP.parent) && Knows(oldFile) && Linked(tree, oldFile.ino)
      requires newFile != null ==> Knows(newFile)
      modifies this`tree, files.Values
      ensures Coupled() && IsDir(old(tree), newP.parent.ino)
      ensures (tree, out) == RenameChecked(old(tree), oldFile.ino, if newFile == null then None else Some(newFile.ino),
                                           ParentChild(newP.parent.ino, newP.name))
    {
      NodeFacts(newP.parent);
      var climbed := ClimbToRoot(oldFile, newP.parent);
      if climbed == Hit {
        return Fail(EINVAL);
      }
      if climbed == Lost {
        return Fault;
      }
      if newFile != null {
        var error := CheckOverwrite(oldFile, newFile);
        if error.Some? {
          return Fail(error.value);
        }
      }
      MoveLinked(newP.parent, newP.name, oldFile);
      return Done;
    }

    /** A linked file has a directory for a parent, which is all `insertMove` needs. */
    method MoveLinked(dir: File, name: string, file: File)
      requires Valid() && KnownDir(dir) && Knows(file) && Linked(tree, file.ino)
      modifies this`tree, files.Values
      ensures Coupled()
      ensures Linked(old(tree), file.ino) && old(tree).nodes[file.ino].parent.value in old(tree).nodes
      ensures dir.ino in old(tree).nodes && tree == Move(old(tree), dir.ino, name, file.ino)
    {
      ParentIsLinked(tree, file.ino);
      NodeFacts(file);
      NodeFacts(file.parent);
      InsertMove(dir, name, file);
    }

    // ---------- the entry points ----------

    method Mkdirat(base: File, path: string, canRead: bool, canWrite: bool) returns (out: Outcome)
      requires Valid() && Knows(base)
      modifies this`files, this`tree, this`nextIno, files.Values
      ensures Valid() && Grew() && (tree, out) == Mkdir(old(tree), base.ino, path, canRead, canWrite)
    {
      out := DoMkdir(base, path, canRead, canWrite);
      StaysATree(old(tree), CMkdir(base.ino, path, canRead, canWrite), tree, out);
    }

    method Symlinkat(target: string, base: File, path: string) returns (out: Outcome)
      requires Valid() && Knows(base)
      modifies this`files, this`tree, this`nextIno, files.Values
      ensures Valid() && Grew() && (tree, out) == Syscalls.Symlink(old(tree), target, base.ino, path)
    {
      out := DoSymlink(target, base, path);
      StaysATree(old(tree), CSymlink(target, base.ino, path), tree, out);
    }

    method Openat(base: File, path: string, flags: OpenFlags, canRead: bool, canWrite: bool, wantFd: bool)
      returns (out: Outcome, file: File?)
      requires Valid() && Knows(base)
      modifies this`files, this`tree, this`nextIno, files.Values
      ensures out.Opened? ==> file != null && Knows(file) && file.ino == out.file
      ensures Valid() && Grew() && (tree, out) == Open(old(tree), base.ino, path, flags, canRead, canWrite, wantFd)
    {
      out, file := DoOpen(base, path, flags, canRead, canWrite, wantFd);
      StaysATree(old(tree), COpen(base.ino, path, flags, canRead, canWrite, wantFd), tree, out);
    }

    method Unlinkat(base: File, path: string, removeDir: bool) returns (out: Outcome)
      requires Valid() && Knows(base)
      modifies this`tree, files.Values
      ensures Valid() && (tree, out) == Unlink(old(tree), base.ino, path, removeDir)
    {
      out := DoUnlink(base, path, removeDir);
      UnlinkStaysATree(old(tree), base.ino, path, removeDir, tree, out);
    }

    method Renameat(oldBase: File, oldPath: string, newBase: File, newPath: string) returns (out: Outcome)
      requires Valid() && Knows(oldBase) && Knows(newBase)
      modifies this`tree, files.Values
      ensures Valid() && (tree, out) == Rename(old(tree), oldBase.ino, oldPath, newBase.ino, newPath)
    {
      out := RenamePaths(oldBase, oldPath, newBase, newPath);
      StaysATree(old(tree), CRename(oldBase.ino, oldPath, newBase.ino, newPath), tree, out);
    }

    method RenamePaths(oldBase: File, oldPath: string, newBase: File, newPath: string) returns (out: Outcome)
      requires Valid() && Knows(oldBase) && Knows(newBase)
      modifies this`tree, files.Values
      ensures Coupled() && (tree, out) == Rename(old(tree), oldBase.ino, oldPath, newBase.ino, newPath)
    {
      var oldP := ParseBase(oldBase, oldPath);
      if oldP.Err? {
        return Fail(oldP.error);
      }
      var newP := ParseBase(newBase, newPath);
      if newP.Err? {
        return Fail(newP.error);
      }
      out := DoRename(oldP.value, newP.value);
    }

    /** `fchmodat`: only the permission bits change. */
    method Chmodat(base: File, path: string, links: LinkBehavior, canRead: bool, canWrite: bool) returns (out: Outcome)
      requires Valid() && Knows(base)
      modifies this`tree, files.Values
      ensures Valid() && (tree, out) == Chmod(old(tree), base.ino, path, links, canRead, canWrite)
    {
      out := DoChmod(base, path, links, canRead, canWrite);
      StaysATree(old(tree), CChmod(base.ino, path, links, canRead, canWrite), tree, out);
    }

    method DoChmod(base: File, path: string, links: LinkBehavior, canRead: bool, canWrite: bool) returns (out: Outcome)
      requires Coupled() && Knows(base)
      modifies this`tree, files.Values
      ensures Coupled() && (tree, out) == Chmod(old(tree), base.ino, path, links, canRead, canWrite)
    {
      NodeFacts(base);
      if base.kind != DirectoryKind {
        return Fail(ENOTDIR);
      }
      var parsed := ParseFile(path, base, links, 0);
      if parsed.res.Err? {
        return Fail(parsed.res.error);
      }
      SetMode(parsed.res.value, canRead, canWrite);
      return Done;
    }

    /** `chdir`. */
    method Chdir(base: File, path: string) returns (out: Outcome)
      requires Coupled() && Knows(base)
      modifies this`cwd
      ensures Coupled()
      ensures match ParseFileAt(tree, base.ino, path, FollowLinks)
        case Err(e) => out == Fail(e) && cwd == old(cwd)
        case Ok(i) => if IsDir(tree, i) then out == Done && cwd.ino == i else out == Fail(ENOTDIR) && cwd == old(cwd)
    {
      NodeFacts(base);
      if base.kind != DirectoryKind {
        return Fail(ENOTDIR);
      }
      var parsed := ParseFile(path, base, FollowLinks, 0);
      if parsed.res.Err? {
        return Fail(parsed.res.error);
      }
      NodeFacts(parsed.res.value);
      if parsed.res.value.kind != DirectoryKind {
        return Fail(ENOTDIR);
      }
      cwd := parsed.res.value;
      return Done;
    }

    /** The loop of getcwd: walk up to the root, putting each name in front of the result. */
    method NamesAbove() returns (r: Option<string>)
      requires Valid()
      ensures r.Some? <==> Linked(tree, cwd.ino)
      ensures r.Some? ==> r.value == Render(NamesTo(tree, cwd.ino))
    {
      var curr: File, result := cwd, "";
      NodeFacts(curr);
      while curr != root
        invariant Knows(curr) && curr.ino in Rank(tree)
        invariant Linked(tree, curr.ino) == Linked(tree, cwd.ino)
        invariant Linked(tree, cwd.ino) ==> Render(NamesTo(tree, cwd.ino)) == Render(NamesTo(tree, curr.ino)) + result
        decreases Rank(tree)[curr.ino]
      {
        NodeFacts(curr);
        if curr.parent == null {
          return None;
        }
        curr, result := NameAbove(curr, result);
      }
      NodeFacts(root);
      return Some(result);
    }

    method NameAbove(curr: File, result: string) returns (parentDir: File, longer: string)
      requires Valid() && Knows(curr) && curr != root && curr.parent != null && Linked(tree, curr.ino)
      ensures parentDir == curr.parent && Knows(parentDir) && Linked(tree, parentDir.ino)
      ensures parentDir.ino in Rank(tree) && curr.ino in Rank(tree) && Rank(tree)[parentDir.ino] < Rank(tree)[curr.ino]
      ensures Render(NamesTo(tree, curr.ino)) + result == Render(NamesTo(tree, parentDir.ino)) + longer
    {
      NodeFacts(curr);
      parentDir := curr.parent;
      NodeFacts(parentDir);
      var name := parentDir.GetName(curr);
      NameIsLast(tree, curr.ino, parentDir.ino, name);
      longer := "/" + name + result;
    }

    /** `getcwd`. */
    method GetCwd(nullBuf: bool, size: nat) returns (r: Result<string>)
      requires Valid()
      ensures r == Getcwd(tree, cwd.ino, nullBuf, size)
    {
      if nullBuf && size > 0 {
        return Err(EFAULT);
      }
      if !nullBuf && size == 0 {
        return Err(EINVAL);
      }
      var names := NamesAbove();
      if names.None? {
        return Err(ENOENT);
      }
      var result := names.value;
      EmptyOnlyAtRoot(tree, cwd.ino);
      if result == "" {
        result := "/";
      }
      if |result| + 1 >= size {
        return Err(ERANGE);
      }
      return Ok(result);
    }
  }

  lemma StaysATree(t: Tree, c: Call, t': Tree, out: Outcome)
    requires Shape(t) && (t', out) == Apply(t, c)
    ensures Shape(t')
  {
    ApplyKeeps(t, c);
  }

  lemma UnlinkStaysATree(t: Tree, base: Ino, path: string, removeDir: bool, t': Tree, out: Outcome)
    requires Shape(t) && (t', out) == Unlink(t, base, path, removeDir)
    ensures Shape(t')
  {
    StaysATree(t, CUnlink(base, path, removeDir), t', out);
  }

  /** The name of a file comes last in its path. */
  lemma NameIsLast(t: Tree, i: Ino, p: Ino, name: string)
    requires Shape(t) && Linked(t, i) && i != t.root && t.nodes[i].parent == Some(p)
    requires name == FindChild(Entries(t, p), i)
    ensures Linked(t, p) && p in Rank(t) && i in Rank(t) && Rank(t)[p] < Rank(t)[i]
    ensures Render(NamesTo(t, i)) == Render(NamesTo(t, p)) + ("/" + name)
  {
    ParentIsLinked(t, i);
    RenderSnoc(NamesTo(t, p), name);
  }

  lemma EmptyOnlyAtRoot(t: Tree, i: Ino)
    requires Shape(t) && Linked(t, i)
    ensures Render(NamesTo(t, i)) == "" <==> i == t.root
  {
  }
}
