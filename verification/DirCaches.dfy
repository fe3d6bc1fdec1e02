/**
 `Directory::Handle` over backends that hand out a new `File` object at every lookup. Its directory cache makes it a map
 that keeps file identity. The answers of the backend's fallible operations are parameters.
 */
module DirCaches {
  import opened Common
  import opened NameMaps
  import opened ObjectCaches
  import opened ObjectRuns
  import opened CachedFiles

  /** `Directory::Handle::getChild`. */
  method GetChild(fs: Files, d: File, name: string) returns (child: File?)
    requires fs.Valid(false) && fs.KnowsDir(d)
    modifies fs, d`children, d`cache
    ensures old(Allowed(false, fs.st, Op.Find(d.serial, name)) && NewSerial(fs.st))
    ensures fs.Grew() && (child != null ==> fs.Knows(child))
    ensures fs.Did(false, Op.Find(d.serial, name), Gave(SerialOf(child)))
  {
    ghost var before := fs.st;
    fs.ObjFacts(d);
    child := DoGetChild(fs, d, name);
    fs.Simulate(false, before, Op.Find(d.serial, name));
  }

  method DoGetChild(fs: Files, d: File, name: string) returns (child: File?)
    requires fs.Coupled() && fs.KnowsDir(d) && IsDir(fs.st, d.serial) && NewSerial(fs.st)
    modifies fs`files, fs`st, fs`nextSerial, d`children, d`cache
    ensures fs.Grew() && fs.Coupled() && (fs.st, SerialOf(child)) == Found(false, old(fs.st), d.serial, name)
    ensures child != null ==> fs.Knows(child)
  {
    fs.ObjFacts(d);
    if d.parent == null {
      return null;
    }
    if name == "." {
      return d;
    }
    if name == ".." {
      return d.parent;
    }
    if name in d.children {
      return d.children[name].file;
    }
    if name !in fs.store[d.id] {
      return null;
    }
    child := fs.HandOut(d, name, name, fs.store[d.id][name]);
  }

  /** `insertDataFile` and its siblings, for a name that is free; `ok` is the backend's answer. */
  method Insert(fs: Files, d: File, name: string, kind: Kind, ok: bool) returns (child: File?)
    requires fs.Valid(false) && fs.KnowsDir(d) && Allowed(false, fs.st, Op.Insert(d.serial, name, kind, ok))
    modifies fs, d`children, d`cache
    ensures old(NewSerial(fs.st))
    ensures fs.Grew() && (child != null ==> fs.Knows(child))
    ensures fs.Did(false, Op.Insert(d.serial, name, kind, ok), Gave(SerialOf(child)))
  {
    ghost var before := fs.st;
    child := DoInsert(fs, d, name, kind, ok);
    fs.Simulate(false, before, Op.Insert(d.serial, name, kind, ok));
  }

  method DoInsert(fs: Files, d: File, name: string, kind: Kind, ok: bool) returns (child: File?)
    requires fs.Coupled() && fs.KnowsDir(d) && IsDir(fs.st, d.serial) && NewSerial(fs.st)
    modifies fs`store, fs`kinds, fs`nextId, fs`files, fs`st, fs`nextSerial, d`children, d`cache
    ensures fs.Grew() && fs.Coupled()
    ensures (fs.st, SerialOf(child)) == Inserted(false, old(fs.st), d.serial, name, kind, ok)
    ensures child != null ==> fs.Knows(child)
  {
    fs.ObjFacts(d);
    if d.parent == null || !ok {
      return null;
    }
    child := fs.CreateIn(d, name, name, kind);
  }

  /** `Directory::Handle::removeChild`; `err` is the backend's answer. */
  method RemoveChild(fs: Files, d: File, name: string, err: Option<Errno>) returns (r: Option<Errno>)
    requires fs.Valid(false) && fs.KnowsDir(d) && Asserted(false, fs.st, Op.Remove(d.serial, name, err))
    modifies fs`store, fs`st, fs`names, fs`objectOf, d`children, d`cache, ChildAt(d, name)`parent
    ensures old(NewSerial(fs.st))
    ensures fs.DidOrLost(false, Op.Remove(d.serial, name, err), Returned(r))
  {
    ghost var before := fs.st;
    r := DoRemove(fs, d, name, err);
    fs.SimulateIf(false, before, Op.Remove(d.serial, name, err));
  }

  method DoRemove(fs: Files, d: File, name: string, err: Option<Errno>) returns (r: Option<Errno>)
    requires fs.Coupled() && fs.KnowsDir(d) && Asserted(false, fs.st, Op.Remove(d.serial, name, err))
    modifies fs`store, fs`st, d`children, d`cache, ChildAt(d, name)`parent
    ensures fs.Coupled() && (fs.st, r) == Removed(old(fs.st), d.serial, name, err)
  {
    fs.ObjFacts(d);
    if name in d.children && d.children[name].mount {
      fs.DropChild(d, name);
      return None;
    }
    if err.Some? {
      return err;
    }
    fs.Clear(d, name);
    return None;
  }

  /** A new file of some backend, in no directory yet. */
  method CreateFile(fs: Files, kind: Kind) returns (f: File)
    requires fs.Valid(false)
    modifies fs
    ensures old(NewSerial(fs.st)) && fs.Grew() && fs.Did(false, Op.Create(kind), Gave(Some(f.serial))) && fs.Knows(f)
  {
    ghost var before := fs.st;
    f := fs.Create(kind);
    fs.Simulate(false, before, Op.Create(kind));
  }

  /** `Directory::Handle::mountChild`. */
  method MountChild(fs: Files, d: File, name: string, file: File) returns (ok: bool)
    requires fs.Valid(false) && fs.KnowsDir(d) && fs.Knows(file)
    requires Allowed(false, fs.st, Op.Mount(d.serial, name, file.serial))
    modifies fs`store, fs`st, fs`names, fs`objectOf, d, file
    ensures old(NewSerial(fs.st))
    ensures fs.Did(false, Op.Mount(d.serial, name, file.serial), Gave(if ok then Some(file.serial) else None))
  {
    ghost var before := fs.st;
    fs.ObjFacts(d);
    ok := d.parent != null;
    if ok {
      fs.RememberChild(d, name, Child(true, name, file));
    }
    fs.Simulate(false, before, Op.Mount(d.serial, name, file.serial));
  }

  // ---------- moves ----------

  /** `Directory::Handle::insertMove`; `err` is the backend's answer. */
  method InsertMove(fs: Files, d: File, name: string, file: File, err: Option<Errno>) returns (r: Option<Errno>)
    requires fs.Valid(false) && fs.KnowsDir(d) && fs.Knows(file)
    requires Asserted(false, fs.st, Op.MoveTo(d.serial, name, file.serial, err))
    modifies fs`store, fs`st, fs`names, fs`objectOf
    modifies fs.files.Values`parent, fs.files.Values`children, fs.files.Values`cache
    ensures old(NewSerial(fs.st))
    ensures fs.DidOrLost(false, Op.MoveTo(d.serial, name, file.serial, err), Returned(r))
  {
    ghost var before := fs.st;
    r := DoInsertMove(fs, d, name, file, err);
    fs.SimulateIf(false, before, Op.MoveTo(d.serial, name, file.serial, err));
  }

  method DoInsertMove(fs: Files, d: File, name: string, file: File, err: Option<Errno>) returns (r: Option<Errno>)
    requires fs.Coupled() && fs.KnowsDir(d) && fs.Knows(file)
    requires CachesOk(false, fs.st, fs.names) && ObjectsOk(fs.st, fs.objectOf) && OnePlaceEach(fs.names)
    requires Asserted(false, fs.st, Op.MoveTo(d.serial, name, file.serial, err))
    modifies fs`store, fs`st, fs.files.Values`parent, fs.files.Values`children, fs.files.Values`cache
    ensures fs.Coupled()
    ensures (fs.st, r) == MovedTo(false, old(fs.st), d.serial, name, file.serial, err)
  {
    fs.ObjFacts(d);
    fs.ObjFacts(file);
    if d.parent == null {
      return Some(EPERM);
    }
    var oldParent, oldKey := fs.OldEntry(false, file);
    if err.Some? {
      return err;
    }
    fs.Relocate(oldParent, oldKey.value, d, name, name, file);
    return None;
  }

  /** `Directory::Handle::getName`: the name of an object, or the empty string. */
  method GetName(d: File, file: File) returns (name: string)
    ensures (name in d.children && d.children[name].file == file) ||
      (name == "" && forall n | n in d.children :: d.children[n].file != file)
  {
    var key := d.FindKey(file);
    name := key.GetOr("");
  }

  // ---------- a directory's life ----------

  /** Nothing is found in a detached directory, and nothing can be inserted into it. */
  method InDetached(fs: Files, dir: File, name: string) returns (found: File?, inserted: File?)
    requires fs.Valid(false) && fs.KnowsDir(dir) && dir.serial in fs.st.objects
    requires fs.st.objects[dir.serial].parent.None?
    modifies fs, dir`children, dir`cache
    ensures found == null && inserted == null
  {
    fs.ObjFacts(dir);
    DetachedIsEmpty(false, fs.st, fs.names, fs.objectOf, dir.serial, name);
    found := GetChild(fs, dir, name);
    inserted := Insert(fs, dir, name, Data, true);
  }

  /** A root directory over an empty backend. */
  function JustRoot(): State {
    State(map[0 := Obj(0, Some(0), map[])], map[0 := map[]], map[0 := Directory], 1, 1)
  }

  /** The root remembers an empty directory "d", as its backend does. */
  function WithD(): State {
    Settle(NewObject(NewFile(JustRoot(), Directory), 1), 0, "d", "d", 1)
  }

  lemma WithDFacts()
    ensures WithD().objects == map[0 := Obj(0, Some(0), map["d" := Entry(false, "d", 1)]), 1 := Obj(1, Some(0), map[])]
    ensures WithD().store == map[0 := map["d" := 1], 1 := map[]]
  {
  }

  lemma InsertsD()
    ensures Allowed(false, JustRoot(), Op.Insert(0, "d", Directory, true)) && NewSerial(JustRoot())
    ensures Inserted(false, JustRoot(), 0, "d", Directory, true) == (WithD(), Some(1))
  {
  }

  lemma RemovesD(s: State)
    requires s == WithD()
    ensures Allowed(false, s, Op.Remove(0, "d", None)) && NewSerial(s)
    ensures var s' := Step(false, s, Op.Remove(0, "d", None)).0;
      1 in s'.objects && s'.objects[1] == Obj(1, None, map[]) && 1 in s'.store
  {
    WithDFacts();
  }

  ghost predicate HoldsD(fs: Files, dir: File)
    reads fs, fs.files.Values
  {
    && fs.Valid(false) && fs.KnowsDir(fs.root) && fs.KnowsDir(dir) && fs.st == WithD()
    && fs.root.serial == 0 && dir.serial == 1
  }

  method WithDirectory() returns (fs: Files, dir: File)
    ensures HoldsD(fs, dir) && fresh(fs) && fresh(fs.root) && fresh(dir)
  {
    EmptyBackend();
    fs := new Files(map[0 := map[]], map[0 := Directory], 1, 0, false, NameMap(map[], map[0 := 0]));
    InsertsD();
    WithDFacts();
    var made := Insert(fs, fs.root, "d", Directory, true);
    dir := made;
    fs.ObjFacts(fs.root);
    fs.ObjFacts(dir);
  }

  method LookAgain(fs: Files, dir: File) returns (again: File?)
    requires HoldsD(fs, dir)
    modifies fs, fs.root`children, fs.root`cache
    ensures again == dir
  {
    WithDFacts();
    fs.ObjFacts(fs.root);
    again := GetChild(fs, fs.root, "d");
  }

  lemma OnlyD(fs: Files, dir: File)
    requires HoldsD(fs, dir)
    ensures ChildAt(fs.root, "d") == {dir}
  {
    WithDFacts();
    fs.ObjFacts(fs.root);
  }

  method RemoveD(fs: Files, dir: File)
    requires HoldsD(fs, dir)
    modifies fs`store, fs`st, fs`names, fs`objectOf, fs.root`children, fs.root`cache, dir`parent
    ensures fs.Valid(false) && fs.KnowsDir(dir) && dir.serial in fs.st.objects
    ensures fs.st.objects[dir.serial].parent.None?
  {
    OnlyD(fs, dir);
    RemovesD(fs.st);
    var _ := RemoveChild(fs, fs.root, "d", None);
  }

  /** A directory that is inserted is found again as the same object. */
  method SameDirectory() returns (dir: File?, again: File?)
    ensures dir != null && again == dir
  {
    var fs;
    fs, dir := WithDirectory();
    again := LookAgain(fs, dir);
  }

  /** Once it is removed nothing is found in it and nothing can be inserted into it. */
  method RemovedDirectory() returns (inside: File?, refused: File?)
    ensures inside == null && refused == null
  {
    var fs, dir := WithDirectory();
    RemoveD(fs, dir);
    inside, refused := InDetached(fs, dir, "x");
  }

  // ---------- a mount's life ----------

  /** The root remembers a mounted directory "m", which its backend does not have. */
  ghost predicate HoldsM(fs: Files, file: File)
    reads fs, fs.files.Values
  {
    && fs.Valid(false) && fs.KnowsDir(fs.root) && fs.Knows(file) && fs.root.parent != null && fs.root != file
    && "m" in fs.root.children && fs.root.children["m"] == Child(true, "m", file)
    && "m" !in fs.store[fs.root.id] && file.parent == fs.root
  }

  /** A root and a directory that is in no directory yet. */
  ghost predicate HoldsLoose(fs: Files, file: File)
    reads fs, fs.files.Values
  {
    && fs.Valid(false) && fs.KnowsDir(fs.root) && fs.Knows(file) && fs.root.parent != null && fs.root != file
    && file.parent == null && file.serial == 1 && fs.root.serial == 0 && fs.root.id == 0 && fs.st == Loose()
  }

  function Loose(): State {
    NewObject(NewFile(JustRoot(), Directory), 1)
  }

  lemma BecomesLoose(s: State)
    requires s == JustRoot()
    ensures NewSerial(s) && Step(false, s, Op.Create(Directory)) == (Loose(), Gave(Some(1)))
  {
  }

  lemma LooseFacts()
    ensures Loose().objects == map[0 := Obj(0, Some(0), map[]), 1 := Obj(1, None, map[])]
    ensures Loose().store == map[0 := map[], 1 := map[]]
  {
  }

  method WithLoose() returns (fs: Files, file: File)
    ensures HoldsLoose(fs, file) && fresh(fs) && fresh(fs.root) && fresh(file)
  {
    EmptyBackend();
    fs := new Files(map[0 := map[]], map[0 := Directory], 1, 0, false, NameMap(map[], map[0 := 0]));
    fs.ObjFacts(fs.root);
    BecomesLoose(fs.st);
    file := CreateFile(fs, Directory);
    LooseFacts();
    fs.ObjFacts(fs.root);
    fs.ObjFacts(file);
  }

  method MountM(fs: Files, file: File)
    requires HoldsLoose(fs, file)
    modifies fs, fs.root, file
    ensures HoldsM(fs, file)
  {
    LooseFacts();
    fs.ObjFacts(fs.root);
    fs.ObjFacts(file);
    MayMount();
    var _ := MountChild(fs, fs.root, "m", file);
    fs.ObjFacts(fs.root);
    fs.ObjFacts(file);
  }

  method Unmount(fs: Files, file: File)
    requires HoldsM(fs, file)
    modifies fs`store, fs`st, fs`names, fs`objectOf, fs.root`children, fs.root`cache, file`parent
    ensures fs.Valid(false) && fs.KnowsDir(fs.root) && file.parent == fs.root
    ensures NewSerial(fs.st) && Found(false, fs.st, fs.root.serial, "m") == (fs.st, None)
  {
    fs.ObjFacts(fs.root);
    fs.ObjFacts(file);
    MayUnmount(fs.st, fs.root.serial, "m", file.serial);
    var _ := RemoveChild(fs, fs.root, "m", None);
    fs.ObjFacts(fs.root);
    fs.ObjFacts(file);
    NotThere(fs.st, fs.root.serial, "m");
  }

  method MountAndUnmount(fs: Files, file: File)
    requires HoldsLoose(fs, file)
    modifies fs, fs.root, file
    ensures fs.Valid(false) && fs.KnowsDir(fs.root) && file.parent == fs.root
    ensures NewSerial(fs.st) && Found(false, fs.st, fs.root.serial, "m") == (fs.st, None)
  {
    MountM(fs, file);
    Unmount(fs, file);
  }

  lemma MayUnmount(s: State, o: Serial, name: string, x: Serial)
    requires IsDir(s, o) && Remembers(s, o, name, x) && x in s.objects && s.objects[o].cache[name].mount && x != o
    ensures Allowed(false, s, Op.Remove(o, name, None))
    ensures var s' := Removed(s, o, name, None).0;
      && x in s'.objects && s'.objects[x] == s.objects[x] && o in s'.objects && name !in s'.objects[o].cache
      && s'.objects[o].parent == s.objects[o].parent && s'.objects[o].id == s.objects[o].id && s'.store == s.store
  {
  }

  lemma MayMount()
    ensures Allowed(false, Loose(), Op.Mount(0, "m", 1))
    ensures var s := Mounted(Loose(), 0, "m", 1).0;
      && s.objects == map[0 := Obj(0, Some(0), map["m" := Entry(true, "m", 1)]), 1 := Obj(1, Some(0), map[])]
      && s.store == Loose().store
  {
    LooseFacts();
  }

  lemma NotThere(s: State, o: Serial, name: string)
    requires IsDir(s, o) && NewSerial(s) && name != "." && name != ".."
    requires name !in s.objects[o].cache && name !in s.store[s.objects[o].id]
    ensures Found(false, s, o, name) == (s, None)
  {
  }

  /** After an unmount the name is gone, but the parent pointer of what was mounted still names the directory. */
  method UnmountKeepsParent() returns (fs: Files, file: File, found: File?)
    ensures found == null && file.parent == fs.root
  {
    fs, file := WithLoose();
    MountAndUnmount(fs, file);
    found := GetChild(fs, fs.root, "m");
  }
}
