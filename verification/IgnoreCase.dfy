/**
 The ignore-case adapter: a directory that looks its names up in lower case in a real directory and remembers how each
 was spelled. Its `children` are the remembered children of `CachedFiles`, filed under folded names; the store of the
 backends stands for the real directories.
 */
module IgnoreCase {
  import opened Common
  import opened Folding
  import opened NameMaps
  import opened ObjectCaches
  import opened ObjectRuns
  import opened CachedFiles
  import opened Spellings

  /** `normalize`: the loop that rewrites a copy of the name. */
  method Normalize(name: string) returns (result: string)
    ensures |result| == |name| && forall j | 0 <= j < |name| :: FoldsTo(name[j], result[j])
    ensures result == Lower(name)
  {
    result := name;
    var i := 0;
    while i < |result|
      invariant 0 <= i <= |result| == |name|
      invariant forall j | 0 <= j < i :: result[j] == ToLower(name[j])
      invariant forall j | i <= j < |name| :: result[j] == name[j]
    {
      result := result[i := ToLower(result[i])];
      i := i + 1;
    }
    LowerIs(name, result);
  }

  /** `IgnoreCaseDirectory::getChild` as the directory handle calls it. */
  method GetChild(fs: Files, d: File, name: string) returns (child: File?)
    requires fs.Valid(true) && fs.KnowsDir(d)
    modifies fs, d`children, d`cache
    ensures old(Allowed(true, fs.st, Op.Find(d.serial, name)) && NewSerial(fs.st))
    ensures fs.Grew() && (child != null ==> fs.Knows(child))
    ensures fs.Did(true, Op.Find(d.serial, name), Gave(SerialOf(child)))
  {
    ghost var before := fs.st;
    fs.ObjFacts(d);
    child := DoGetChild(fs, d, name);
    fs.Simulate(true, before, Op.Find(d.serial, name));
  }

  method DoGetChild(fs: Files, d: File, name: string) returns (child: File?)
    requires fs.Coupled() && fs.KnowsDir(d) && IsDir(fs.st, d.serial) && NewSerial(fs.st)
    modifies fs`files, fs`st, fs`nextSerial, d`children, d`cache
    ensures fs.Grew() && fs.Coupled() && (fs.st, SerialOf(child)) == Found(true, old(fs.st), d.serial, name)
    ensures child != null ==> fs.Knows(child)
  {
    fs.ObjFacts(d);
    if d.parent == null {
      return null;
    }
    if name == "." {
      return d;
    }
    if name == ".." {
      return d.parent;
    }
    var normalized := Normalize(name);
    if normalized in d.children {
      return d.children[normalized].file;
    }
    if normalized !in fs.store[d.id] {
      return null;
    }
    child := fs.HandOut(d, normalized, name, fs.store[d.id][normalized]);
  }

  /** `insertDataFile` and its siblings, for a name that is free; `ok` is the real directory's answer. */
  method Insert(fs: Files, d: File, name: string, kind: Kind, ok: bool) returns (child: File?)
    requires fs.Valid(true) && fs.KnowsDir(d) && Allowed(true, fs.st, Op.Insert(d.serial, name, kind, ok))
    modifies fs, d`children, d`cache
    ensures old(NewSerial(fs.st))
    ensures fs.Grew() && (child != null ==> fs.Knows(child))
    ensures fs.Did(true, Op.Insert(d.serial, name, kind, ok), Gave(SerialOf(child)))
  {
    ghost var before := fs.st;
    child := DoInsert(fs, d, name, kind, ok);
    fs.Simulate(true, before, Op.Insert(d.serial, name, kind, ok));
  }

  method DoInsert(fs: Files, d: File, name: string, kind: Kind, ok: bool) returns (child: File?)
    requires fs.Coupled() && fs.KnowsDir(d) && IsDir(fs.st, d.serial) && NewSerial(fs.st)
    modifies fs`store, fs`kinds, fs`nextId, fs`files, fs`st, fs`nextSerial, d`children, d`cache
    ensures fs.Grew() && fs.Coupled()
    ensures (fs.st, SerialOf(child)) == Inserted(true, old(fs.st), d.serial, name, kind, ok)
    ensures child != null ==> fs.Knows(child)
  {
    fs.ObjFacts(d);
    if d.parent == null || !ok {
      return null;
    }
    var normalized := Normalize(name);
    child := fs.CreateIn(d, normalized, name, kind);
  }

  /** `removeChild` of a name that has been looked up; `err` is the real directory's answer. */
  method RemoveChild(fs: Files, d: File, name: string, err: Option<Errno>) returns (r: Option<Errno>)
    requires fs.Valid(true) && fs.KnowsDir(d) && Asserted(true, fs.st, Op.Remove(d.serial, name, err))
    modifies fs`store, fs`st, fs`names, fs`objectOf, d`children, d`cache, ChildAt(d, Key(true, name))`parent
    ensures old(NewSerial(fs.st))
    ensures fs.DidOrLost(true, Op.Remove(d.serial, name, err), Returned(r))
  {
    ghost var before := fs.st;
    NoMounts(before, fs.names, d.serial, name, err);
    r := DoRemove(fs, d, name, err);
    fs.SimulateIf(true, before, Op.Remove(d.serial, name, err));
  }

  /** The adapter itself holds no mounts. */
  lemma NoMounts(s: State, m: NameMap, o: Serial, name: string, err: Option<Errno>)
    requires CachesOk(true, s, m) && NewSerial(s) && Asserted(true, s, Op.Remove(o, name, err))
    ensures Step(true, s, Op.Remove(o, name, err)) ==
      if err.Some? then (s, Returned(err)) else (Cleared(s, o, Lower(name)), Returned(None))
  {
    if Lower(name) in s.objects[o].cache {
      assert EntryOk(true, s, m, o, Lower(name));
    }
  }

  method DoRemove(fs: Files, d: File, name: string, err: Option<Errno>) returns (r: Option<Errno>)
    requires fs.Coupled() && fs.KnowsDir(d) && Asserted(true, fs.st, Op.Remove(d.serial, name, err))
    modifies fs`store, fs`st, d`children, d`cache, ChildAt(d, Lower(name))`parent
    ensures fs.Coupled()
    ensures (fs.st, r) == if err.Some? then (old(fs.st), err) else (Cleared(old(fs.st), d.serial, Lower(name)), None)
  {
    fs.ObjFacts(d);
    var normalized := Normalize(name);
    if err.Some? {
      return err;
    }
    fs.Clear(d, normalized);
    return None;
  }

  /** `insertMove` of a data file or a directory; `err` is the real directory's answer. */
  method InsertMove(fs: Files, d: File, name: string, file: File, err: Option<Errno>) returns (r: Option<Errno>)
    requires fs.Valid(true) && fs.KnowsDir(d) && fs.Knows(file)
    requires Asserted(true, fs.st, Op.MoveTo(d.serial, name, file.serial, err))
    modifies fs`store, fs`st, fs`names, fs`objectOf
    modifies fs.files.Values`parent, fs.files.Values`children, fs.files.Values`cache
    ensures old(NewSerial(fs.st))
    ensures fs.DidOrLost(true, Op.MoveTo(d.serial, name, file.serial, err), Returned(r))
  {
    ghost var before := fs.st;
    r := DoInsertMove(fs, d, name, file, err);
    fs.SimulateIf(true, before, Op.MoveTo(d.serial, name, file.serial, err));
  }

  method DoInsertMove(fs: Files, d: File, name: string, file: File, err: Option<Errno>) returns (r: Option<Errno>)
    requires fs.Coupled() && fs.KnowsDir(d) && fs.Knows(file)
    requires CachesOk(true, fs.st, fs.names) && ObjectsOk(fs.st, fs.objectOf) && OnePlaceEach(fs.names)
    requires Asserted(true, fs.st, Op.MoveTo(d.serial, name, file.serial, err))
    modifies fs`store, fs`st, fs.files.Values`parent, fs.files.Values`children, fs.files.Values`cache
    ensures fs.Coupled()
    ensures (fs.st, r) == MovedTo(true, old(fs.st), d.serial, name, file.serial, err)
  {
    fs.ObjFacts(d);
    fs.ObjFacts(file);
    var normalized := Normalize(name);
    if d.parent == null {
      return Some(EPERM);
    }
    if err.Some? {
      return err;
    }
    MoveHere(fs, d, normalized, name, file);
    return None;
  }

  /** The old parent forgets the file, and the new one remembers it under its new spelling. */
  method MoveHere(fs: Files, d: File, key: string, name: string, file: File)
    requires fs.Coupled() && fs.KnowsDir(d) && fs.Knows(file) && file.parent != null
    requires CachesOk(true, fs.st, fs.names) && ObjectsOk(fs.st, fs.objectOf) && OnePlaceEach(fs.names)
    requires IsDir(fs.st, d.serial) && file.serial in fs.st.objects && fs.st.objects[file.serial].parent.Some?
    requires MayMove(fs.st, d.serial, key, file.serial)
    modifies fs`store, fs`st, fs.files.Values`parent, fs.files.Values`children, fs.files.Values`cache
    ensures fs.Coupled()
    ensures var s := old(fs.st); var p := s.objects[file.serial].parent.value;
      fs.st == Transferred(s, p, KeyOf(s, p, file.serial).value, d.serial, key, name, file.serial)
  {
    fs.ObjFacts(d);
    var oldParent, oldKey := fs.OldEntry(true, file);
    fs.ObjFacts(oldParent);
    fs.Relocate(oldParent, oldKey.value, d, key, name, file);
  }

  /** `getEntries`: the real listing, in whatever order it comes, with the remembered spellings. */
  method GetEntries(fs: Files, d: File, listing: seq<string>) returns (names: seq<string>)
    requires fs.Valid(true) && fs.KnowsDir(d)
    requires forall n :: n in listing <==> n in fs.store[d.id]
    requires forall j, k | 0 <= j < k < |listing| :: listing[j] != listing[k]
    ensures |names| == |listing| && d.serial in fs.st.objects
    ensures forall k | 0 <= k < |listing| :: names[k] == Shown(fs.st.objects[d.serial].cache, listing[k])
  {
    fs.ObjFacts(d);
    names := WithSpellings(d, listing);
  }

  /** The loop over the listing. */
  method WithSpellings(d: File, listing: seq<string>) returns (names: seq<string>)
    requires d.CacheOk()
    ensures |names| == |listing| && forall k | 0 <= k < |listing| :: names[k] == Shown(d.cache, listing[k])
  {
    names := listing;
    var k := 0;
    while k < |names|
      invariant 0 <= k <= |names| == |listing|
      invariant forall j | 0 <= j < k :: names[j] == Shown(d.cache, listing[j])
      invariant forall j | k <= j < |listing| :: names[j] == listing[j]
    {
      if names[k] in d.children {
        names := names[k := d.children[names[k]].spelling];
      }
      k := k + 1;
    }
  }

  /** `getName`: the spelling under which a directory remembers an object, or the empty string. */
  method GetName(d: File, file: File) returns (name: string)
    ensures (exists k :: k in d.children && d.children[k].file == file && d.children[k].spelling == name) ||
      (name == "" && forall k | k in d.children :: d.children[k].file != file)
  {
    var key := d.FindKey(file);
    name := match key case Some(k) => d.children[k].spelling case None => "";
  }

  // ---------- one case and another ----------

  /** Names that agree letter by letter up to case. */
  predicate OtherCase(a: string, b: string) {
    |a| == |b| && forall i | 0 <= i < |a| :: SameUpToCase(a[i], b[i])
  }

  /** What is inserted under one spelling is found under every other. */
  method InsertThenFind(fs: Files, d: File, name: string, kind: Kind, other: string) returns (made: File?, found: File?)
    requires fs.Valid(true) && fs.KnowsDir(d) && d.parent != null && OtherCase(name, other)
    requires name != "." && name != ".." && Allowed(true, fs.st, Op.Insert(d.serial, name, kind, true))
    modifies fs, d`children, d`cache
    ensures fs.Valid(true) && made != null && found == made
  {
    fs.ObjFacts(d);
    SameKeyIffEqualUpToCase(name, other);
    LowerDots(name);
    LowerDots(other);
    InsertedIsFound(fs.st, d.serial, name, kind, other);
    made := Insert(fs, d, name, kind, true);
    found := GetChild(fs, d, other);
  }

  lemma InsertedIsFound(s: State, o: Serial, name: string, kind: Kind, other: string)
    requires IsDir(s, o) && NewSerial(s) && s.objects[o].parent.Some? && Lower(name) == Lower(other)
    requires other != "." && other != ".."
    ensures var r := Inserted(true, s, o, name, kind, true);
      && r.1 == Some(s.nextSerial) && IsDir(r.0, o)
      && (NewSerial(r.0) ==> Found(true, r.0, o, other) == (r.0, r.1))
  {
  }

  /** "README" finds what was inserted as "readme" into an empty directory. */
  method ReadmeIsFound() returns (made: File?, found: File?)
    ensures made != null && found == made
  {
    EmptyBackend();
    var fs := new Files(map[0 := map[]], map[0 := Directory], 1, 0, true, NameMap(map[], map[0 := 0]));
    fs.ObjFacts(fs.root);
    assert OtherCase("readme", "README");
    made, found := InsertThenFind(fs, fs.root, "readme", Data, "README");
  }
}
