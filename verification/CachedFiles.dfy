/**
 `File` objects that remember their children, and the backends they stand for, updated in place. A ghost value of
 `ObjectCaches` records what the objects say; the adapters in `DirCaches` and `IgnoreCase` are built on these steps.
 */
module CachedFiles {
  import opened Common
  import opened NameMaps
  import opened ObjectCaches
  import opened ObjectLaws
  import opened ObjectRuns

  /** A `DCacheEntry`, or a `ChildInfo` with the original name. */
  datatype Child = Child(mount: bool, spelling: string, file: File)

  class File {
    const serial: Serial
    const id: FileId
    var parent: File?
    var children: map<string, Child>
    ghost var cache: map<string, Entry>

    /** `cache` names each child by its serial number. */
    ghost predicate CacheOk()
      reads this
    {
      && cache.Keys == children.Keys
      && forall k | k in children :: cache[k] == Entry(children[k].mount, children[k].spelling, children[k].file.serial)
    }

    constructor (serial: Serial, id: FileId)
      ensures this.serial == serial && this.id == id && parent == null && children == map[] && cache == map[]
    {
      this.serial, this.id, this.parent, this.children, this.cache := serial, id, null, map[], map[];
    }

    method Put(key: string, child: Child)
      requires CacheOk()
      modifies this`children, this`cache
      ensures CacheOk() && children == old(children)[key := child]
      ensures cache == old(cache)[key := Entry(child.mount, child.spelling, child.file.serial)]
    {
      children := children[key := child];
      cache := cache[key := Entry(child.mount, child.spelling, child.file.serial)];
    }

    method Drop(key: string)
      requires CacheOk()
      modifies this`children, this`cache
      ensures CacheOk() && children == old(children) - {key} && cache == old(cache) - {key}
    {
      children := children - {key};
      cache := cache - {key};
    }

    /** The search of the children for an object: its key, if it has one. */
    method FindKey(file: File) returns (key: Option<string>)
      ensures key.Some? ==> key.value in children && children[key.value].file == file
      ensures key.None? ==> forall k | k in children :: children[k].file != file
    {
      var left := children.Keys;
      while left != {}
        invariant left <= children.Keys
        invariant forall k | k in children && k !in left :: children[k].file != file
        decreases left
      {
        var k :| k in left;
        if children[k].file == file {
          return Some(k);
        }
        left := left - {k};
      }
      return None;
    }
  }

  ghost function ObjOf(f: File): Obj
    reads f
  {
    Obj(f.id, if f.parent == null then None else Some(f.parent.serial), f.cache)
  }

  /** The child remembered under a key, as a set of at most one. */
  function ChildAt(d: File, key: string): set<File>
    reads d
  {
    if key in d.children then {d.children[key].file} else {}
  }

  function SerialOf(f: File?): Option<Serial> {
    if f == null then None else Some(f.serial)
  }

  twostate predicate Kept(f: File)
    reads f
  {
    f.parent == old(f.parent) && f.children == old(f.children) && f.cache == old(f.cache)
  }

  /** All objects of the program. `store`, `kinds` and `nextId` stand for the backends. */
  class Files {
    const root: File
    var store: map<FileId, map<string, FileId>>
    var kinds: map<FileId, Kind>
    var nextId: FileId
    var nextSerial: Serial
    ghost var files: map<Serial, File>
    ghost var st: State
    ghost var names: NameMap
    ghost var objectOf: map<FileId, Serial>

    ghost predicate Knows(f: File)
      reads this`files
    {
      f.serial in files && files[f.serial] == f
    }

    ghost predicate KnowsDir(f: File)
      reads this`files, this`store
    {
      Knows(f) && f.id in store
    }

    ghost predicate Agrees(i: Serial)
      requires i in files
      reads this`files, this`st, files[i]
    {
      var f := files[i];
      && f.serial == i && i in st.objects && ObjOf(f) == st.objects[i] && f.CacheOk()
      && (f.parent != null ==> Knows(f.parent))
      && forall k | k in f.children :: Knows(f.children[k].file)
    }

    ghost predicate AllAgree()
      reads this`files, this`st, files.Values
    {
      forall i | i in files :: Agrees(i)
    }

    /** The objects and the backends say what the value says. */
    ghost predicate Coupled()
      reads this`files, this`st, this`store, this`kinds, this`nextId, this`nextSerial, files.Values
    {
      && files.Keys == st.objects.Keys && AllAgree() && (forall i | i in files :: i < nextSerial)
      && st.store == store && st.kinds == kinds && st.nextId == nextId && st.nextSerial == nextSerial
    }

    ghost predicate Valid(fold: bool)
      reads this, files.Values
    {
      Coupled() && Inv(fold, st, names, objectOf) && Sound(names)
    }

    /** What an object's own fields say. */
    lemma ObjFacts(f: File)
      requires Coupled() && Knows(f)
      ensures f.serial in st.objects && st.objects[f.serial] == ObjOf(f) && f.CacheOk()
      ensures f.parent != null ==> Knows(f.parent)
      ensures forall k | k in f.children :: Knows(f.children[k].file)
      ensures IsDir(st, f.serial) <==> f.id in store
    {
      assert Agrees(f.serial);
    }

    /** The root object, its own parent, over a backend that may already store files. */
    constructor (store: map<FileId, map<string, FileId>>, kinds: map<FileId, Kind>, nextId: FileId, root: FileId,
                 ghost fold: bool, ghost names: NameMap)
      requires Begins(State(map[0 := Obj(root, Some(0), map[])], store, kinds, nextId, 1), names, root)
      ensures Valid(fold) && fresh(files.Values) && this.names == names && Knows(this.root) && this.root.id == root
      ensures this.root.serial == 0 && fresh(this.root)
      ensures st == State(map[0 := Obj(root, Some(0), map[])], store, kinds, nextId, 1)
    {
      this.store, this.kinds, this.nextId, this.nextSerial := store, kinds, nextId, 1;
      this.names, this.objectOf := names, map[root := 0];
      this.st := State(map[0 := Obj(root, Some(0), map[])], store, kinds, nextId, 1);
      this.files := map[];
      var f := new File(0, root);
      this.root := f;
      new;
      f.parent := f;
      files := map[0 := f];
      assert Agrees(0);
      BeginsOk(fold, st, names, root);
    }

    // ---------- one object at a time ----------

    /** If only object `d` changed, or was added, and it agrees, then all do. */
    twostate lemma OthersAgree(d: Serial)
      requires old(AllAgree()) && d in files && Agrees(d)
      requires forall j | j in old(files) :: j in files && files[j] == old(files[j])
      requires forall i | i in files && i != d :: i in old(files)
      requires forall i | i in old(files) && i != d :: i in st.objects && st.objects[i] == old(st.objects[i])
      requires forall i | i in old(files) && i != d :: Kept(old(files[i]))
      ensures AllAgree()
    {
      forall i | i in files ensures Agrees(i) {
        if i != d {
          assert old(Agrees(i));
          Untouched(i);
        }
      }
    }

    twostate lemma Untouched(i: Serial)
      requires i in old(files) && i in files && old(files[i]) == files[i] && old(Agrees(i))
      requires forall j | j in old(files) :: j in files && files[j] == old(files[j])
      requires i in st.objects && st.objects[i] == old(st.objects[i]) && Kept(files[i])
      ensures Agrees(i)
    {
      forall k | k in files[i].children ensures Knows(files[i].children[k].file) {
        assert old(Knows(files[i].children[k].file));
      }
    }

    /** What an object has to say to agree. */
    lemma AgreesIf(f: File)
      requires Knows(f) && f.serial in st.objects && st.objects[f.serial] == ObjOf(f) && f.CacheOk()
      requires f.parent != null ==> Knows(f.parent)
      requires forall k | k in f.children :: Knows(f.children[k].file)
      ensures Agrees(f.serial)
    {
    }

    method MakeObject(id: FileId) returns (f: File)
      requires Coupled()
      modifies this`files, this`st, this`nextSerial
      ensures Coupled() && fresh(f) && f.serial == old(nextSerial) && f.id == id && Knows(f)
      ensures files == old(files)[f.serial := f] && st == NewObject(old(st), id) && Grew()
      ensures nextSerial == old(nextSerial) + 1
    {
      ghost var grown := NewObject(st, id);
      f := new File(nextSerial, id);
      files := files[nextSerial := f];
      st := grown;
      nextSerial := nextSerial + 1;
      AgreesIf(f);
      OthersAgree(f.serial);
    }

    /** `setParent`. */
    method SetParentOf(f: File, parent: File?)
      requires Coupled() && Knows(f) && (parent != null ==> Knows(parent))
      modifies this`st, f`parent
      ensures Coupled() && f.serial in old(st).objects
      ensures st == SetParent(old(st), f.serial, if parent == null then None else Some(parent.serial))
      ensures f.parent == parent
    {
      ObjFacts(f);
      f.parent := parent;
      st := SetParent(st, f.serial, if parent == null then None else Some(parent.serial));
      AgreesIf(f);
      OthersAgree(f.serial);
    }

    method PutChild(d: File, key: string, child: Child)
      requires Coupled() && Knows(d) && Knows(child.file)
      modifies this`st, d`children, d`cache
      ensures Coupled() && d.serial in old(st).objects
      ensures st == PutEntry(old(st), d.serial, key, Entry(child.mount, child.spelling, child.file.serial))
      ensures d.children == old(d.children)[key := child]
    {
      ObjFacts(d);
      d.Put(key, child);
      st := PutEntry(st, d.serial, key, Entry(child.mount, child.spelling, child.file.serial));
      AgreesIf(d);
      OthersAgree(d.serial);
    }

    method DropChild(d: File, key: string)
      requires Coupled() && Knows(d)
      modifies this`st, d`children, d`cache
      ensures Coupled() && d.serial in old(st).objects && st == DropEntry(old(st), d.serial, key)
      ensures d.children == old(d.children) - {key}
    {
      ObjFacts(d);
      d.Drop(key);
      st := DropEntry(st, d.serial, key);
      AgreesIf(d);
      OthersAgree(d.serial);
    }

    /** `cacheChild`. */
    method RememberChild(d: File, key: string, child: Child)
      requires Coupled() && Knows(d) && Knows(child.file)
      modifies this`st, d`children, d`cache, child.file`parent
      ensures Coupled() && d.serial in old(st).objects && child.file.serial in old(st).objects
      ensures st == CacheChild(old(st), d.serial, key, Entry(child.mount, child.spelling, child.file.serial))
    {
      ObjFacts(child.file);
      PutChild(d, key, child);
      SetParentOf(child.file, d);
    }

    // ---------- the backends ----------

    /** A change of the backends alone leaves the objects as they are. */
    twostate lemma ObjectsAgree()
      requires old(AllAgree()) && files == old(files) && st.objects == old(st.objects)
      requires forall i | i in files :: Kept(files[i])
      ensures AllAgree()
    {
      forall i | i in files ensures Agrees(i) {
        assert old(Agrees(i));
        Untouched(i);
      }
    }

    /** A backend makes a file that it stores nowhere yet. */
    method BackendCreate(kind: Kind) returns (id: FileId)
      requires Coupled()
      modifies this`store, this`kinds, this`nextId, this`st
      ensures Coupled() && id == old(nextId) && st == NewFile(old(st), kind)
    {
      id := nextId;
      kinds := kinds[id := kind];
      if kind == Directory {
        store := store[id := map[]];
      }
      nextId := nextId + 1;
      st := NewFile(st, kind);
      ObjectsAgree();
    }

    method BackendPut(d: FileId, key: string, id: FileId)
      requires Coupled() && d in store
      modifies this`store, this`st
      ensures Coupled() && d in old(st).store && st == StorePut(old(st), d, key, id)
    {
      store := store[d := store[d][key := id]];
      st := StorePut(st, d, key, id);
      ObjectsAgree();
    }

    method BackendDrop(d: FileId, key: string)
      requires Coupled() && d in store
      modifies this`store, this`st
      ensures Coupled() && d in old(st).store && st == StoreDrop(old(st), d, key)
    {
      store := store[d := store[d] - {key}];
      st := StoreDrop(st, d, key);
      ObjectsAgree();
    }

    // ---------- combinations ----------

    /** A new file of some backend with its object, in no directory yet. */
    method Create(kind: Kind) returns (f: File)
      requires Coupled()
      modifies this`store, this`kinds, this`nextId, this`files, this`st, this`nextSerial
      ensures Coupled() && fresh(f) && f.serial == old(nextSerial) && f.id == old(nextId) && Knows(f)
      ensures Grew() && st == NewObject(NewFile(old(st), kind), old(nextId))
    {
      var id := BackendCreate(kind);
      f := MakeObject(id);
    }

    /** The backend stores a file, and the directory remembers its object. */
    method Enter(d: File, key: string, spelling: string, f: File)
      requires Coupled() && KnowsDir(d) && Knows(f)
      modifies this`store, this`st, d`children, d`cache, f`parent
      ensures Coupled() && IsDir(old(st), d.serial) && f.serial in old(st).objects
      ensures st == Settle(old(st), d.serial, key, spelling, f.serial)
    {
      ObjFacts(d);
      ObjFacts(f);
      BackendPut(d.id, key, f.id);
      RememberChild(d, key, Child(false, spelling, f));
    }

    /** A new object for a stored file, remembered under a name. */
    method HandOut(d: File, key: string, spelling: string, id: FileId) returns (f: File)
      requires Coupled() && Knows(d)
      modifies this`files, this`st, this`nextSerial, d`children, d`cache
      ensures Coupled() && Grew() && f.serial == old(nextSerial) && Knows(f)
      ensures d.serial in old(st).objects
      ensures st == CacheChild(NewObject(old(st), id), d.serial, key, Entry(false, spelling, f.serial))
    {
      ObjFacts(d);
      f := MakeObject(id);
      RememberChild(d, key, Child(false, spelling, f));
    }

    /** A remembered child loses its parent and its entry. */
    method Forget(d: File, key: string)
      requires Coupled() && Knows(d) && key in d.children
      modifies this`st, d`children, d`cache, d.children[key].file`parent
      ensures Coupled() && d.serial in old(st).objects && key in old(st).objects[d.serial].cache
      ensures old(st).objects[d.serial].cache[key].file in old(st).objects && st == Evict(old(st), d.serial, key)
    {
      ObjFacts(d);
      ObjFacts(d.children[key].file);
      SetParentOf(d.children[key].file, null);
      DropChild(d, key);
    }

    /** A new file, stored and remembered under a name. */
    method CreateIn(d: File, key: string, spelling: string, kind: Kind) returns (f: File)
      requires Coupled() && KnowsDir(d)
      modifies this`store, this`kinds, this`nextId, this`files, this`st, this`nextSerial, d`children, d`cache
      ensures Coupled() && Grew() && Knows(f) && f.serial == old(nextSerial)
      ensures var s := NewObject(NewFile(old(st), kind), old(nextId));
        IsDir(s, d.serial) && f.serial in s.objects && st == Settle(s, d.serial, key, spelling, f.serial)
    {
      f := Create(kind);
      Enter(d, key, spelling, f);
    }

    /** A name is gone from the backend and from the children. */
    method Clear(d: File, key: string)
      requires Coupled() && KnowsDir(d)
      modifies this`store, this`st, d`children, d`cache, ChildAt(d, key)`parent
      ensures Coupled() && IsDir(old(st), d.serial)
      ensures key in old(st).objects[d.serial].cache ==> old(st).objects[d.serial].cache[key].file in old(st).objects
      ensures st == Cleared(old(st), d.serial, key)
    {
      ObjFacts(d);
      if key in d.children {
        Forget(d, key);
      }
      BackendDrop(d.id, key);
    }

    // ---------- moves ----------

    /** The search of the old parent for a file that is to move. */
    method OldEntry(fold: bool, file: File) returns (p: File, key: Option<string>)
      requires Coupled() && Knows(file) && file.parent != null
      requires CachesOk(fold, st, names) && ObjectsOk(st, objectOf) && OnePlaceEach(names)
      ensures p == file.parent && Knows(p)
      ensures file.serial in st.objects && st.objects[file.serial].parent == Some(p.serial)
      ensures key == KeyOf(st, p.serial, file.serial)
    {
      ObjFacts(file);
      p := file.parent;
      ObjFacts(p);
      key := p.FindKey(file);
      OnlyKey(fold, p, file, key);
    }

    lemma OnlyKey(fold: bool, p: File, file: File, key: Option<string>)
      requires Coupled() && Knows(p) && Knows(file)
      requires CachesOk(fold, st, names) && ObjectsOk(st, objectOf) && OnePlaceEach(names)
      requires key.Some? ==> key.value in p.children && p.children[key.value].file == file
      requires key.None? ==> forall k | k in p.children :: p.children[k].file != file
      ensures key == KeyOf(st, p.serial, file.serial)
    {
      ObjFacts(p);
      if key.Some? {
        assert Remembers(st, p.serial, key.value, file.serial);
        OneEntry(fold, st, names, objectOf, p.serial, KeyOf(st, p.serial, file.serial).value, p.serial, key.value);
      } else {
        assert forall k | k in p.children :: files[p.children[k].file.serial] == p.children[k].file;
      }
    }

    /**
     A move the backend has accepted: it stores the file at its new place, the old entry goes, what is overwritten loses
     its parent, and the file gets its new entry and parent.
     */
    method Relocate(p: File, oldKey: string, d: File, key: string, spelling: string, file: File)
      requires Coupled() && KnowsDir(p) && KnowsDir(d) && Knows(file) && Remembers(st, p.serial, oldKey, file.serial)
      requires IsDir(st, p.serial) && IsDir(st, d.serial) && file.serial in st.objects
      requires key in st.objects[d.serial].cache ==> st.objects[d.serial].cache[key].file in st.objects
      modifies this`store, this`st, p`children, p`cache, d`children, d`cache, file`parent, ChildAt(d, key)`parent
      ensures Coupled() && unchanged(this`files)
      ensures st == Transferred(old(st), p.serial, oldKey, d.serial, key, spelling, file.serial)
    {
      InOrder(st, p.serial, oldKey, d.serial, key, spelling, file.serial);
      ObjFacts(p);
      ObjFacts(d);
      ObjFacts(file);
      BackendMove(p.id, oldKey, d.id, key, file.id);
      MoveEntry(p, oldKey, d, key, Child(false, spelling, file));
    }

    method BackendMove(from: FileId, oldKey: string, to: FileId, key: string, id: FileId)
      requires Coupled() && from in store && to in store
      modifies this`store, this`st
      ensures Coupled() && from in old(st).store && to in StoreDrop(old(st), from, oldKey).store
      ensures st == StorePut(StoreDrop(old(st), from, oldKey), to, key, id)
    {
      BackendDrop(from, oldKey);
      BackendPut(to, key, id);
    }

    method MoveEntry(p: File, oldKey: string, d: File, key: string, child: Child)
      requires Coupled() && Knows(p) && Knows(d) && Knows(child.file)
      modifies this`st, p`children, p`cache, d`children, d`cache, child.file`parent, ChildAt(d, key)`parent
      ensures Coupled() && unchanged(this`files)
      ensures p.serial in old(st).objects && d.serial in old(st).objects && child.file.serial in old(st).objects
      ensures st == CacheChild(Orphaned(DropEntry(old(st), p.serial, oldKey), d.serial, key), d.serial, key,
                               Entry(child.mount, child.spelling, child.file.serial))
    {
      ObjFacts(d);
      ObjFacts(child.file);
      DropChild(p, oldKey);
      ObjFacts(d);
      TakePlace(d, key, child);
    }

    /** A child gets its entry and parent, and what it overwrites loses its own. */
    method TakePlace(d: File, key: string, child: Child)
      requires Coupled() && Knows(d) && Knows(child.file)
      modifies this`st, d`children, d`cache, child.file`parent
      modifies ChildAt(d, key)`parent
      ensures Coupled() && d.serial in old(st).objects && child.file.serial in old(st).objects
      ensures st == CacheChild(Orphaned(old(st), d.serial, key), d.serial, key,
                               Entry(child.mount, child.spelling, child.file.serial))
    {
      Orphan(d, key);
      RememberChild(d, key, child);
    }

    /** A remembered child, if there is one, loses its parent. */
    method Orphan(d: File, key: string)
      requires Coupled() && Knows(d)
      modifies this`st, ChildAt(d, key)`parent
      ensures Coupled() && d.serial in old(st).objects && st == Orphaned(old(st), d.serial, key)
    {
      ObjFacts(d);
      if key in d.children {
        ObjFacts(d.children[key].file);
        SetParentOf(d.children[key].file, null);
      }
    }

    // ---------- the invariant ----------

    /** Objects that were known stay known, and the others are new. */
    twostate predicate Grew()
      reads this
    {
      && (forall i | i in old(files) :: i in files && files[i] == old(files[i]))
      && forall i | i in files && i !in old(files) :: fresh(files[i])
    }

    /** What the operation stands for has happened to the objects and to the map. */
    twostate predicate Did(fold: bool, op: Op, a: Answer)
      requires old(Allowed(fold, st, op) && NewSerial(st))
      reads this, files.Values
    {
      && Valid(fold) && (st, a) == Step(fold, old(st), op)
      && names == Changed(old(names), ChangeOf(fold, old(st), op))
    }

    /** The operation has happened to the objects, and to the map if nothing with entries of its own is lost by it. */
    twostate predicate DidOrLost(fold: bool, op: Op, a: Answer)
      requires old(Asserted(fold, st, op) && NewSerial(st))
      reads this, files.Values
    {
      && Coupled() && (st, a) == Step(fold, old(st), op)
      && (old(LosesNothing(fold, st, op)) ==> Did(fold, op, a))
    }

    /** Record that the objects have made the step that `op` stands for. */
    ghost method Simulate(fold: bool, before: State, op: Op)
      requires Coupled() && Inv(fold, before, names, objectOf) && Sound(names)
      requires Allowed(fold, before, op) && NewSerial(before) && st == Step(fold, before, op).0
      modifies this`names, this`objectOf
      ensures Valid(fold) && names == Changed(old(names), ChangeOf(fold, before, op))
    {
      Record(fold, before, op);
    }

    /** The same for an operation that may lose something, of which the map then says nothing. */
    ghost method SimulateIf(fold: bool, before: State, op: Op)
      requires Coupled() && Inv(fold, before, names, objectOf) && Sound(names)
      requires Asserted(fold, before, op) && NewSerial(before) && st == Step(fold, before, op).0
      modifies this`names, this`objectOf
      ensures Coupled()
      ensures LosesNothing(fold, before, op) ==> Valid(fold) && names == Changed(old(names), ChangeOf(fold, before, op))
    {
      if LosesNothing(fold, before, op) {
        Simulate(fold, before, op);
      }
    }

    ghost method Record(fold: bool, before: State, op: Op)
      requires Inv(fold, before, names, objectOf) && Sound(names)
      requires Allowed(fold, before, op) && NewSerial(before) && st == Step(fold, before, op).0
      modifies this`names, this`objectOf
      ensures Inv(fold, st, names, objectOf) && Sound(names)
      ensures names == Changed(old(names), ChangeOf(fold, before, op))
    {
      var m := Changed(names, ChangeOf(fold, before, op));
      var obj := StepKeeps(fold, before, names, objectOf, op, st, m);
      names, objectOf := m, obj;
    }
  }

  function Orphaned(s: State, o: Serial, key: string): State
    requires o in s.objects
  {
    if key in s.objects[o].cache && s.objects[o].cache[key].file in s.objects
    then SetParent(s, s.objects[o].cache[key].file, None) else s
  }

  /** A move in the order of the code. */
  function Relocated(s: State, p: Serial, oldKey: string, o: Serial, key: string, spelling: string, f: Serial): State
    requires IsDir(s, o) && IsDir(s, p) && f in s.objects
  {
    var s1 := StorePut(StoreDrop(s, s.objects[p].id, oldKey), s.objects[o].id, key, s.objects[f].id);
    CacheChild(Orphaned(DropEntry(s1, p, oldKey), o, key), o, key, Entry(false, spelling, f))
  }

  /** That order comes to the same as clearing both places and settling the object. */
  lemma InOrder(s: State, p: Serial, oldKey: string, o: Serial, key: string, spelling: string, f: Serial)
    requires IsDir(s, o) && IsDir(s, p) && Remembers(s, p, oldKey, f) && f in s.objects
    requires key in s.objects[o].cache ==> s.objects[o].cache[key].file in s.objects
    ensures Relocated(s, p, oldKey, o, key, spelling, f) == Transferred(s, p, oldKey, o, key, spelling, f)
  {
    var s1 := StorePut(StoreDrop(s, s.objects[p].id, oldKey), s.objects[o].id, key, s.objects[f].id);
    StoreFirst(s, p, oldKey, o, key, s.objects[f].id);
    SameObjects(s1, p, oldKey, o, key, Entry(false, spelling, f));
  }

  /** The changes of the backend may all come before those of the objects. */
  lemma StoreFirst(s: State, p: Serial, oldKey: string, o: Serial, key: string, c: FileId)
    requires IsDir(s, o) && IsDir(s, p) && oldKey in s.objects[p].cache && s.objects[p].cache[oldKey].file in s.objects
    requires key in s.objects[o].cache ==> s.objects[o].cache[key].file in s.objects
    ensures var s1 := StorePut(StoreDrop(s, s.objects[p].id, oldKey), s.objects[o].id, key, c);
      EvictIf(EvictIf(s1, p, oldKey), o, key) ==
        StorePut(Cleared(Cleared(s, p, oldKey), o, key), s.objects[o].id, key, c)
  {
    var m := StoreDrop(s, s.objects[p].id, oldKey).store[s.objects[o].id];
    assert m[key := c] == (m - {key})[key := c];
  }

  lemma SameObjects(s: State, p: Serial, oldKey: string, o: Serial, key: string, e: Entry)
    requires p in s.objects && o in s.objects && Remembers(s, p, oldKey, e.file) && e.file in s.objects
    requires key in s.objects[o].cache ==> s.objects[o].cache[key].file in s.objects
    ensures CacheChild(Orphaned(DropEntry(s, p, oldKey), o, key), o, key, e) ==
      CacheChild(EvictIf(EvictIf(s, p, oldKey), o, key), o, key, e)
  {
    EvictOrder(s, p, oldKey);
    EvictThenEnter(EvictIf(s, p, oldKey), o, key, e);
    ParentIsOverwritten(DropEntry(s, p, oldKey), o, key, e);
  }

  lemma EvictOrder(s: State, p: Serial, key: string)
    requires p in s.objects && key in s.objects[p].cache && s.objects[p].cache[key].file in s.objects
    ensures Evict(s, p, key) == SetParent(DropEntry(s, p, key), s.objects[p].cache[key].file, None)
  {
  }

  /** An entry that is put in next need not be dropped first. */
  lemma EvictThenEnter(s: State, o: Serial, key: string, e: Entry)
    requires o in s.objects && e.file in s.objects
    requires key in s.objects[o].cache ==> s.objects[o].cache[key].file in s.objects
    ensures CacheChild(EvictIf(s, o, key), o, key, e) == CacheChild(Orphaned(s, o, key), o, key, e)
  {
    if key in s.objects[o].cache {
      var c := Orphaned(s, o, key).objects[o].cache;
      assert (c - {key})[key := e] == c[key := e];
    }
  }

  /** A parent that is set next need not be cleared first. */
  lemma ParentIsOverwritten(s: State, o: Serial, key: string, e: Entry)
    requires o in s.objects && e.file in s.objects
    ensures CacheChild(Orphaned(SetParent(s, e.file, None), o, key), o, key, e) ==
      CacheChild(Orphaned(s, o, key), o, key, e)
  {
  }
}
