/**
 File objects handed out over backends that make a new object at every lookup. A directory object remembers the
 children it has handed out; this is the directory cache of `Directory::Handle`, and also the `children` of the
 ignore-case directory, which files them under folded names and keeps their spellings. The state is a value here;
 `CachedFiles` holds the same facts in objects. The main result is that either adapter behaves as a `NameMap` with one
 object for each file.
 */
module ObjectCaches {
  import opened Common
  import opened NameMaps
  import opened Folding

  /** The identity of a `File` object. */
  type Serial = int

  datatype Kind = Data | Directory | Symlink

  datatype Entry = Entry(mount: bool, spelling: string, file: Serial)

  /** A `File` object: the file of some backend it stands for, its parent pointer, and the children it remembers. */
  datatype Obj = Obj(id: FileId, parent: Option<Serial>, cache: map<string, Entry>)

  /** `store` and `kinds` are what the backends really hold. */
  datatype State = State(objects: map<Serial, Obj>, store: map<FileId, map<string, FileId>>, kinds: map<FileId, Kind>,
                         nextId: FileId, nextSerial: Serial)

  predicate IsDir(s: State, o: Serial) {
    o in s.objects && s.objects[o].id in s.store
  }

  // ---------- one field at a time ----------

  function SetParent(s: State, f: Serial, p: Option<Serial>): State
    requires f in s.objects
  {
    s.(objects := s.objects[f := s.objects[f].(parent := p)])
  }

  function SetCache(s: State, o: Serial, c: map<string, Entry>): State
    requires o in s.objects
  {
    s.(objects := s.objects[o := s.objects[o].(cache := c)])
  }

  function PutEntry(s: State, o: Serial, key: string, e: Entry): State
    requires o in s.objects
  {
    SetCache(s, o, s.objects[o].cache[key := e])
  }

  function DropEntry(s: State, o: Serial, key: string): State
    requires o in s.objects
  {
    SetCache(s, o, s.objects[o].cache - {key})
  }

  function StorePut(s: State, d: FileId, key: string, file: FileId): State
    requires d in s.store
  {
    s.(store := s.store[d := s.store[d][key := file]])
  }

  function StoreDrop(s: State, d: FileId, key: string): State
    requires d in s.store
  {
    s.(store := s.store[d := s.store[d] - {key}])
  }

  /** A backend makes a file that it stores nowhere yet. */
  function NewFile(s: State, kind: Kind): State {
    s.(kinds := s.kinds[s.nextId := kind], store := if kind == Directory then s.store[s.nextId := map[]] else s.store,
       nextId := s.nextId + 1)
  }

  /** A new object for a file. */
  function NewObject(s: State, file: FileId): State {
    s.(objects := s.objects[s.nextSerial := Obj(file, None, map[])], nextSerial := s.nextSerial + 1)
  }

  /** `cacheChild`: enter a child and set its parent. */
  function CacheChild(s: State, o: Serial, key: string, e: Entry): State
    requires o in s.objects && e.file in s.objects
  {
    SetParent(PutEntry(s, o, key, e), e.file, Some(o))
  }

  /** A child that is overwritten or removed loses its parent and its entry. */
  function Evict(s: State, o: Serial, key: string): State
    requires o in s.objects && key in s.objects[o].cache && s.objects[o].cache[key].file in s.objects
  {
    DropEntry(SetParent(s, s.objects[o].cache[key].file, None), o, key)
  }

  function EvictIf(s: State, o: Serial, key: string): State
    requires o in s.objects && (key in s.objects[o].cache ==> s.objects[o].cache[key].file in s.objects)
  {
    if key in s.objects[o].cache then Evict(s, o, key) else s
  }

  // ---------- the operations ----------

  datatype Op =
    | Find(dir: Serial, name: string)
    | Insert(dir: Serial, name: string, kind: Kind, ok: bool)
    | Remove(dir: Serial, name: string, err: Option<Errno>)
    | MoveTo(dir: Serial, name: string, file: Serial, err: Option<Errno>)
    | Create(kind: Kind)
    | Mount(dir: Serial, name: string, file: Serial)

  datatype Answer = Gave(file: Option<Serial>) | Returned(err: Option<Errno>)

  function Key(fold: bool, name: string): string {
    if fold then Lower(name) else name
  }

  /** The object has nothing in it: what `getNumEntries() == 0` says. */
  predicate Empty(s: State, o: Serial) {
    o in s.objects ==> s.objects[o].cache == map[] && StoredEmpty(s, s.objects[o].id)
  }

  predicate StoredEmpty(s: State, d: FileId) {
    d in s.store ==> s.store[d] == map[]
  }

  /** Whatever is at a name has nothing in it. */
  predicate EmptyAt(s: State, o: Serial, key: string)
    requires IsDir(s, o)
  {
    && (key in s.objects[o].cache ==> Empty(s, s.objects[o].cache[key].file))
    && (key in s.store[s.objects[o].id] ==> StoredEmpty(s, s.store[s.objects[o].id][key]))
  }

  /** Neither the cache nor the backend has the name. */
  predicate Free(s: State, o: Serial, key: string)
    requires IsDir(s, o)
  {
    key !in s.objects[o].cache && key !in s.store[s.objects[o].id]
  }

  predicate Remembers(s: State, o: Serial, key: string, f: Serial) {
    o in s.objects && key in s.objects[o].cache && s.objects[o].cache[key].file == f
  }

  /** The key under which a directory remembers an object. */
  ghost function KeyOf(s: State, o: Serial, f: Serial): Option<string> {
    if exists k :: Remembers(s, o, k, f) then
      var k :| Remembers(s, o, k, f);
      Some(k)
    else None
  }

  /** What the code asks of its callers: what it asserts, and that nothing with entries of its own is lost. */
  ghost predicate Allowed(fold: bool, s: State, op: Op) {
    Asserted(fold, s, op) && LosesNothing(fold, s, op)
  }

  /** What a removal takes away and a move overwrites is empty. */
  ghost predicate LosesNothing(fold: bool, s: State, op: Op)
    requires Asserted(fold, s, op)
  {
    match op
    case Remove(o, name, err) => err.None? && !IsMount(s, o, Key(fold, name)) ==> EmptyAt(s, o, Key(fold, name))
    case MoveTo(o, name, f, err) =>
      err.None? && s.objects[o].parent.Some? && !Remembers(s, o, Key(fold, name), f) ==> EmptyAt(s, o, Key(fold, name))
    case _ => true
  }

  ghost predicate Asserted(fold: bool, s: State, op: Op) {
    match op
    case Find(o, _) => IsDir(s, o)
    case Insert(o, name, _, _) => IsDir(s, o) && Free(s, o, Key(fold, name))
    case Remove(o, name, err) =>
      var k := Key(fold, name);
      && IsDir(s, o) && (k in s.objects[o].cache ==> s.objects[o].cache[k].file in s.objects)
      && (err.None? && !IsMount(s, o, k) && fold ==> k in s.objects[o].cache)
    case MoveTo(o, name, f, err) =>
      && IsDir(s, o) && f in s.objects && s.objects[f].parent.Some?
      && (fold ==> s.objects[f].id in s.kinds && s.kinds[s.objects[f].id] != Symlink)
      && (err.None? && s.objects[o].parent.Some? ==> MayMove(s, o, Key(fold, name), f))
    case Create(_) => true
    case Mount(o, name, f) =>
      && !fold && IsDir(s, o) && Free(s, o, name) && f in s.objects
      && (s.objects[f].parent.None? || s.objects[f].parent == Some(o))
      && forall p, k :: !Remembers(s, p, k, f)
  }

  predicate IsMount(s: State, o: Serial, key: string) {
    o in s.objects && key in s.objects[o].cache && s.objects[o].cache[key].mount
  }

  /** The object is remembered by its parent and is no mount. */
  ghost predicate MayMove(s: State, o: Serial, key: string, f: Serial)
    requires IsDir(s, o) && f in s.objects && s.objects[f].parent.Some?
  {
    var p := s.objects[f].parent.value;
    && IsDir(s, p) && KeyOf(s, p, f).Some? && !IsMount(s, p, KeyOf(s, p, f).value)
    && (key in s.objects[o].cache ==> s.objects[o].cache[key].file in s.objects)
  }

  /** The number of the next object is not in use. */
  predicate NewSerial(s: State) {
    s.nextSerial !in s.objects
  }

  /** `getChild`. */
  function Found(fold: bool, s: State, o: Serial, name: string): (State, Option<Serial>)
    requires IsDir(s, o) && NewSerial(s)
  {
    var k := Key(fold, name);
    if s.objects[o].parent.None? then (s, None)
    else if name == "." then (s, Some(o))
    else if name == ".." then (s, s.objects[o].parent)
    else if k in s.objects[o].cache then (s, Some(s.objects[o].cache[k].file))
    else if k !in s.store[s.objects[o].id] then (s, None)
    else
      var s1 := NewObject(s, s.store[s.objects[o].id][k]);
      (CacheChild(s1, o, k, Entry(false, name, s.nextSerial)), Some(s.nextSerial))
  }

  /** `insertDataFile`, `insertDirectory`, `insertSymlink`. */
  function Inserted(fold: bool, s: State, o: Serial, name: string, kind: Kind, ok: bool): (State, Option<Serial>)
    requires IsDir(s, o) && NewSerial(s)
  {
    if s.objects[o].parent.None? || !ok then (s, None)
    else
      var s1 := NewObject(NewFile(s, kind), s.nextId);
      (Settle(s1, o, Key(fold, name), name, s.nextSerial), Some(s.nextSerial))
  }

  /** An object without a place takes one. */
  function Settle(s: State, o: Serial, key: string, spelling: string, f: Serial): State
    requires IsDir(s, o) && f in s.objects
  {
    CacheChild(StorePut(s, s.objects[o].id, key, s.objects[f].id), o, key, Entry(false, spelling, f))
  }

  /** What is at a name leaves cache and backend. */
  function Cleared(s: State, o: Serial, key: string): State
    requires IsDir(s, o) && (key in s.objects[o].cache ==> s.objects[o].cache[key].file in s.objects)
  {
    StoreDrop(EvictIf(s, o, key), s.objects[o].id, key)
  }

  /** `removeChild`. */
  function Removed(s: State, o: Serial, key: string, err: Option<Errno>): (State, Option<Errno>)
    requires IsDir(s, o) && (key in s.objects[o].cache ==> s.objects[o].cache[key].file in s.objects)
  {
    if IsMount(s, o, key) then (DropEntry(s, o, key), None)
    else if err.Some? then (s, err)
    else (Cleared(s, o, key), None)
  }

  /** `insertMove`. */
  ghost function MovedTo(fold: bool, s: State, o: Serial, name: string, f: Serial, err: Option<Errno>)
    : (State, Option<Errno>)
    requires Asserted(fold, s, MoveTo(o, name, f, err))
  {
    if s.objects[o].parent.None? then (s, Some(EPERM))
    else if err.Some? then (s, err)
    else
      var p := s.objects[f].parent.value;
      (Transferred(s, p, KeyOf(s, p, f).value, o, Key(fold, name), name, f), None)
  }

  /** The object leaves its place, what it overwrites leaves the new place, and the object takes it. */
  function Transferred(s: State, p: Serial, oldKey: string, o: Serial, key: string, name: string, f: Serial): State
    requires IsDir(s, o) && IsDir(s, p) && Remembers(s, p, oldKey, f) && f in s.objects
    requires key in s.objects[o].cache ==> s.objects[o].cache[key].file in s.objects
  {
    Settle(Cleared(Cleared(s, p, oldKey), o, key), o, key, name, f)
  }

  /** `mountChild`. */
  function Mounted(s: State, o: Serial, name: string, f: Serial): (State, Option<Serial>)
    requires o in s.objects && f in s.objects
  {
    if s.objects[o].parent.None? then (s, None) else (CacheChild(s, o, name, Entry(true, name, f)), Some(f))
  }

  ghost function Step(fold: bool, s: State, op: Op): (State, Answer)
    requires Asserted(fold, s, op) && NewSerial(s)
  {
    match op
    case Find(o, name) => var r := Found(fold, s, o, name); (r.0, Gave(r.1))
    case Insert(o, name, kind, ok) => var r := Inserted(fold, s, o, name, kind, ok); (r.0, Gave(r.1))
    case Remove(o, name, err) => var r := Removed(s, o, Key(fold, name), err); (r.0, Returned(r.1))
    case MoveTo(o, name, f, err) => var r := MovedTo(fold, s, o, name, f, err); (r.0, Returned(r.1))
    case Create(kind) => (NewObject(NewFile(s, kind), s.nextId), Gave(Some(s.nextSerial)))
    case Mount(o, name, f) => var r := Mounted(s, o, name, f); (r.0, Gave(r.1))
  }

  // ---------- the invariant ----------

  /** `obj` gives the one object of a file: different objects stand for different files. */
  ghost predicate ObjectsOk(s: State, obj: map<FileId, Serial>) {
    && (forall o | o in s.objects :: s.objects[o].id in obj && obj[s.objects[o].id] == o)
    && forall c | c in obj :: obj[c] in s.objects && s.objects[obj[c]].id == c
  }

  /** What the backends store is in the map. */
  ghost predicate StoreOk(s: State, m: NameMap) {
    forall d, n | d in s.store && n in s.store[d] :: At(m, d, n, s.store[d][n])
  }

  predicate At(m: NameMap, d: FileId, n: string, c: FileId) {
    Pair(d, n) in m.pairs && m.pairs[Pair(d, n)] == c
  }

  /** A remembered child is in the map, has this directory as parent, and is in the backend unless it is a mount. */
  ghost predicate EntryOk(fold: bool, s: State, m: NameMap, o: Serial, k: string)
    requires o in s.objects && k in s.objects[o].cache
  {
    var e, d := s.objects[o].cache[k], s.objects[o].id;
    && e.file in s.objects && s.objects[e.file].parent == Some(o) && d in s.store
    && At(m, d, k, s.objects[e.file].id) && (e.mount <==> k !in s.store[d]) && k == Key(fold, e.spelling)
    && !(fold && e.mount)
  }

  ghost predicate CachesOk(fold: bool, s: State, m: NameMap) {
    forall o, k | o in s.objects && k in s.objects[o].cache :: EntryOk(fold, s, m, o, k)
  }

  /** A file of the map is remembered at its place if it has an object, and is in the backend if it has none. */
  ghost predicate PlaceOk(s: State, m: NameMap, obj: map<FileId, Serial>, p: Pair)
    requires p in m.pairs
  {
    && p.dir in s.store
    && (m.pairs[p] in obj ==> p.dir in obj && Remembers(s, obj[p.dir], p.name, obj[m.pairs[p]]))
    && (m.pairs[p] !in obj ==> p.name in s.store[p.dir])
  }

  ghost predicate PlacesOk(s: State, m: NameMap, obj: map<FileId, Serial>) {
    forall p | p in m.pairs :: PlaceOk(s, m, obj, p)
  }

  /** The parent pointer of an object says what the map says. */
  ghost predicate ParentOk(s: State, m: NameMap, o: Serial)
    requires o in s.objects
  {
    match s.objects[o].parent
    case None => s.objects[o].id !in m.parents
    case Some(p) =>
      p in s.objects && s.objects[o].id in m.parents && m.parents[s.objects[o].id] == s.objects[p].id
  }

  ghost predicate ParentsOk(s: State, m: NameMap) {
    forall o | o in s.objects :: ParentOk(s, m, o)
  }

  ghost predicate FreshOk(s: State, m: NameMap, obj: map<FileId, Serial>) {
    && (forall o | o in s.objects :: o < s.nextSerial)
    && (forall c | c in s.kinds :: c < s.nextId)
    && (forall p | p in m.pairs :: m.pairs[p] in s.kinds)
    && (forall c | c in obj :: c in s.kinds)
    && (forall c | c in m.parents :: c in s.kinds)
    && forall d :: d in s.store <==> d in s.kinds && s.kinds[d] == Directory
  }

  /** All but `StoreOk`. */
  ghost predicate Core(fold: bool, s: State, m: NameMap, obj: map<FileId, Serial>) {
    && OnePlaceEach(m) && ObjectsOk(s, obj) && CachesOk(fold, s, m) && PlacesOk(s, m, obj)
    && ParentsOk(s, m) && FreshOk(s, m, obj)
  }

  ghost predicate Inv(fold: bool, s: State, m: NameMap, obj: map<FileId, Serial>) {
    Core(fold, s, m, obj) && StoreOk(s, m)
  }
}
