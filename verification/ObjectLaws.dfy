/** Every operation on cached objects keeps the invariant and does to the map what its meaning says. */
module ObjectLaws {
  import opened Common
  import opened NameMaps
  import opened ObjectCaches

  // ---------- new objects ----------

  /** A file that nobody stores yet, with an object of its own. */
  lemma CreateKeeps(fold: bool, s: State, m: NameMap, obj: map<FileId, Serial>, kind: Kind)
    requires Inv(fold, s, m, obj)
    ensures Inv(fold, NewObject(NewFile(s, kind), s.nextId), m, obj[s.nextId := s.nextSerial])
    ensures Homeless(m, s.nextId) && s.nextId !in obj
  {
    NewFileKeeps(fold, s, m, obj, kind);
    NewObjectKeeps(fold, NewFile(s, kind), m, obj, s.nextId);
  }

  lemma NewFileKeeps(fold: bool, s: State, m: NameMap, obj: map<FileId, Serial>, kind: Kind)
    requires Inv(fold, s, m, obj)
    ensures Inv(fold, NewFile(s, kind), m, obj)
    ensures Homeless(m, s.nextId) && s.nextId !in obj && s.nextId !in m.parents
  {
    var s' := NewFile(s, kind);
    assert s.nextId !in s.store;
    forall o, k | o in s'.objects && k in s'.objects[o].cache ensures EntryOk(fold, s', m, o, k) {
      assert EntryOk(fold, s, m, o, k);
    }
    forall p | p in m.pairs ensures PlaceOk(s', m, obj, p) {
      assert PlaceOk(s, m, obj, p);
    }
    forall o | o in s'.objects ensures ParentOk(s', m, o) {
      assert ParentOk(s, m, o);
    }
  }

  /** An object without a parent for a file that has none. */
  lemma NewObjectKeeps(fold: bool, s: State, m: NameMap, obj: map<FileId, Serial>, c: FileId)
    requires Inv(fold, s, m, obj) && c in s.kinds && c !in obj && Homeless(m, c) && c !in m.parents
    ensures Inv(fold, NewObject(s, c), m, obj[c := s.nextSerial])
  {
    var s', obj' := NewObject(s, c), obj[c := s.nextSerial];
    assert s.nextSerial !in s.objects;
    forall o, k | o in s'.objects && k in s'.objects[o].cache ensures EntryOk(fold, s', m, o, k) {
      assert EntryOk(fold, s, m, o, k);
    }
    forall p | p in m.pairs ensures PlaceOk(s', m, obj', p) {
      assert PlaceOk(s, m, obj, p);
    }
    forall o | o in s'.objects ensures ParentOk(s', m, o) {
      assert o != s.nextSerial ==> ParentOk(s, m, o);
    }
  }

  /** The first lookup of a stored file: it had no object before. */
  lemma FoundKeeps(fold: bool, s: State, m: NameMap, obj: map<FileId, Serial>, o: Serial, name: string)
    requires Inv(fold, s, m, obj) && IsDir(s, o)
    requires Key(fold, name) !in s.objects[o].cache && Key(fold, name) in s.store[s.objects[o].id]
    ensures var key := Key(fold, name); var c := s.store[s.objects[o].id][key];
      && c !in obj && At(m, s.objects[o].id, key, c)
      && Inv(fold, CacheChild(NewObject(s, c), o, key, Entry(false, name, s.nextSerial)), m, obj[c := s.nextSerial])
  {
    var key, d := Key(fold, name), s.objects[o].id;
    var c := s.store[d][key];
    var s', obj' := CacheChild(NewObject(s, c), o, key, Entry(false, name, s.nextSerial)), obj[c := s.nextSerial];
    assert At(m, d, key, c);
    assert PlaceOk(s, m, obj, Pair(d, key));
    FoundObjects(s, m, obj, c, o, key, Entry(false, name, s.nextSerial));
    FoundCaches(fold, s, m, o, name, s');
    FoundPlaces(s, m, obj, o, key, Entry(false, name, s.nextSerial), s');
    FoundParents(s, m, o, key, Entry(false, name, s.nextSerial), s');
  }

  lemma FoundObjects(s: State, m: NameMap, obj: map<FileId, Serial>, c: FileId, o: Serial, key: string, e: Entry)
    requires ObjectsOk(s, obj) && FreshOk(s, m, obj) && c !in obj && c in s.kinds && o in s.objects
    requires e.file == s.nextSerial
    ensures s.nextSerial !in s.objects
    ensures var s', obj' := CacheChild(NewObject(s, c), o, key, e), obj[c := s.nextSerial];
      ObjectsOk(s', obj') && FreshOk(s', m, obj')
  {
    assert s.nextSerial !in s.objects;
  }

  lemma FoundParents(s: State, m: NameMap, o: Serial, key: string, e: Entry, s': State)
    requires ParentsOk(s, m) && StoreOk(s, m) && OnePlaceEach(m) && IsDir(s, o) && s.nextSerial !in s.objects
    requires key in s.store[s.objects[o].id] && e.file == s.nextSerial
    requires s' == CacheChild(NewObject(s, s.store[s.objects[o].id][key]), o, key, e)
    ensures ParentsOk(s', m)
  {
    assert At(m, s.objects[o].id, key, s.store[s.objects[o].id][key]);
    forall x | x in s'.objects ensures ParentOk(s', m, x) {
      assert x != s.nextSerial ==> ParentOk(s, m, x);
    }
  }

  lemma FoundCaches(fold: bool, s: State, m: NameMap, o: Serial, name: string, s': State)
    requires CachesOk(fold, s, m) && StoreOk(s, m) && IsDir(s, o) && s.nextSerial !in s.objects
    requires Key(fold, name) !in s.objects[o].cache && Key(fold, name) in s.store[s.objects[o].id]
    requires var key := Key(fold, name);
      s' == CacheChild(NewObject(s, s.store[s.objects[o].id][key]), o, key, Entry(false, name, s.nextSerial))
    ensures CachesOk(fold, s', m)
  {
    forall x, k | x in s'.objects && k in s'.objects[x].cache ensures EntryOk(fold, s', m, x, k) {
      if x == o && k == Key(fold, name) {
        assert At(m, s.objects[o].id, k, s.store[s.objects[o].id][k]);
      } else {
        assert EntryOk(fold, s, m, x, k);
      }
    }
  }

  lemma FoundPlaces(s: State, m: NameMap, obj: map<FileId, Serial>, o: Serial, key: string, e: Entry, s': State)
    requires PlacesOk(s, m, obj) && ObjectsOk(s, obj) && OnePlaceEach(m) && StoreOk(s, m)
    requires IsDir(s, o) && s.nextSerial !in s.objects && key !in s.objects[o].cache && key in s.store[s.objects[o].id]
    requires s.store[s.objects[o].id][key] !in obj
    requires e.file == s.nextSerial && s' == CacheChild(NewObject(s, s.store[s.objects[o].id][key]), o, key, e)
    ensures PlacesOk(s', m, obj[s.store[s.objects[o].id][key] := s.nextSerial])
  {
    var c := s.store[s.objects[o].id][key];
    assert At(m, s.objects[o].id, key, c);
    forall p | p in m.pairs ensures PlaceOk(s', m, obj[c := s.nextSerial], p) {
      assert PlaceOk(s, m, obj, p);
      assert m.pairs[p] == c ==> p == Pair(s.objects[o].id, key);
    }
  }

  // ---------- entries come and go ----------

  /** A remembered child without a place takes a free one; the backend may already hold it there. */
  lemma HangKeeps(fold: bool, s: State, m: NameMap, obj: map<FileId, Serial>, o: Serial, key: string, e: Entry)
    requires Core(fold, s, m, obj) && CanHang(fold, s, m, o, key, e)
    ensures Core(fold, CacheChild(s, o, key, e), WithPut(m, Pair(s.objects[o].id, key), s.objects[e.file].id), obj)
  {
    PutKeepsPlaces(m, Pair(s.objects[o].id, key), s.objects[e.file].id);
    HangCaches(fold, s, m, o, key, e);
    HangPlaces(fold, s, m, obj, o, key, e);
    HangParents(fold, s, m, obj, o, key, e);
  }

  ghost predicate CanHang(fold: bool, s: State, m: NameMap, o: Serial, key: string, e: Entry) {
    && IsDir(s, o) && e.file in s.objects && key == Key(fold, e.spelling)
    && (s.objects[e.file].parent.None? || s.objects[e.file].parent == Some(o))
    && Homeless(m, s.objects[e.file].id) && Pair(s.objects[o].id, key) !in m.pairs
    && (e.mount <==> key !in s.store[s.objects[o].id]) && !(fold && e.mount)
  }

  lemma HangCaches(fold: bool, s: State, m: NameMap, o: Serial, key: string, e: Entry)
    requires CachesOk(fold, s, m) && CanHang(fold, s, m, o, key, e)
    ensures CachesOk(fold, CacheChild(s, o, key, e), WithPut(m, Pair(s.objects[o].id, key), s.objects[e.file].id))
  {
    var s', m' := CacheChild(s, o, key, e), WithPut(m, Pair(s.objects[o].id, key), s.objects[e.file].id);
    forall x, k | x in s'.objects && k in s'.objects[x].cache ensures EntryOk(fold, s', m', x, k) {
      if !(x == o && k == key) {
        assert EntryOk(fold, s, m, x, k);
      }
    }
  }

  lemma HangPlaces(fold: bool, s: State, m: NameMap, obj: map<FileId, Serial>, o: Serial, key: string, e: Entry)
    requires PlacesOk(s, m, obj) && ObjectsOk(s, obj) && CanHang(fold, s, m, o, key, e)
    ensures PlacesOk(CacheChild(s, o, key, e), WithPut(m, Pair(s.objects[o].id, key), s.objects[e.file].id), obj)
  {
    var at := Pair(s.objects[o].id, key);
    var s', m' := CacheChild(s, o, key, e), WithPut(m, at, s.objects[e.file].id);
    forall p | p in m'.pairs ensures PlaceOk(s', m', obj, p) {
      if p != at {
        assert PlaceOk(s, m, obj, p);
      }
    }
  }

  lemma HangParents(fold: bool, s: State, m: NameMap, obj: map<FileId, Serial>, o: Serial, key: string, e: Entry)
    requires ParentsOk(s, m) && ObjectsOk(s, obj) && CanHang(fold, s, m, o, key, e)
    ensures ParentsOk(CacheChild(s, o, key, e), WithPut(m, Pair(s.objects[o].id, key), s.objects[e.file].id))
  {
    var s', m' := CacheChild(s, o, key, e), WithPut(m, Pair(s.objects[o].id, key), s.objects[e.file].id);
    forall x | x in s'.objects ensures ParentOk(s', m', x) {
      assert ParentOk(s, m, x);
    }
  }

  /** A remembered child loses its entry and its parent. */
  lemma EvictKeeps(fold: bool, s: State, m: NameMap, obj: map<FileId, Serial>, o: Serial, key: string)
    requires Core(fold, s, m, obj) && IsDir(s, o) && key in s.objects[o].cache
    ensures s.objects[o].cache[key].file in s.objects && Pair(s.objects[o].id, key) in m.pairs
    ensures Core(fold, Evict(s, o, key), WithTake(m, Pair(s.objects[o].id, key)), obj)
  {
    assert EntryOk(fold, s, m, o, key);
    TakeKeepsPlaces(m, Pair(s.objects[o].id, key));
    EvictCaches(fold, s, m, obj, o, key);
    EvictPlaces(fold, s, m, obj, o, key);
    EvictParents(fold, s, m, obj, o, key);
  }

  lemma EvictCaches(fold: bool, s: State, m: NameMap, obj: map<FileId, Serial>, o: Serial, key: string)
    requires CachesOk(fold, s, m) && ObjectsOk(s, obj) && OnePlaceEach(m) && IsDir(s, o) && key in s.objects[o].cache
    ensures s.objects[o].cache[key].file in s.objects
    ensures CachesOk(fold, Evict(s, o, key), WithTake(m, Pair(s.objects[o].id, key)))
  {
    assert EntryOk(fold, s, m, o, key);
    var s', m' := Evict(s, o, key), WithTake(m, Pair(s.objects[o].id, key));
    OnlyEntry(fold, s, m, obj, o, key);
    forall x, k | x in s'.objects && k in s'.objects[x].cache ensures EntryOk(fold, s', m', x, k) {
      assert EntryOk(fold, s, m, x, k);
      EntryStays(fold, s, m, o, key, x, k);
    }
  }

  lemma EntryStays(fold: bool, s: State, m: NameMap, o: Serial, key: string, x: Serial, k: string)
    requires IsDir(s, o) && key in s.objects[o].cache && EntryOk(fold, s, m, o, key)
    requires x in s.objects && k in s.objects[x].cache && EntryOk(fold, s, m, x, k) && (x == o ==> k != key)
    requires s.objects[x].cache[k].file != s.objects[o].cache[key].file
    requires x == o || s.objects[x].id != s.objects[o].id
    ensures var s' := Evict(s, o, key);
      && x in s'.objects && k in s'.objects[x].cache
      && EntryOk(fold, s', WithTake(m, Pair(s.objects[o].id, key)), x, k)
  {
  }

  /** No object is remembered twice. */
  lemma OneEntry(fold: bool, s: State, m: NameMap, obj: map<FileId, Serial>, o: Serial, k: string, o': Serial,
                 k': string)
    requires CachesOk(fold, s, m) && ObjectsOk(s, obj) && OnePlaceEach(m)
    requires o in s.objects && k in s.objects[o].cache && o' in s.objects && k' in s.objects[o'].cache
    ensures s.objects[o].cache[k].file == s.objects[o'].cache[k'].file ==> o == o' && k == k'
  {
    assert EntryOk(fold, s, m, o, k) && EntryOk(fold, s, m, o', k');
  }

  lemma OnlyEntry(fold: bool, s: State, m: NameMap, obj: map<FileId, Serial>, o: Serial, k: string)
    requires CachesOk(fold, s, m) && ObjectsOk(s, obj) && OnePlaceEach(m) && o in s.objects && k in s.objects[o].cache
    ensures forall x, k' | x in s.objects && k' in s.objects[x].cache &&
      s.objects[x].cache[k'].file == s.objects[o].cache[k].file :: x == o && k' == k
  {
    forall x, k' | x in s.objects && k' in s.objects[x].cache &&
      s.objects[x].cache[k'].file == s.objects[o].cache[k].file ensures x == o && k' == k
    {
      OneEntry(fold, s, m, obj, o, k, x, k');
    }
  }

  lemma EvictPlaces(fold: bool, s: State, m: NameMap, obj: map<FileId, Serial>, o: Serial, key: string)
    requires PlacesOk(s, m, obj) && ObjectsOk(s, obj) && OnePlaceEach(m)
    requires IsDir(s, o) && key in s.objects[o].cache && EntryOk(fold, s, m, o, key)
    ensures PlacesOk(Evict(s, o, key), WithTake(m, Pair(s.objects[o].id, key)), obj)
  {
    var s', m' := Evict(s, o, key), WithTake(m, Pair(s.objects[o].id, key));
    forall p | p in m'.pairs ensures PlaceOk(s', m', obj, p) {
      assert PlaceOk(s, m, obj, p);
    }
  }

  lemma EvictParents(fold: bool, s: State, m: NameMap, obj: map<FileId, Serial>, o: Serial, key: string)
    requires ParentsOk(s, m) && ObjectsOk(s, obj)
    requires IsDir(s, o) && key in s.objects[o].cache && EntryOk(fold, s, m, o, key)
    ensures ParentsOk(Evict(s, o, key), WithTake(m, Pair(s.objects[o].id, key)))
  {
    var s', m' := Evict(s, o, key), WithTake(m, Pair(s.objects[o].id, key));
    forall x | x in s'.objects ensures ParentOk(s', m', x) {
      assert ParentOk(s, m, x);
    }
  }

  /** A file without an object is forgotten. */
  lemma ForgetKeeps(fold: bool, s: State, m: NameMap, obj: map<FileId, Serial>, o: Serial, key: string)
    requires Core(fold, s, m, obj) && IsDir(s, o) && key !in s.objects[o].cache
    ensures Core(fold, s, WithTake(m, Pair(s.objects[o].id, key)), obj)
  {
    var at := Pair(s.objects[o].id, key);
    var m' := WithTake(m, at);
    TakeKeepsPlaces(m, at);
    assert at in m.pairs ==> PlaceOk(s, m, obj, at);
    forall x, k | x in s.objects && k in s.objects[x].cache ensures EntryOk(fold, s, m', x, k) {
      assert EntryOk(fold, s, m, x, k);
    }
    forall p | p in m'.pairs ensures PlaceOk(s, m', obj, p) {
      assert PlaceOk(s, m, obj, p);
    }
    forall x | x in s.objects ensures ParentOk(s, m', x) {
      assert ParentOk(s, m, x);
    }
  }

  /** A mount loses its entry but keeps its parent. */
  lemma UnmountKeeps(fold: bool, s: State, m: NameMap, obj: map<FileId, Serial>, o: Serial, key: string)
    requires Inv(fold, s, m, obj) && IsDir(s, o) && IsMount(s, o, key)
    ensures Inv(fold, DropEntry(s, o, key), Changed(m, Unmount(Pair(s.objects[o].id, key))), obj)
  {
    var at := Pair(s.objects[o].id, key);
    var s', m' := DropEntry(s, o, key), Changed(m, Unmount(at));
    assert EntryOk(fold, s, m, o, key);
    UnmountCaches(fold, s, m, obj, o, key);
    UnmountPlaces(s, m, obj, o, key);
    UnmountParents(s, m, o, key);
    UnmountStore(s, m, o, key);
  }

  lemma UnmountPlaces(s: State, m: NameMap, obj: map<FileId, Serial>, o: Serial, key: string)
    requires PlacesOk(s, m, obj) && ObjectsOk(s, obj) && IsDir(s, o)
    ensures PlacesOk(DropEntry(s, o, key), Changed(m, Unmount(Pair(s.objects[o].id, key))), obj)
  {
    var s', m' := DropEntry(s, o, key), Changed(m, Unmount(Pair(s.objects[o].id, key)));
    forall p | p in m'.pairs ensures PlaceOk(s', m', obj, p) {
      assert PlaceOk(s, m, obj, p);
    }
  }

  lemma UnmountParents(s: State, m: NameMap, o: Serial, key: string)
    requires ParentsOk(s, m) && IsDir(s, o)
    ensures ParentsOk(DropEntry(s, o, key), Changed(m, Unmount(Pair(s.objects[o].id, key))))
  {
    var s', m' := DropEntry(s, o, key), Changed(m, Unmount(Pair(s.objects[o].id, key)));
    forall x | x in s'.objects ensures ParentOk(s', m', x) {
      assert ParentOk(s, m, x);
    }
  }

  lemma UnmountStore(s: State, m: NameMap, o: Serial, key: string)
    requires StoreOk(s, m) && IsDir(s, o) && key !in s.store[s.objects[o].id]
    ensures StoreOk(DropEntry(s, o, key), Changed(m, Unmount(Pair(s.objects[o].id, key))))
  {
    var m' := Changed(m, Unmount(Pair(s.objects[o].id, key)));
    forall d, n | d in s.store && n in s.store[d] ensures At(m', d, n, s.store[d][n]) {
      assert At(m, d, n, s.store[d][n]);
    }
  }

  lemma UnmountCaches(fold: bool, s: State, m: NameMap, obj: map<FileId, Serial>, o: Serial, key: string)
    requires CachesOk(fold, s, m) && ObjectsOk(s, obj) && IsDir(s, o) && key in s.objects[o].cache
    ensures CachesOk(fold, DropEntry(s, o, key), Changed(m, Unmount(Pair(s.objects[o].id, key))))
  {
    var s', m' := DropEntry(s, o, key), Changed(m, Unmount(Pair(s.objects[o].id, key)));
    forall x, k | x in s'.objects && k in s'.objects[x].cache ensures EntryOk(fold, s', m', x, k) {
      assert EntryOk(fold, s, m, x, k);
    }
  }

  // ---------- the backend's side ----------

  /** The backend stores a file at a name the map does not have. */
  lemma StorePutKeeps(fold: bool, s: State, m: NameMap, obj: map<FileId, Serial>, d: FileId, key: string, c: FileId)
    requires Inv(fold, s, m, obj) && d in s.store && Pair(d, key) !in m.pairs
    ensures Core(fold, StorePut(s, d, key, c), m, obj) && StoreOk(StorePut(s, d, key, c), WithPut(m, Pair(d, key), c))
  {
    var s' := StorePut(s, d, key, c);
    forall x, k | x in s'.objects && k in s'.objects[x].cache ensures EntryOk(fold, s', m, x, k) {
      assert EntryOk(fold, s, m, x, k);
    }
    forall p | p in m.pairs ensures PlaceOk(s', m, obj, p) {
      assert PlaceOk(s, m, obj, p);
    }
    forall x | x in s'.objects ensures ParentOk(s', m, x) {
      assert ParentOk(s, m, x);
    }
    forall e, n | e in s'.store && n in s'.store[e] ensures At(WithPut(m, Pair(d, key), c), e, n, s'.store[e][n]) {
      assert n in s.store[e] ==> At(m, e, n, s.store[e][n]);
    }
  }

  /** The backend forgets a name the map has lost. */
  lemma StoreDropKeeps(fold: bool, s: State, m: NameMap, obj: map<FileId, Serial>, d: FileId, key: string, m': NameMap)
    requires Core(fold, s, m', obj) && StoreOk(s, m) && d in s.store && m' == WithTake(m, Pair(d, key))
    ensures Inv(fold, StoreDrop(s, d, key), m', obj)
  {
    var s' := StoreDrop(s, d, key);
    forall x, k | x in s'.objects && k in s'.objects[x].cache ensures EntryOk(fold, s', m', x, k) {
      assert EntryOk(fold, s, m', x, k);
    }
    forall p | p in m'.pairs ensures PlaceOk(s', m', obj, p) {
      assert PlaceOk(s, m', obj, p);
    }
    forall x | x in s'.objects ensures ParentOk(s', m', x) {
      assert ParentOk(s, m', x);
    }
    forall e, n | e in s'.store && n in s'.store[e] ensures At(m', e, n, s'.store[e][n]) {
      assert At(m, e, n, s.store[e][n]);
    }
  }

  // ---------- whole operations ----------

  /** An object without a place takes a free one. */
  lemma SettleKeeps(fold: bool, s: State, m: NameMap, obj: map<FileId, Serial>, o: Serial, spelling: string, f: Serial)
    requires Inv(fold, s, m, obj) && IsDir(s, o) && f in s.objects && s.objects[f].parent.None?
    requires Homeless(m, s.objects[f].id) && Pair(s.objects[o].id, Key(fold, spelling)) !in m.pairs
    ensures Inv(fold, Settle(s, o, Key(fold, spelling), spelling, f),
                WithPut(m, Pair(s.objects[o].id, Key(fold, spelling)), s.objects[f].id), obj)
  {
    var key, d, c := Key(fold, spelling), s.objects[o].id, s.objects[f].id;
    StorePutKeeps(fold, s, m, obj, d, key, c);
    HangKeeps(fold, StorePut(s, d, key, c), m, obj, o, key, Entry(false, spelling, f));
  }

  /** Clearing a name takes it out of the map, and the object that was there has no parent any more. */
  lemma ClearKeeps(fold: bool, s: State, m: NameMap, obj: map<FileId, Serial>, o: Serial, key: string)
    requires Inv(fold, s, m, obj) && IsDir(s, o)
    ensures key in s.objects[o].cache ==> s.objects[o].cache[key].file in s.objects
    ensures Inv(fold, Cleared(s, o, key), WithTake(m, Pair(s.objects[o].id, key)), obj)
  {
    var d := s.objects[o].id;
    var m' := WithTake(m, Pair(d, key));
    if key in s.objects[o].cache {
      EvictKeeps(fold, s, m, obj, o, key);
      StoreDropKeeps(fold, Evict(s, o, key), m, obj, d, key, m');
    } else {
      ForgetKeeps(fold, s, m, obj, o, key);
      StoreDropKeeps(fold, s, m, obj, d, key, m');
    }
  }
}
