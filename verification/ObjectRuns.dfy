/** Runs of operations on cached objects: they are runs of the plain map, with one object for each file. */
module ObjectRuns {
  import opened Common
  import opened Folding
  import opened NameMaps
  import opened ObjectCaches
  import opened ObjectLaws

  /** What an operation means to the map. */
  ghost function ChangeOf(fold: bool, s: State, op: Op): Change
    requires Allowed(fold, s, op)
  {
    match op
    case Find(_, _) => Nothing
    case Insert(o, name, _, ok) =>
      if s.objects[o].parent.None? || !ok then Nothing else Put(Place(fold, s, o, name), s.nextId)
    case Remove(o, name, err) =>
      if IsMount(s, o, Key(fold, name)) then Unmount(Place(fold, s, o, name))
      else if err.Some? then Nothing else Take(Place(fold, s, o, name))
    case MoveTo(o, name, f, err) =>
      if s.objects[o].parent.None? || err.Some? then Nothing
      else
        var p := s.objects[f].parent.value;
        Rename(Pair(s.objects[p].id, KeyOf(s, p, f).value), Place(fold, s, o, name))
    case Create(_) => Nothing
    case Mount(o, name, f) =>
      if s.objects[o].parent.None? then Nothing else Put(Place(fold, s, o, name), s.objects[f].id)
  }

  function Place(fold: bool, s: State, o: Serial, name: string): Pair
    requires o in s.objects
  {
    Pair(s.objects[o].id, Key(fold, name))
  }

  /** A lookup answers what the map answers. */
  ghost predicate AnswerOk(fold: bool, s: State, m: NameMap, op: Op, s': State, a: Answer) {
    op.Find? && op.dir in s.objects ==>
      a.Gave? &&
      match a.file
      case None => NameMaps.Find(m, s.objects[op.dir].id, Key(fold, op.name)).None?
      case Some(x) =>
        x in s'.objects && NameMaps.Find(m, s.objects[op.dir].id, Key(fold, op.name)) == Some(s'.objects[x].id)
  }

  /** Objects stay, with the file they stand for, and new ones stand for other files. */
  ghost predicate Grows(s: State, obj: map<FileId, Serial>, s': State, obj': map<FileId, Serial>) {
    && (forall c | c in obj :: c in obj' && obj'[c] == obj[c])
    && forall o | o in s.objects :: o in s'.objects && s'.objects[o].id == s.objects[o].id
  }

  /** One operation on objects is one change of the map. */
  lemma StepSimulates(fold: bool, s: State, m: NameMap, obj: map<FileId, Serial>, op: Op)
    returns (obj': map<FileId, Serial>)
    requires Inv(fold, s, m, obj) && Sound(m) && Allowed(fold, s, op)
    ensures NewSerial(s)
    ensures var r := Step(fold, s, op); var m' := Changed(m, ChangeOf(fold, s, op));
      && Inv(fold, r.0, m', obj') && Sound(m') && Grows(s, obj, r.0, obj') && AnswerOk(fold, s, m, op, r.0, r.1)
  {
    ChangeKeepsSound(m, ChangeOf(fold, s, op)) by { ChangeFits(fold, s, m, obj, op); }
    match op
    case Find(o, name) => obj' := FindSimulates(fold, s, m, obj, o, name);
    case Insert(o, name, kind, ok) => obj' := InsertSimulates(fold, s, m, obj, o, name, kind, ok);
    case Remove(o, name, err) => obj' := RemoveSimulates(fold, s, m, obj, o, name, err);
    case MoveTo(o, name, f, err) => obj' := MoveSimulates(fold, s, m, obj, o, name, f, err);
    case Create(kind) =>
      CreateKeeps(fold, s, m, obj, kind);
      obj' := obj[s.nextId := s.nextSerial];
    case Mount(o, name, f) => obj' := MountSimulates(s, m, obj, o, name, f);
  }

  /** An object that was not there before, for a file of this kind that was not there before. */
  ghost predicate IsNew(s: State, s': State, x: Serial, kind: Kind) {
    && x !in s.objects && x in s'.objects && s'.objects[x].id !in s.kinds
    && s'.objects[x].id in s'.kinds && s'.kinds[s'.objects[x].id] == kind
  }

  /** What the operations other than lookups return. */
  ghost predicate ReturnsOk(fold: bool, s: State, m': NameMap, op: Op, s': State, a: Answer)
    requires Allowed(fold, s, op)
  {
    match op
    case Find(_, _) => true
    case Insert(o, name, kind, ok) =>
      if s.objects[o].parent.None? || !ok then a == Gave(None)
      else
        && a.Gave? && a.file.Some? && IsNew(s, s', a.file.value, kind)
        && s'.objects[a.file.value].parent == Some(o)
        && At(m', s.objects[o].id, Key(fold, name), s'.objects[a.file.value].id)
    case Remove(o, name, err) =>
      var k := Key(fold, name);
      a == Returned(if k in s.objects[o].cache && s.objects[o].cache[k].mount then None else err)
    case MoveTo(o, _, f, err) =>
      && a == Returned(if s.objects[o].parent.None? then Some(EPERM) else err)
      && (a == Returned(None) ==> f in s'.objects && s'.objects[f].parent == Some(o))
    case Create(kind) => a.Gave? && a.file.Some? && IsNew(s, s', a.file.value, kind)
    case Mount(o, _, f) =>
      && a == Gave(if s.objects[o].parent.None? then None else Some(f))
      && (a.file.Some? ==> f in s'.objects && s'.objects[f].parent == Some(o))
  }

  /** An operation returns the new object, the backend's error, or the refusal of a detached directory. */
  lemma StepReturns(fold: bool, s: State, m: NameMap, obj: map<FileId, Serial>, op: Op)
    requires Inv(fold, s, m, obj) && Sound(m) && Allowed(fold, s, op)
    ensures NewSerial(s)
    ensures var r := Step(fold, s, op);
      ReturnsOk(fold, s, Changed(m, ChangeOf(fold, s, op)), op, r.0, r.1)
  {
    match op
    case Insert(o, name, kind, ok) =>
      if s.objects[o].parent.Some? && ok {
        assert Inserted(fold, s, o, name, kind, ok).0.objects[s.nextSerial].id == s.nextId;
      }
    case _ =>
  }

  lemma StepKeeps(fold: bool, s: State, m: NameMap, obj: map<FileId, Serial>, op: Op, s': State, m': NameMap)
    returns (obj': map<FileId, Serial>)
    requires Inv(fold, s, m, obj) && Sound(m) && Allowed(fold, s, op) && NewSerial(s)
    requires s' == Step(fold, s, op).0 && m' == Changed(m, ChangeOf(fold, s, op))
    ensures Inv(fold, s', m', obj') && Sound(m')
  {
    obj' := StepSimulates(fold, s, m, obj, op);
  }

  /** A free name is not in the map. */
  lemma FreeIsFree(fold: bool, s: State, m: NameMap, obj: map<FileId, Serial>, o: Serial, key: string)
    requires Inv(fold, s, m, obj) && IsDir(s, o) && Free(s, o, key)
    ensures Pair(s.objects[o].id, key) !in m.pairs
  {
    var at := Pair(s.objects[o].id, key);
    assert at in m.pairs ==> PlaceOk(s, m, obj, at);
  }

  lemma FindSimulates(fold: bool, s: State, m: NameMap, obj: map<FileId, Serial>, o: Serial, name: string)
    returns (obj': map<FileId, Serial>)
    requires Inv(fold, s, m, obj) && IsDir(s, o)
    ensures NewSerial(s)
    ensures var r := Found(fold, s, o, name);
      Inv(fold, r.0, m, obj') && Grows(s, obj, r.0, obj') && AnswerOk(fold, s, m, Op.Find(o, name), r.0, Gave(r.1))
  {
    var key := Key(fold, name);
    LowerDots(name);
    assert ParentOk(s, m, o);
    obj' := obj;
    if s.objects[o].parent.Some? && name != "." && name != ".." {
      if key in s.objects[o].cache {
        assert EntryOk(fold, s, m, o, key);
      } else if key in s.store[s.objects[o].id] {
        FoundKeeps(fold, s, m, obj, o, name);
        obj' := obj[s.store[s.objects[o].id][key] := s.nextSerial];
      } else {
        FreeIsFree(fold, s, m, obj, o, key);
      }
    }
  }

  lemma InsertSimulates(fold: bool, s: State, m: NameMap, obj: map<FileId, Serial>, o: Serial, name: string, kind: Kind,
                        ok: bool)
    returns (obj': map<FileId, Serial>)
    requires Inv(fold, s, m, obj) && Allowed(fold, s, Insert(o, name, kind, ok))
    ensures NewSerial(s)
    ensures var r := Inserted(fold, s, o, name, kind, ok);
      Inv(fold, r.0, Changed(m, ChangeOf(fold, s, Insert(o, name, kind, ok))), obj') && Grows(s, obj, r.0, obj')
  {
    obj' := obj;
    if s.objects[o].parent.Some? && ok {
      obj' := NewChild(fold, s, m, obj, o, name, kind);
    }
  }

  lemma NewChild(fold: bool, s: State, m: NameMap, obj: map<FileId, Serial>, o: Serial, name: string, kind: Kind)
    returns (obj': map<FileId, Serial>)
    requires Inv(fold, s, m, obj) && IsDir(s, o) && Free(s, o, Key(fold, name)) && s.objects[o].parent.Some?
    ensures s.nextSerial !in s.objects
    ensures var s1 := NewObject(NewFile(s, kind), s.nextId);
      var s' := Settle(s1, o, Key(fold, name), name, s.nextSerial);
      Inv(fold, s', WithPut(m, Pair(s.objects[o].id, Key(fold, name)), s.nextId), obj') && Grows(s, obj, s', obj')
  {
    CreateKeeps(fold, s, m, obj, kind);
    FreeIsFree(fold, s, m, obj, o, Key(fold, name));
    obj' := obj[s.nextId := s.nextSerial];
    SettleKeeps(fold, NewObject(NewFile(s, kind), s.nextId), m, obj', o, name, s.nextSerial);
  }

  lemma RemoveSimulates(fold: bool, s: State, m: NameMap, obj: map<FileId, Serial>, o: Serial, name: string,
                        err: Option<Errno>)
    returns (obj': map<FileId, Serial>)
    requires Inv(fold, s, m, obj) && Allowed(fold, s, Remove(o, name, err))
    ensures var r := Removed(s, o, Key(fold, name), err);
      Inv(fold, r.0, Changed(m, ChangeOf(fold, s, Remove(o, name, err))), obj') && Grows(s, obj, r.0, obj')
  {
    obj' := obj;
    if IsMount(s, o, Key(fold, name)) {
      UnmountKeeps(fold, s, m, obj, o, Key(fold, name));
    } else if err.None? {
      ClearKeeps(fold, s, m, obj, o, Key(fold, name));
    }
  }

  lemma MoveSimulates(fold: bool, s: State, m: NameMap, obj: map<FileId, Serial>, o: Serial, name: string, f: Serial,
                      err: Option<Errno>)
    returns (obj': map<FileId, Serial>)
    requires Inv(fold, s, m, obj) && Allowed(fold, s, MoveTo(o, name, f, err))
    ensures var r := MovedTo(fold, s, o, name, f, err);
      Inv(fold, r.0, Changed(m, ChangeOf(fold, s, MoveTo(o, name, f, err))), obj') && Grows(s, obj, r.0, obj')
  {
    obj' := obj;
    if s.objects[o].parent.Some? && err.None? {
      var p := s.objects[f].parent.value;
      TransferKeeps(fold, s, m, obj, p, KeyOf(s, p, f).value, o, name, f);
    }
  }

  lemma TransferKeeps(fold: bool, s: State, m: NameMap, obj: map<FileId, Serial>, p: Serial, oldKey: string, o: Serial,
                      name: string, f: Serial)
    requires Inv(fold, s, m, obj) && IsDir(s, o) && IsDir(s, p) && Remembers(s, p, oldKey, f)
    ensures f in s.objects
    ensures Key(fold, name) in s.objects[o].cache ==> s.objects[o].cache[Key(fold, name)].file in s.objects
    ensures var s' := Transferred(s, p, oldKey, o, Key(fold, name), name, f);
      && Inv(fold, s', Changed(m, Rename(Pair(s.objects[p].id, oldKey), Place(fold, s, o, name))), obj)
      && Grows(s, obj, s', obj)
  {
    var from, to := Pair(s.objects[p].id, oldKey), Place(fold, s, o, name);
    ChildIsKnown(fold, s, m, o, to.name);
    LiftKeeps(fold, s, m, obj, p, oldKey, f);
    var s1, m1 := Cleared(s, p, oldKey), WithTake(m, from);
    assert Place(fold, s1, o, name) == to && s1.objects[f].id == s.objects[f].id == m.pairs[from];
    LandKeeps(fold, s1, m1, obj, o, name, f);
    RenameIs(m, from, to);
  }

  /** The first half of a move: the object leaves its place. */
  lemma LiftKeeps(fold: bool, s: State, m: NameMap, obj: map<FileId, Serial>, p: Serial, oldKey: string, f: Serial)
    requires Inv(fold, s, m, obj) && IsDir(s, p) && Remembers(s, p, oldKey, f)
    ensures f in s.objects && At(m, s.objects[p].id, oldKey, s.objects[f].id)
    ensures var s1 := Cleared(s, p, oldKey); var m1 := WithTake(m, Pair(s.objects[p].id, oldKey));
      && Inv(fold, s1, m1, obj) && Homeless(m1, s.objects[f].id) && s1.objects.Keys == s.objects.Keys
      && s1.store.Keys == s.store.Keys && s1.objects[f].parent.None?
      && (forall x | x in s.objects :: s1.objects[x].id == s.objects[x].id)
  {
    ChildIsKnown(fold, s, m, p, oldKey);
    ClearKeeps(fold, s, m, obj, p, oldKey);
    ClearedFacts(s, p, oldKey, f);
    TakeKeepsPlaces(m, Pair(s.objects[p].id, oldKey));
  }

  /** The second half of a move: an object without a place takes one, and what it overwrites loses its own. */
  lemma LandKeeps(fold: bool, s: State, m: NameMap, obj: map<FileId, Serial>, o: Serial, name: string, f: Serial)
    requires Inv(fold, s, m, obj) && IsDir(s, o) && f in s.objects && s.objects[f].parent.None?
    requires Homeless(m, s.objects[f].id)
    ensures Key(fold, name) in s.objects[o].cache ==> s.objects[o].cache[Key(fold, name)].file in s.objects
    ensures var s1 := Cleared(s, o, Key(fold, name)); var m1 := WithTake(m, Place(fold, s, o, name));
      && IsDir(s1, o) && f in s1.objects && Grows(s, obj, Settle(s1, o, Key(fold, name), name, f), obj)
      && Inv(fold, Settle(s1, o, Key(fold, name), name, f), WithPut(m1, Place(fold, s, o, name), s.objects[f].id), obj)
  {
    ClearKeeps(fold, s, m, obj, o, Key(fold, name));
    ClearedFacts(s, o, Key(fold, name), f);
    TakeKeepsPlaces(m, Place(fold, s, o, name));
    SettleKeeps(fold, Cleared(s, o, Key(fold, name)), WithTake(m, Place(fold, s, o, name)), obj, o, name, f);
  }

  lemma ChildIsKnown(fold: bool, s: State, m: NameMap, o: Serial, key: string)
    requires CachesOk(fold, s, m) && o in s.objects
    ensures key in s.objects[o].cache ==>
      && s.objects[o].cache[key].file in s.objects
      && At(m, s.objects[o].id, key, s.objects[s.objects[o].cache[key].file].id)
  {
    assert key in s.objects[o].cache ==> EntryOk(fold, s, m, o, key);
  }

  lemma ClearedFacts(s: State, o: Serial, key: string, f: Serial)
    requires IsDir(s, o) && (key in s.objects[o].cache ==> s.objects[o].cache[key].file in s.objects) && f in s.objects
    ensures var s' := Cleared(s, o, key);
      && s'.objects.Keys == s.objects.Keys && s'.store.Keys == s.store.Keys
      && (forall x | x in s.objects :: s'.objects[x].id == s.objects[x].id)
      && (s.objects[f].parent.None? || Remembers(s, o, key, f) ==> s'.objects[f].parent.None?)
  {
  }

  lemma MountSimulates(s: State, m: NameMap, obj: map<FileId, Serial>, o: Serial, name: string, f: Serial)
    returns (obj': map<FileId, Serial>)
    requires Inv(false, s, m, obj) && Allowed(false, s, Mount(o, name, f))
    ensures var r := Mounted(s, o, name, f);
      Inv(false, r.0, Changed(m, ChangeOf(false, s, Mount(o, name, f))), obj') && Grows(s, obj, r.0, obj')
  {
    obj' := obj;
    if s.objects[o].parent.Some? {
      FreeIsFree(false, s, m, obj, o, name);
      UnrememberedIsHomeless(false, s, m, obj, f);
      HangKeeps(false, s, m, obj, o, name, Entry(true, name, f));
      MountStays(s, m, o, name, s.objects[f].id);
    }
  }

  lemma MountStays(s: State, m: NameMap, o: Serial, name: string, c: FileId)
    requires StoreOk(s, m) && o in s.objects && Pair(s.objects[o].id, name) !in m.pairs
    ensures StoreOk(s, WithPut(m, Pair(s.objects[o].id, name), c))
  {
    forall d, n | d in s.store && n in s.store[d]
      ensures At(WithPut(m, Pair(s.objects[o].id, name), c), d, n, s.store[d][n])
    {
      assert At(m, d, n, s.store[d][n]);
    }
  }

  /** An object that no directory remembers stands for a file without a place. */
  lemma UnrememberedIsHomeless(fold: bool, s: State, m: NameMap, obj: map<FileId, Serial>, f: Serial)
    requires Inv(fold, s, m, obj) && f in s.objects && forall p, k :: !Remembers(s, p, k, f)
    ensures Homeless(m, s.objects[f].id)
  {
    forall p | p in m.pairs ensures m.pairs[p] != s.objects[f].id {
      assert PlaceOk(s, m, obj, p);
    }
  }

  /** What is empty to the code has no names in the map. */
  lemma EmptyIsEmpty(fold: bool, s: State, m: NameMap, obj: map<FileId, Serial>, o: Serial, key: string)
    requires Inv(fold, s, m, obj) && IsDir(s, o) && EmptyAt(s, o, key)
    ensures var at := Pair(s.objects[o].id, key); at in m.pairs ==> NothingIn(m, m.pairs[at])
  {
    var at := Pair(s.objects[o].id, key);
    if at in m.pairs {
      assert PlaceOk(s, m, obj, at);
      if key in s.objects[o].cache {
        assert EntryOk(fold, s, m, o, key);
      } else {
        assert At(m, at.dir, key, s.store[at.dir][key]);
      }
      forall p | p in m.pairs ensures p.dir != m.pairs[at] {
        assert PlaceOk(s, m, obj, p);
      }
    }
  }

  lemma ChangeFits(fold: bool, s: State, m: NameMap, obj: map<FileId, Serial>, op: Op)
    requires Inv(fold, s, m, obj) && Sound(m) && Allowed(fold, s, op)
    ensures Fits(m, ChangeOf(fold, s, op))
  {
    match op
    case Find(_, _) =>
    case Create(_) =>
    case Insert(o, name, _, _) =>
      FreeIsFree(fold, s, m, obj, o, Key(fold, name));
      assert ParentOk(s, m, o);
    case Remove(o, name, err) =>
      if !IsMount(s, o, Key(fold, name)) && err.None? {
        EmptyIsEmpty(fold, s, m, obj, o, Key(fold, name));
      }
    case MoveTo(o, name, f, err) =>
      assert ParentOk(s, m, o);
      if s.objects[o].parent.Some? && err.None? && !Remembers(s, o, Key(fold, name), f) {
        EmptyIsEmpty(fold, s, m, obj, o, Key(fold, name));
      }
      if Remembers(s, o, Key(fold, name), f) && s.objects[o].parent.Some? && err.None? {
        var p := s.objects[f].parent.value;
        OneEntry(fold, s, m, obj, o, Key(fold, name), p, KeyOf(s, p, f).value);
      }
    case Mount(o, name, f) =>
      assert ParentOk(s, m, o);
      FreeIsFree(fold, s, m, obj, o, name);
      UnrememberedIsHomeless(fold, s, m, obj, f);
  }

  // ---------- runs ----------

  ghost predicate RunAllowed(fold: bool, s: State, ops: seq<Op>)
    decreases ops
  {
    ops == [] || (NewSerial(s) && Allowed(fold, s, ops[0]) && RunAllowed(fold, Step(fold, s, ops[0]).0, ops[1..]))
  }

  ghost function After(fold: bool, s: State, ops: seq<Op>): State
    requires RunAllowed(fold, s, ops)
    decreases ops
  {
    if ops == [] then s else After(fold, Step(fold, s, ops[0]).0, ops[1..])
  }

  /** The same run on the plain map. */
  ghost function MapAfter(fold: bool, s: State, m: NameMap, ops: seq<Op>): NameMap
    requires RunAllowed(fold, s, ops)
    decreases ops
  {
    if ops == [] then m
    else MapAfter(fold, Step(fold, s, ops[0]).0, Changed(m, ChangeOf(fold, s, ops[0])), ops[1..])
  }

  /** After every run the objects show the map after the same run, and every object is still the one of its file. */
  lemma {:induction false} EveryRunSimulates(fold: bool, s: State, m: NameMap, obj: map<FileId, Serial>, ops: seq<Op>)
    returns (obj': map<FileId, Serial>)
    requires Inv(fold, s, m, obj) && Sound(m) && RunAllowed(fold, s, ops)
    ensures var s' := After(fold, s, ops); var m' := MapAfter(fold, s, m, ops);
      Inv(fold, s', m', obj') && Sound(m') && Grows(s, obj, s', obj')
    decreases ops
  {
    obj' := obj;
    if ops != [] {
      var obj1 := StepSimulates(fold, s, m, obj, ops[0]);
      obj' := EveryRunSimulates(fold, Step(fold, s, ops[0]).0, Changed(m, ChangeOf(fold, s, ops[0])), obj1, ops[1..]);
    }
  }

  /** A file never gets a second object, whatever is looked up, inserted, moved, removed or mounted. */
  lemma OneObjectForGood(fold: bool, s: State, m: NameMap, obj: map<FileId, Serial>, ops: seq<Op>, x: Serial, y: Serial)
    requires Inv(fold, s, m, obj) && Sound(m) && RunAllowed(fold, s, ops)
    requires x in s.objects && y in After(fold, s, ops).objects
    requires After(fold, s, ops).objects[y].id == s.objects[x].id
    ensures x == y
  {
    var obj' := EveryRunSimulates(fold, s, m, obj, ops);
  }

  /** No operation of the run puts, takes, unmounts or renames at this place. */
  ghost predicate Untouched(fold: bool, s: State, ops: seq<Op>, at: Pair)
    requires RunAllowed(fold, s, ops)
    decreases ops
  {
    ops == [] || (!Touches(ChangeOf(fold, s, ops[0]), at) && Untouched(fold, Step(fold, s, ops[0]).0, ops[1..], at))
  }

  lemma {:induction false} PlaceStays(fold: bool, s: State, m: NameMap, ops: seq<Op>, at: Pair)
    requires RunAllowed(fold, s, ops) && Untouched(fold, s, ops, at) && at in m.pairs
    ensures At(MapAfter(fold, s, m, ops), at.dir, at.name, m.pairs[at])
    decreases ops
  {
    if ops != [] {
      var m1 := Changed(m, ChangeOf(fold, s, ops[0]));
      UntouchedStays(m, ChangeOf(fold, s, ops[0]), at);
      PlaceStays(fold, Step(fold, s, ops[0]).0, m1, ops[1..], at);
    }
  }

  /** An object that a lookup returned is returned again until its name is removed, moved away or overwritten. */
  lemma SameObjectUntilTouched(fold: bool, s: State, m: NameMap, obj: map<FileId, Serial>, o: Serial, name: string,
                               name': string, ops: seq<Op>)
    requires Inv(fold, s, m, obj) && Sound(m) && IsDir(s, o) && name != "." && name != ".." && NewSerial(s)
    requires Key(fold, name') == Key(fold, name) && Found(fold, s, o, name).1.Some?
    requires var s1 := Found(fold, s, o, name).0;
      RunAllowed(fold, s1, ops) && Untouched(fold, s1, ops, Place(fold, s, o, name))
    ensures var s2 := After(fold, Found(fold, s, o, name).0, ops);
      IsDir(s2, o) && NewSerial(s2) && Found(fold, s2, o, name').1 == Found(fold, s, o, name).1
  {
    var at := Place(fold, s, o, name);
    var obj1 := FindSimulates(fold, s, m, obj, o, name);
    var s1 := Found(fold, s, o, name).0;
    var x := Found(fold, s, o, name).1.value;
    LowerDots(name);
    LowerDots(name');
    assert At(m, at.dir, at.name, s1.objects[x].id);
    var obj2 := EveryRunSimulates(fold, s1, m, obj1, ops);
    PlaceStays(fold, s1, m, ops, at);
    var s2, m2 := After(fold, s1, ops), MapAfter(fold, s1, m, ops);
    assert PlaceOk(s2, m2, obj2, at);
    var obj3 := FindSimulates(fold, s2, m2, obj2, o, name');
  }

  // ---------- beginnings and ends ----------

  /** A root object over a backend that already stores the files of a sound map. */
  ghost predicate Begins(s: State, m: NameMap, root: FileId) {
    && s.objects == map[0 := Obj(root, Some(0), map[])] && s.nextSerial == 1
    && Sound(m) && StoreOk(s, m) && (forall p | p in m.pairs :: p.dir in s.store && p.name in s.store[p.dir])
    && Homeless(m, root) && root in m.parents && m.parents[root] == root
    && FreshOk(s, m, map[root := 0])
  }

  lemma BeginsOk(fold: bool, s: State, m: NameMap, root: FileId)
    requires Begins(s, m, root)
    ensures Inv(fold, s, m, map[root := 0])
  {
  }

  /** A backend with nothing in it but a root directory is such a beginning. */
  lemma EmptyBackend()
    ensures Begins(State(map[0 := Obj(0, Some(0), map[])], map[0 := map[]], map[0 := Directory], 1, 1),
                   NameMap(map[], map[0 := 0]), 0)
  {
  }

  /**
   After every run from such a beginning the objects show the map after the same run, with one object for each file. A
   remembered child has the directory as its parent, is filed under the folded form of its spelling, and is in the
   backend unless it is a mount.
   */
  lemma RunsFromTheStart(fold: bool, s: State, m: NameMap, root: FileId, ops: seq<Op>, o: Serial, k: string, x: Serial)
    returns (obj': map<FileId, Serial>)
    requires Begins(s, m, root) && RunAllowed(fold, s, ops)
    ensures var s', m' := After(fold, s, ops), MapAfter(fold, s, m, ops);
      && Inv(fold, s', m', obj') && Sound(m')
      && (o in s'.objects && x in s'.objects && s'.objects[o].id == s'.objects[x].id ==> o == x)
      && (Remembers(s', o, k, x) ==>
            var e := s'.objects[o].cache[k];
            && x in s'.objects && s'.objects[x].parent == Some(o) && s'.objects[o].id in s'.store
            && k == Key(fold, e.spelling) && k == Key(fold, k)
            && if k in s'.store[s'.objects[o].id]
               then !e.mount && s'.store[s'.objects[o].id][k] == s'.objects[x].id else e.mount)
  {
    BeginsOk(fold, s, m, root);
    obj' := EveryRunSimulates(fold, s, m, map[root := 0], ops);
    var s', m' := After(fold, s, ops), MapAfter(fold, s, m, ops);
    if Remembers(s', o, k, x) {
      assert EntryOk(fold, s', m', o, k);
      LowerTwice(s'.objects[o].cache[k].spelling);
      assert k in s'.store[s'.objects[o].id] ==> At(m', s'.objects[o].id, k, s'.store[s'.objects[o].id][k]);
    }
  }

  /** A detached directory has no names at all. */
  lemma DetachedIsEmpty(fold: bool, s: State, m: NameMap, obj: map<FileId, Serial>, o: Serial, name: string)
    requires Inv(fold, s, m, obj) && Sound(m) && IsDir(s, o) && s.objects[o].parent.None?
    ensures s.objects[o].cache == map[] && s.store[s.objects[o].id] == map[]
    ensures NewSerial(s) && Found(fold, s, o, name) == (s, None)
  {
    var d := s.objects[o].id;
    forall k ensures k !in s.objects[o].cache && k !in s.store[d] {
      if k in s.objects[o].cache || k in s.store[d] {
        NamesMeanParent(fold, s, m, o, k);
      }
    }
  }

  lemma NamesMeanParent(fold: bool, s: State, m: NameMap, o: Serial, k: string)
    requires CachesOk(fold, s, m) && StoreOk(s, m) && ParentsOk(s, m) && Sound(m) && IsDir(s, o)
    requires k in s.objects[o].cache || k in s.store[s.objects[o].id]
    ensures s.objects[o].parent.Some?
  {
    var d := s.objects[o].id;
    assert ParentOk(s, m, o);
    ChildIsKnown(fold, s, m, o, k);
    assert k in s.store[d] ==> At(m, d, k, s.store[d][k]);
    assert Pair(d, k) in m.pairs;
  }

  /** Nothing but a mount gives a detached object a parent again. */
  lemma {:induction false} DetachedForGood(fold: bool, s: State, m: NameMap, obj: map<FileId, Serial>, ops: seq<Op>,
                                           x: Serial)
    requires Inv(fold, s, m, obj) && Sound(m) && RunAllowed(fold, s, ops)
    requires x in s.objects && s.objects[x].parent.None? && forall op | op in ops :: !(op.Mount? && op.file == x)
    ensures x in After(fold, s, ops).objects && After(fold, s, ops).objects[x].parent.None?
    decreases ops
  {
    if ops != [] {
      var obj1 := StepSimulates(fold, s, m, obj, ops[0]);
      var s1 := Step(fold, s, ops[0]).0;
      StaysDetached(fold, s, m, obj, ops[0], x);
      DetachedForGood(fold, s1, Changed(m, ChangeOf(fold, s, ops[0])), obj1, ops[1..], x);
    }
  }

  lemma StaysDetached(fold: bool, s: State, m: NameMap, obj: map<FileId, Serial>, op: Op, x: Serial)
    requires Inv(fold, s, m, obj) && Allowed(fold, s, op) && NewSerial(s)
    requires x in s.objects && s.objects[x].parent.None? && !(op.Mount? && op.file == x)
    ensures x in Step(fold, s, op).0.objects && Step(fold, s, op).0.objects[x].parent.None?
  {
    match op
    case Find(o, name) => FindLeavesParents(fold, s, o, name, x);
    case Insert(o, name, kind, ok) => InsertLeavesParents(fold, s, o, name, kind, ok, x);
    case Create(_) =>
    case Mount(_, _, _) =>
    case Remove(o, name, err) =>
      if err.None? && !IsMount(s, o, Key(fold, name)) {
        ClearedFacts(s, o, Key(fold, name), x);
      }
    case MoveTo(o, name, f, err) =>
      if err.None? && s.objects[o].parent.Some? {
        var p := s.objects[f].parent.value;
        OthersStayDetached(s, p, KeyOf(s, p, f).value, o, Key(fold, name), name, f, x);
      }
  }

  lemma FindLeavesParents(fold: bool, s: State, o: Serial, name: string, x: Serial)
    requires IsDir(s, o) && NewSerial(s) && x in s.objects
    ensures var s' := Found(fold, s, o, name).0; x in s'.objects && s'.objects[x].parent == s.objects[x].parent
  {
  }

  lemma InsertLeavesParents(fold: bool, s: State, o: Serial, name: string, kind: Kind, ok: bool, x: Serial)
    requires IsDir(s, o) && NewSerial(s) && x in s.objects
    ensures var s' := Inserted(fold, s, o, name, kind, ok).0;
      x in s'.objects && s'.objects[x].parent == s.objects[x].parent
  {
  }

  lemma OthersStayDetached(s: State, p: Serial, oldKey: string, o: Serial, key: string, name: string, f: Serial,
                           x: Serial)
    requires IsDir(s, o) && IsDir(s, p) && Remembers(s, p, oldKey, f) && f in s.objects
    requires key in s.objects[o].cache ==> s.objects[o].cache[key].file in s.objects
    requires x in s.objects && x != f && s.objects[x].parent.None?
    ensures var s' := Transferred(s, p, oldKey, o, key, name, f); x in s'.objects && s'.objects[x].parent.None?
  {
    ClearedFacts(s, p, oldKey, x);
    ClearedFacts(Cleared(s, p, oldKey), o, key, x);
  }
}
