/**
 What an enumeration shows. A directory object remembers how each child was spelled; that spelling is a matter of the
 history of calls alone.
 */
module Spellings {
  import opened Common
  import opened NameMaps
  import opened ObjectCaches
  import opened ObjectLaws
  import opened ObjectRuns

  /** A call and its answer. */
  datatype Event = Event(op: Op, answer: Answer)

  /** The call put a child at the key of this directory. */
  predicate Puts(fold: bool, ev: Event, o: Serial, key: string) {
    match ev.op
    case Insert(d, name, _, _) => d == o && Key(fold, name) == key && ev.answer.Gave? && ev.answer.file.Some?
    case MoveTo(d, name, _, _) => d == o && Key(fold, name) == key && ev.answer == Returned(None)
    case _ => false
  }

  /** The call looked the key up and found a child. */
  predicate Looks(fold: bool, ev: Event, o: Serial, key: string) {
    match ev.op
    case Find(d, name) =>
      d == o && Key(fold, name) == key && name != "." && name != ".." && ev.answer.Gave? && ev.answer.file.Some?
    case _ => false
  }

  predicate Names(op: Op) {
    op.Find? || op.Insert? || op.MoveTo?
  }

  function LatestPut(fold: bool, log: seq<Event>, o: Serial, key: string): Option<string> {
    if log == [] then None
    else
      var last := log[|log| - 1];
      if Names(last.op) && Puts(fold, last, o, key) then Some(last.op.name)
      else LatestPut(fold, log[..|log| - 1], o, key)
  }

  function FirstLook(fold: bool, log: seq<Event>, o: Serial, key: string): Option<string> {
    if log == [] then None
    else
      var last := log[|log| - 1];
      match FirstLook(fold, log[..|log| - 1], o, key)
      case Some(name) => Some(name)
      case None => if Names(last.op) && Looks(fold, last, o, key) then Some(last.op.name) else None
  }

  function Spelling(fold: bool, log: seq<Event>, o: Serial, key: string): Option<string> {
    if LatestPut(fold, log, o, key).Some? then LatestPut(fold, log, o, key) else FirstLook(fold, log, o, key)
  }

  /** The name an enumeration shows for a name of the backend: the remembered spelling, if there is one. */
  function Shown(cache: map<string, Entry>, key: string): string {
    if key in cache then cache[key].spelling else key
  }

  // ---------- the invariant ----------

  /** A remembered spelling is the one of the history; a name that is not remembered has no history. */
  ghost predicate SpellingsOk(fold: bool, s: State, log: seq<Event>) {
    && (forall o, k | o in s.objects && k in s.objects[o].cache && !s.objects[o].cache[k].mount ::
          Spelling(fold, log, o, k) == Some(s.objects[o].cache[k].spelling))
    && (forall o, k | IsDir(s, o) && Unseen(s, o, k) :: Spelling(fold, log, o, k) == None)
    && forall o, k | o !in s.objects :: Spelling(fold, log, o, k) == None
  }

  /** The backend has the name but no child is remembered under it. */
  predicate Unseen(s: State, o: Serial, k: string)
    requires IsDir(s, o)
  {
    k in s.store[s.objects[o].id] && k !in s.objects[o].cache
  }

  /** How a call changes what is remembered, in terms of its event. */
  ghost predicate Follows(fold: bool, s: State, ev: Event, s': State) {
    && (forall o | o in s.objects :: o in s'.objects)
    && (forall o, k | o !in s.objects :: !Puts(fold, ev, o, k) && !Looks(fold, ev, o, k))
    && (forall o, k | o in s'.objects && k in s'.objects[o].cache && !s'.objects[o].cache[k].mount ::
          KeptOrNew(fold, s, ev, o, k, s'.objects[o].cache[k]))
    && forall o, k | IsDir(s', o) && Unseen(s', o, k) ::
         o in s.objects ==> IsDir(s, o) && Unseen(s, o, k) && !Puts(fold, ev, o, k) && !Looks(fold, ev, o, k)
  }

  ghost predicate KeptOrNew(fold: bool, s: State, ev: Event, o: Serial, k: string, e: Entry) {
    || (Puts(fold, ev, o, k) && e.spelling == ev.op.name)
    || (Looks(fold, ev, o, k) && IsDir(s, o) && Unseen(s, o, k) && e.spelling == ev.op.name)
    || (!Puts(fold, ev, o, k) && o in s.objects && k in s.objects[o].cache
        && !s.objects[o].cache[k].mount && s.objects[o].cache[k].spelling == e.spelling)
  }

  lemma SpellingSnoc(fold: bool, log: seq<Event>, ev: Event, o: Serial, k: string)
    ensures var log' := log + [ev];
      Spelling(fold, log', o, k) ==
        if Puts(fold, ev, o, k) then Some(ev.op.name)
        else if Spelling(fold, log, o, k).None? && Looks(fold, ev, o, k) then Some(ev.op.name)
        else Spelling(fold, log, o, k)
  {
    var log' := log + [ev];
    assert log'[..|log'| - 1] == log && log'[|log'| - 1] == ev;
    assert LatestPut(fold, log', o, k) == if Puts(fold, ev, o, k) then Some(ev.op.name) else LatestPut(fold, log, o, k);
  }

  lemma FollowsKeeps(fold: bool, s: State, log: seq<Event>, ev: Event, s': State)
    requires SpellingsOk(fold, s, log) && Follows(fold, s, ev, s')
    ensures SpellingsOk(fold, s', log + [ev])
  {
    forall o, k ensures
      && (o in s'.objects && k in s'.objects[o].cache && !s'.objects[o].cache[k].mount ==>
            Spelling(fold, log + [ev], o, k) == Some(s'.objects[o].cache[k].spelling))
      && (IsDir(s', o) && Unseen(s', o, k) ==> Spelling(fold, log + [ev], o, k) == None)
      && (o !in s'.objects ==> Spelling(fold, log + [ev], o, k) == None)
    {
      SpellingSnoc(fold, log, ev, o, k);
    }
  }

  // ---------- each call ----------

  lemma StepFollows(fold: bool, s: State, m: NameMap, obj: map<FileId, Serial>, op: Op)
    requires Inv(fold, s, m, obj) && Allowed(fold, s, op) && NewSerial(s)
    ensures var r := Step(fold, s, op); Follows(fold, s, Event(op, r.1), r.0)
  {
    match op
    case Find(o, name) => FindFollows(fold, s, obj, o, name);
    case Insert(o, name, kind, ok) =>
      assert s.nextId !in s.store && s.nextId !in obj by { NewFileKeeps(fold, s, m, obj, kind); }
      InsertFollows(fold, s, obj, o, name, kind, ok);
    case Remove(o, name, err) =>
      assert IsMount(s, o, Key(fold, name)) ==> EntryOk(fold, s, m, o, Key(fold, name));
      RemoveFollows(fold, s, obj, o, name, err);
    case MoveTo(o, name, f, err) => MoveFollows(fold, s, obj, o, name, f, err);
    case Create(kind) =>
      assert s.nextId !in s.store && s.nextId !in obj by { NewFileKeeps(fold, s, m, obj, kind); }
      CreateFollows(fold, s, obj, kind);
    case Mount(o, name, f) => MountFollows(fold, s, obj, o, name, f);
  }

  /** A call that changes nothing and neither puts nor newly finds anything. */
  lemma NothingFollows(fold: bool, s: State, ev: Event)
    requires forall x, k :: !Puts(fold, ev, x, k)
    requires forall x, k | Looks(fold, ev, x, k) :: x in s.objects && k in s.objects[x].cache
    ensures Follows(fold, s, ev, s)
  {
  }

  lemma FindFollows(fold: bool, s: State, obj: map<FileId, Serial>, o: Serial, name: string)
    requires ObjectsOk(s, obj) && IsDir(s, o) && NewSerial(s)
    ensures var r := Found(fold, s, o, name); Follows(fold, s, Event(Op.Find(o, name), Gave(r.1)), r.0)
  {
    var r, key := Found(fold, s, o, name), Key(fold, name);
    if r.0 == s {
      NothingFollows(fold, s, Event(Op.Find(o, name), Gave(r.1)));
    } else {
      FreshEntry(s, obj, s.store[s.objects[o].id][key], o, key, Entry(false, name, s.nextSerial));
    }
  }

  /** A new object for a stored file is remembered, and nothing else changes. */
  lemma FreshEntry(s: State, obj: map<FileId, Serial>, c: FileId, o: Serial, key: string, e: Entry)
    requires ObjectsOk(s, obj) && IsDir(s, o) && NewSerial(s) && e.file == s.nextSerial
    ensures var s' := CacheChild(NewObject(s, c), o, key, e);
      && s'.objects.Keys == s.objects.Keys + {s.nextSerial} && s'.store == s.store
      && (forall x, k | x in s'.objects && k in s'.objects[x].cache ::
            if x == o && k == key then s'.objects[x].cache[k] == e
            else x in s.objects && k in s.objects[x].cache && s'.objects[x].cache[k] == s.objects[x].cache[k])
      && (forall x | x in s.objects :: s'.objects[x].id == s.objects[x].id)
      && (forall x, k | x in s.objects && IsDir(s', x) && Unseen(s', x, k) ::
            IsDir(s, x) && Unseen(s, x, k) && !(x == o && k == key))
  {
  }

  lemma InsertFollows(fold: bool, s: State, obj: map<FileId, Serial>, o: Serial, name: string, kind: Kind, ok: bool)
    requires ObjectsOk(s, obj) && IsDir(s, o) && NewSerial(s) && s.nextId !in s.store && s.nextId !in obj
    ensures var r := Inserted(fold, s, o, name, kind, ok);
      Follows(fold, s, Event(Insert(o, name, kind, ok), Gave(r.1)), r.0)
  {
    var ev := Event(Insert(o, name, kind, ok), Gave(Inserted(fold, s, o, name, kind, ok).1));
    if s.objects[o].parent.Some? && ok {
      var s1 := NewObject(NewFile(s, kind), s.nextId);
      SettleEntries(s1, obj[s.nextId := s.nextSerial], o, Key(fold, name), name, s.nextSerial);
      CreatedEntries(s, kind);
      EntriesFollow(fold, s, ev, o, name, Inserted(fold, s, o, name, kind, ok).0);
    } else {
      NothingFollows(fold, s, ev);
    }
  }

  /** A new file with a new object: nothing that was there changes. */
  lemma CreatedEntries(s: State, kind: Kind)
    requires NewSerial(s) && s.nextId !in s.store && forall o | o in s.objects :: s.objects[o].id != s.nextId
    ensures var s' := NewObject(NewFile(s, kind), s.nextId);
      && s'.objects == s.objects[s.nextSerial := Obj(s.nextId, None, map[])]
      && (forall x, k | x in s.objects && IsDir(s', x) && Unseen(s', x, k) :: IsDir(s, x) && Unseen(s, x, k))
      && (forall x | x in s.objects :: IsDir(s', x) == IsDir(s, x))
  {
  }

  lemma CreateFollows(fold: bool, s: State, obj: map<FileId, Serial>, kind: Kind)
    requires ObjectsOk(s, obj) && NewSerial(s) && s.nextId !in s.store && s.nextId !in obj
    ensures var r := Step(fold, s, Create(kind)); Follows(fold, s, Event(Create(kind), r.1), r.0)
  {
    CreatedEntries(s, kind);
  }

  lemma MountFollows(fold: bool, s: State, obj: map<FileId, Serial>, o: Serial, name: string, f: Serial)
    requires ObjectsOk(s, obj) && IsDir(s, o) && f in s.objects && Free(s, o, name)
    ensures var r := Mounted(s, o, name, f); Follows(fold, s, Event(Mount(o, name, f), Gave(r.1)), r.0)
  {
  }

  lemma RemoveFollows(fold: bool, s: State, obj: map<FileId, Serial>, o: Serial, name: string, err: Option<Errno>)
    requires ObjectsOk(s, obj) && IsDir(s, o)
    requires var key := Key(fold, name);
      && (key in s.objects[o].cache ==> s.objects[o].cache[key].file in s.objects)
      && (IsMount(s, o, key) ==> key !in s.store[s.objects[o].id])
    ensures var r := Removed(s, o, Key(fold, name), err);
      Follows(fold, s, Event(Remove(o, name, err), Returned(r.1)), r.0)
  {
    var key := Key(fold, name);
    if IsMount(s, o, key) {
      UnmountedEntries(s, o, key);
    } else if err.None? {
      ClearedEntries(s, obj, o, key);
    } else {
      NothingFollows(fold, s, Event(Remove(o, name, err), Returned(Removed(s, o, key, err).1)));
    }
  }

  lemma UnmountedEntries(s: State, o: Serial, key: string)
    requires IsDir(s, o) && key !in s.store[s.objects[o].id]
    ensures var s' := DropEntry(s, o, key);
      && s'.objects.Keys == s.objects.Keys && s'.store == s.store
      && (forall x, k | x in s'.objects && k in s'.objects[x].cache ::
            k in s.objects[x].cache && s'.objects[x].cache[k] == s.objects[x].cache[k])
      && (forall x, k | IsDir(s', x) && Unseen(s', x, k) :: IsDir(s, x) && Unseen(s, x, k))
  {
  }

  lemma MoveFollows(fold: bool, s: State, obj: map<FileId, Serial>, o: Serial, name: string, f: Serial,
                    err: Option<Errno>)
    requires ObjectsOk(s, obj) && Allowed(fold, s, MoveTo(o, name, f, err))
    ensures var r := MovedTo(fold, s, o, name, f, err);
      Follows(fold, s, Event(MoveTo(o, name, f, err), Returned(r.1)), r.0)
  {
    if s.objects[o].parent.Some? && err.None? {
      var p := s.objects[f].parent.value;
      TransferFollows(fold, s, obj, p, KeyOf(s, p, f).value, o, name, f);
    } else {
      NothingFollows(fold, s, Event(MoveTo(o, name, f, err), Returned(MovedTo(fold, s, o, name, f, err).1)));
    }
  }

  lemma TransferFollows(fold: bool, s: State, obj: map<FileId, Serial>, p: Serial, oldKey: string, o: Serial,
                        name: string, f: Serial)
    requires ObjectsOk(s, obj) && IsDir(s, o) && IsDir(s, p) && Remembers(s, p, oldKey, f) && f in s.objects
    requires Key(fold, name) in s.objects[o].cache ==> s.objects[o].cache[Key(fold, name)].file in s.objects
    ensures Follows(fold, s, Event(MoveTo(o, name, f, None), Returned(None)),
                    Transferred(s, p, oldKey, o, Key(fold, name), name, f))
  {
    TransferEntries(s, obj, p, oldKey, o, Key(fold, name), name, f);
    EntriesFollow(fold, s, Event(MoveTo(o, name, f, None), Returned(None)), o, name,
                  Transferred(s, p, oldKey, o, Key(fold, name), name, f));
  }

  /** A call that puts one entry and otherwise makes none, and that uncovers no stored name. */
  lemma EntriesFollow(fold: bool, s: State, ev: Event, o: Serial, name: string, s': State)
    requires o in s.objects && Names(ev.op) && ev.op.name == name
    requires forall x, k :: Puts(fold, ev, x, k) <==> x == o && k == Key(fold, name)
    requires forall x, k :: !Looks(fold, ev, x, k)
    requires forall x | x in s.objects :: x in s'.objects
    requires forall x, k | x in s'.objects && k in s'.objects[x].cache ::
      if x == o && k == Key(fold, name) then s'.objects[x].cache[k].spelling == name
      else x in s.objects && k in s.objects[x].cache && s'.objects[x].cache[k] == s.objects[x].cache[k]
    requires forall x, k | x in s.objects && IsDir(s', x) && Unseen(s', x, k) ::
      IsDir(s, x) && Unseen(s, x, k) && !(x == o && k == Key(fold, name))
    ensures Follows(fold, s, ev, s')
  {
  }

  /** A move makes the new entry; every other entry and every name not remembered was there before. */
  lemma TransferEntries(s: State, obj: map<FileId, Serial>, p: Serial, oldKey: string, o: Serial, key: string,
                        name: string, f: Serial)
    requires ObjectsOk(s, obj) && IsDir(s, o) && IsDir(s, p) && Remembers(s, p, oldKey, f) && f in s.objects
    requires key in s.objects[o].cache ==> s.objects[o].cache[key].file in s.objects
    ensures var s' := Transferred(s, p, oldKey, o, key, name, f);
      && s'.objects.Keys == s.objects.Keys && s'.store.Keys == s.store.Keys
      && (forall x, k | x in s'.objects && k in s'.objects[x].cache ::
            if x == o && k == key then s'.objects[x].cache[k] == Entry(false, name, f)
            else k in s.objects[x].cache && s'.objects[x].cache[k] == s.objects[x].cache[k])
      && (forall x, k | IsDir(s', x) && Unseen(s', x, k) ::
            IsDir(s, x) && Unseen(s, x, k) && !(x == o && k == key))
  {
    var s1 := Cleared(s, p, oldKey);
    ClearedEntries(s, obj, p, oldKey);
    ClearedEntries(s1, obj, o, key);
    SettleEntries(Cleared(s1, o, key), obj, o, key, name, f);
  }

  /** Clearing a name drops what is remembered and what is stored there, and nothing else. */
  lemma ClearedEntries(s: State, obj: map<FileId, Serial>, o: Serial, key: string)
    requires ObjectsOk(s, obj) && IsDir(s, o)
    requires key in s.objects[o].cache ==> s.objects[o].cache[key].file in s.objects
    ensures var s' := Cleared(s, o, key);
      && ObjectsOk(s', obj) && s'.objects.Keys == s.objects.Keys && s'.store.Keys == s.store.Keys
      && (forall x, k | x in s'.objects && k in s'.objects[x].cache ::
            k in s.objects[x].cache && s'.objects[x].cache[k] == s.objects[x].cache[k])
      && (forall x | x in s.objects :: s'.objects[x].id == s.objects[x].id)
      && (forall x, k | IsDir(s', x) && Unseen(s', x, k) :: IsDir(s, x) && Unseen(s, x, k))
  {
  }

  /** Settling adds one name to what is remembered and to what is stored. */
  lemma SettleEntries(s: State, obj: map<FileId, Serial>, o: Serial, key: string, spelling: string, f: Serial)
    requires ObjectsOk(s, obj) && IsDir(s, o) && f in s.objects
    ensures var s' := Settle(s, o, key, spelling, f);
      && s'.objects.Keys == s.objects.Keys && s'.store.Keys == s.store.Keys
      && (forall x, k | x in s'.objects && k in s'.objects[x].cache ::
            if x == o && k == key then s'.objects[x].cache[k] == Entry(false, spelling, f)
            else k in s.objects[x].cache && s'.objects[x].cache[k] == s.objects[x].cache[k])
      && (forall x, k | IsDir(s', x) && Unseen(s', x, k) ::
            IsDir(s, x) && Unseen(s, x, k) && !(x == o && k == key))
  {
  }

  // ---------- whole runs ----------

  /** The events of a run. */
  ghost function LogOf(fold: bool, s: State, ops: seq<Op>): seq<Event>
    requires RunAllowed(fold, s, ops)
    decreases ops
  {
    if ops == [] then []
    else
      var r := Step(fold, s, ops[0]);
      [Event(ops[0], r.1)] + LogOf(fold, r.0, ops[1..])
  }

  lemma {:induction false} SpellingsStayOk(fold: bool, s: State, m: NameMap, obj: map<FileId, Serial>, log: seq<Event>,
                                           ops: seq<Op>)
    requires Inv(fold, s, m, obj) && Sound(m) && RunAllowed(fold, s, ops) && SpellingsOk(fold, s, log)
    ensures SpellingsOk(fold, After(fold, s, ops), log + LogOf(fold, s, ops))
    decreases ops
  {
    if ops == [] {
      assert log + [] == log;
    } else {
      var r := Step(fold, s, ops[0]);
      var ev := Event(ops[0], r.1);
      StepFollows(fold, s, m, obj, ops[0]);
      FollowsKeeps(fold, s, log, ev, r.0);
      var obj1 := StepSimulates(fold, s, m, obj, ops[0]);
      SpellingsStayOk(fold, r.0, Changed(m, ChangeOf(fold, s, ops[0])), obj1, log + [ev], ops[1..]);
      assert log + [ev] + LogOf(fold, r.0, ops[1..]) == log + LogOf(fold, s, ops);
    }
  }

  ghost predicate IsLatestPut(fold: bool, log: seq<Event>, i: nat, o: Serial, key: string) {
    && i < |log| && Puts(fold, log[i], o, key)
    && forall j | i < j < |log| :: !Puts(fold, log[j], o, key)
  }

  ghost predicate IsFirstLook(fold: bool, log: seq<Event>, i: nat, o: Serial, key: string) {
    && i < |log| && Looks(fold, log[i], o, key)
    && forall j | 0 <= j < i :: !Looks(fold, log[j], o, key)
  }

  lemma {:induction false} LatestPutIs(fold: bool, log: seq<Event>, i: nat, o: Serial, key: string)
    requires IsLatestPut(fold, log, i, o, key)
    ensures LatestPut(fold, log, o, key) == Some(log[i].op.name)
  {
    if i < |log| - 1 {
      assert IsLatestPut(fold, log[..|log| - 1], i, o, key);
      LatestPutIs(fold, log[..|log| - 1], i, o, key);
    }
  }

  lemma {:induction false} NoPuts(fold: bool, log: seq<Event>, o: Serial, key: string)
    requires forall i | 0 <= i < |log| :: !Puts(fold, log[i], o, key)
    ensures LatestPut(fold, log, o, key) == None
  {
    if log != [] {
      NoPuts(fold, log[..|log| - 1], o, key);
    }
  }

  lemma {:induction false} FirstLookIs(fold: bool, log: seq<Event>, i: nat, o: Serial, key: string)
    requires IsFirstLook(fold, log, i, o, key)
    ensures FirstLook(fold, log, o, key) == Some(log[i].op.name)
  {
    if i < |log| - 1 {
      assert IsFirstLook(fold, log[..|log| - 1], i, o, key);
      FirstLookIs(fold, log[..|log| - 1], i, o, key);
    } else {
      NoLooks(fold, log[..|log| - 1], o, key);
    }
  }

  lemma {:induction false} NoLooks(fold: bool, log: seq<Event>, o: Serial, key: string)
    requires forall i | 0 <= i < |log| :: !Looks(fold, log[i], o, key)
    ensures FirstLook(fold, log, o, key) == None
  {
    if log != [] {
      NoLooks(fold, log[..|log| - 1], o, key);
    }
  }

  /**
   After any run over the files a backend began with, the name shown for a stored name is how the latest insertion or
   move to it spelled it; without one, how the first lookup that found it spelled it; and without one, the stored name
   itself.
   */
  lemma ShownIsTheHistory(fold: bool, s: State, m: NameMap, root: FileId, ops: seq<Op>, o: Serial, key: string)
    requires Begins(s, m, root) && RunAllowed(fold, s, ops)
    requires var s' := After(fold, s, ops); IsDir(s', o) && key in s'.store[s'.objects[o].id]
    ensures var log := LogOf(fold, s, ops); var shown := Shown(After(fold, s, ops).objects[o].cache, key);
      && (forall i: nat | IsLatestPut(fold, log, i, o, key) :: shown == log[i].op.name)
      && ((forall i | 0 <= i < |log| :: !Puts(fold, log[i], o, key)) ==>
            && (forall i: nat | IsFirstLook(fold, log, i, o, key) :: shown == log[i].op.name)
            && ((forall i | 0 <= i < |log| :: !Looks(fold, log[i], o, key)) ==> shown == key))
  {
    var log := LogOf(fold, s, ops);
    BeginsOk(fold, s, m, root);
    SpellingsStayOk(fold, s, m, map[root := 0], [], ops);
    assert [] + log == log;
    var obj' := EveryRunSimulates(fold, s, m, map[root := 0], ops);
    var s', m' := After(fold, s, ops), MapAfter(fold, s, m, ops);
    ShownIsSpelling(fold, s', m', obj', log, o, key);
    SpellingByEvents(fold, log, o, key);
  }

  /** The spelling in terms of the events that decide it. */
  lemma SpellingByEvents(fold: bool, log: seq<Event>, o: Serial, key: string)
    ensures forall i: nat | IsLatestPut(fold, log, i, o, key) :: Spelling(fold, log, o, key) == Some(log[i].op.name)
    ensures (forall i | 0 <= i < |log| :: !Puts(fold, log[i], o, key)) ==>
      && (forall i: nat | IsFirstLook(fold, log, i, o, key) :: Spelling(fold, log, o, key) == Some(log[i].op.name))
      && ((forall i | 0 <= i < |log| :: !Looks(fold, log[i], o, key)) ==> Spelling(fold, log, o, key) == None)
  {
    forall i: nat | IsLatestPut(fold, log, i, o, key)
      ensures Spelling(fold, log, o, key) == Some(log[i].op.name)
    {
      LatestPutIs(fold, log, i, o, key);
    }
    if forall i | 0 <= i < |log| :: !Puts(fold, log[i], o, key) {
      NoPuts(fold, log, o, key);
      forall i: nat | IsFirstLook(fold, log, i, o, key)
        ensures Spelling(fold, log, o, key) == Some(log[i].op.name)
      {
        FirstLookIs(fold, log, i, o, key);
      }
      if forall i | 0 <= i < |log| :: !Looks(fold, log[i], o, key) {
        NoLooks(fold, log, o, key);
      }
    }
  }

  lemma ShownIsSpelling(fold: bool, s: State, m: NameMap, obj: map<FileId, Serial>, log: seq<Event>, o: Serial,
                        key: string)
    requires Inv(fold, s, m, obj) && SpellingsOk(fold, s, log) && IsDir(s, o) && key in s.store[s.objects[o].id]
    ensures Shown(s.objects[o].cache, key) == Spelling(fold, log, o, key).GetOr(key)
  {
    if key in s.objects[o].cache {
      assert EntryOk(fold, s, m, o, key);
    }
  }
}
