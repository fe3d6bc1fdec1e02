/** What the backend's three primitive changes do to the tree, and exactly when they keep its shape. */
module TreeLaws {
  import opened Common
  import opened Trees

  // ---------- a new file ----------

  /** The only pair that appears is (d, name); everything else is as before. */
  lemma AttachEffect(t: Tree, d: Ino, name: string, body: Body, canRead: bool, canWrite: bool)
    requires Wired(t) && IsDir(t, d) && (body.Dir? ==> body.entries == [])
    ensures var t' := Attach(t, d, name, body, canRead, canWrite);
      && (forall x, e {:trigger e in Entries(t', x)} ::
            e in Entries(t', x) <==> e in Entries(t, x) || (x == d && e == Entry(name, t.next)))
      && (forall i | i in t.nodes :: i in t'.nodes && t'.nodes[i].parent == t.nodes[i].parent)
      && Linked(t', t.next) && t'.nodes[t.next].parent == Some(d)
  {
    assert t.next !in t.nodes;
  }

  lemma AttachKeepsWiring(t: Tree, d: Ino, name: string, body: Body, canRead: bool, canWrite: bool)
    requires Wired(t) && IsDir(t, d) && Linked(t, d) && FindName(Entries(t, d), name).None?
    requires body.Dir? ==> body.entries == []
    ensures Wired(Attach(t, d, name, body, canRead, canWrite))
  {
    var t' := Attach(t, d, name, body, canRead, canWrite);
    AttachEffect(t, d, name, body, canRead, canWrite);
    assert ParentsOk(t') by {
      forall i {:trigger Linked(t', i)} | Linked(t', i) && i != t'.root
        ensures IsDir(t', t'.nodes[i].parent.value) && HasChild(Entries(t', t'.nodes[i].parent.value), i)
      {
        if i == t.next {
          assert Entry(name, i) in Entries(t', d);
        } else {
          assert Linked(t, i);
          var p := t.nodes[i].parent.value;
          var n :| Entry(n, i) in Entries(t, p);
          assert Entry(n, i) in Entries(t', p);
        }
      }
    }
    assert DistinctOk(t') by {
      forall x ensures Distinct(Entries(t', x)) {
        assert Distinct(Entries(t, x));
        if x == d {
          DistinctSnoc(Entries(t, d), name, t.next);
        }
      }
    }
    assert DetachedOk(t') by {
      forall x | x in t'.nodes && t'.nodes[x].parent.None? ensures Entries(t', x) == [] {
        assert x != d && x != t.next && Entries(t', x) == Entries(t, x);
      }
    }
  }

  lemma DistinctSnoc(es: seq<Entry>, name: string, c: Ino)
    requires Distinct(es) && FindName(es, name).None?
    requires forall e | e in es :: e.child != c
    ensures Distinct(es + [Entry(name, c)])
  {
    FindNameIsMembership(es, name);
    forall j | 0 <= j < |es| ensures es[j].name != name && es[j].child != c {
      assert es[j] in es;
    }
  }

  lemma AttachKeepsShape(t: Tree, d: Ino, name: string, body: Body, canRead: bool, canWrite: bool)
    requires Shape(t) && IsDir(t, d) && Linked(t, d) && FindName(Entries(t, d), name).None?
    requires body.Dir? ==> body.entries == []
    ensures Shape(Attach(t, d, name, body, canRead, canWrite))
  {
    var t' := Attach(t, d, name, body, canRead, canWrite);
    AttachKeepsWiring(t, d, name, body, canRead, canWrite);
    AttachEffect(t, d, name, body, canRead, canWrite);
    var r := Rank(t);
    assert Ranks(t', r[t.next := r[d] + 1]) by {
      assert forall i | i in t'.nodes :: i == t.next || i in t.nodes;
      assert forall i | Linked(t', i) && i != t.next :: Linked(t, i);
    }
  }

  // ---------- removing a name ----------

  lemma RemoveEffect(t: Tree, d: Ino, name: string, c: Ino)
    requires Shape(t) && Entry(name, c) in Entries(t, d)
    ensures var t' := RemoveName(t, d, name);
      && t'.nodes.Keys == t.nodes.Keys && t'.root == t.root && t'.next == t.next
      && (forall x, e {:trigger e in Entries(t', x)} ::
            e in Entries(t', x) <==> e in Entries(t, x) && !(x == d && e.name == name))
      && (forall i | i in t.nodes :: t'.nodes[i].parent == if i == c then None else t.nodes[i].parent)
      && (forall i | i in t.nodes && i != d :: t'.nodes[i].body == t.nodes[i].body)
      && IsDir(t', d) && Distinct(Entries(t', d))
  {
    assert Distinct(Entries(t, d));
    FindNameIsMembership(Entries(t, d), name);
    EraseNameKeeps(Entries(t, d), name);
    assert c != d by {
      if c == d { OnlyRootIsItsOwnParent(t, c); }
    }
  }

  /** Nothing but the root is its own parent: an entry never holds its own directory. */
  lemma OnlyRootIsItsOwnParent(t: Tree, i: Ino)
    requires Grounded(t) && Linked(t, i) && t.nodes[i].parent == Some(i)
    ensures i == t.root
  {
    var r := Rank(t);
  }

  /** Removing an entry keeps the shape exactly when what it names is not a directory with entries. */
  lemma RemoveKeepsShape(t: Tree, d: Ino, name: string, c: Ino)
    requires Shape(t) && Entry(name, c) in Entries(t, d)
    ensures Shape(RemoveName(t, d, name)) <==> Entries(t, c) == []
  {
    var t' := RemoveName(t, d, name);
    RemoveEffect(t, d, name, c);
    assert c != d && c != t.root by {
      if c == d { OnlyRootIsItsOwnParent(t, c); }
    }
    assert Entries(t', c) == Entries(t, c);
    if Entries(t, c) == [] {
      RemoveKeepsParents(t, d, name, c);
      RemoveKeepsRest(t, d, name, c);
      assert Ranks(t', Rank(t)) by {
        forall i {:trigger Linked(t', i)} | Linked(t', i) && i != t'.root
          ensures Rank(t)[t'.nodes[i].parent.value] < Rank(t)[i]
        {
          assert Linked(t, i);
        }
      }
    }
  }

  lemma RemoveKeepsParents(t: Tree, d: Ino, name: string, c: Ino)
    requires Shape(t) && Entry(name, c) in Entries(t, d)
    ensures ParentsOk(RemoveName(t, d, name))
  {
    var t' := RemoveName(t, d, name);
    RemoveEffect(t, d, name, c);
    forall i {:trigger Linked(t', i)} | Linked(t', i) && i != t'.root
      ensures IsDir(t', t'.nodes[i].parent.value) && HasChild(Entries(t', t'.nodes[i].parent.value), i)
    {
      assert Linked(t, i) && i != c;
      var p := t.nodes[i].parent.value;
      var n :| Entry(n, i) in Entries(t, p);
      if p == d && n == name {
        SameName(Entries(t, d), name, c, i);
      }
      assert Entry(n, i) in Entries(t', p);
      assert IsDir(t', p);
    }
  }

  lemma SameName(es: seq<Entry>, name: string, c: Ino, c': Ino)
    requires Distinct(es) && Entry(name, c) in es && Entry(name, c') in es
    ensures c == c'
  {
  }

  lemma RemoveKeepsRest(t: Tree, d: Ino, name: string, c: Ino)
    requires Shape(t) && Entry(name, c) in Entries(t, d) && Entries(t, c) == []
    ensures var t' := RemoveName(t, d, name);
      RootOk(t') && ChildrenOk(t') && DistinctOk(t') && DetachedOk(t') && FreshOk(t')
  {
    var t' := RemoveName(t, d, name);
    RemoveEffect(t, d, name, c);
    assert ChildrenOk(t') by {
      forall x, e {:trigger e in Entries(t', x)} | e in Entries(t', x)
        ensures e.child in t'.nodes && e.child != t'.root && t'.nodes[e.child].parent == Some(x)
      {
        assert e in Entries(t, x);
        if e.child == c {
          OnePlace(t, x, e.name, d, name, c);
        }
      }
    }
    forall x ensures Distinct(Entries(t', x)) {
      assert x != d ==> Entries(t', x) == Entries(t, x);
      assert Distinct(Entries(t, x));
    }
    forall x | x in t'.nodes && t'.nodes[x].parent.None? ensures Entries(t', x) == [] {
      assert x != d by {
        assert Entries(t, d) != [] && Linked(t, d);
        assert d != c;
      }
      assert Entries(t', x) == Entries(t, x);
      assert x != c ==> t.nodes[x].parent.None?;
    }
  }

  // ---------- moving a file ----------

  /** The file a move onto (d, name) overwrites: what is there, unless it is the moved file itself. */
  function Overwritten(t: Tree, d: Ino, name: string, m: Ino): Option<Ino> {
    match FindName(Entries(t, d), name)
    case Some(o) => if o == m then None else Some(o)
    case None => None
  }

  ghost predicate Movable(t: Tree, d: Ino, m: Ino) {
    Shape(t) && Linked(t, m) && m != t.root && IsDir(t, d) && Linked(t, d)
  }

  /** The tree halfway through a move: the moved file has left its old directory but nothing else changed. */
  function Lifted(t: Tree, m: Ino): Tree
    requires Linked(t, m) && t.nodes[m].parent.value in t.nodes
  {
    SetEntries(t, t.nodes[m].parent.value, EraseChild(Entries(t, t.nodes[m].parent.value), m))
  }

  predicate SameKind(a: Body, b: Body) {
    (a.Dir? <==> b.Dir?) && (a.Link? <==> b.Link?)
  }

  lemma LiftedEffect(t: Tree, d: Ino, m: Ino)
    requires Movable(t, d, m)
    ensures var t1 := Lifted(t, m);
      && t1.nodes.Keys == t.nodes.Keys
      && DistinctOk(t1)
      && (forall i | i in t.nodes ::
            t1.nodes[i].parent == t.nodes[i].parent && SameKind(t.nodes[i].body, t1.nodes[i].body))
      && (forall x, e {:trigger e in Entries(t1, x)} :: e in Entries(t1, x) <==> e in Entries(t, x) && e.child != m)
  {
    var t1 := Lifted(t, m);
    var p := t.nodes[m].parent.value;
    assert Distinct(Entries(t, p));
    EraseChildKeeps(Entries(t, p), m);
    assert Entries(t1, p) == EraseChild(Entries(t, p), m);
    forall x ensures Distinct(Entries(t1, x)) {
      assert Distinct(Entries(t, x));
      assert x != p ==> Entries(t1, x) == Entries(t, x);
    }
    forall x, e {:trigger e in Entries(t1, x)}
      ensures e in Entries(t1, x) <==> e in Entries(t, x) && e.child != m
    {
      if x != p {
        assert Entries(t1, x) == Entries(t, x);
      }
    }
  }

  /** After the lift, what sits at (d, name) is exactly the file the move overwrites. */
  lemma LiftedOverwritten(t: Tree, d: Ino, name: string, m: Ino)
    requires Movable(t, d, m)
    ensures FindName(Entries(Lifted(t, m), d), name) == Overwritten(t, d, name, m)
  {
    var t1 := Lifted(t, m);
    LiftedEffect(t, d, m);
    assert Distinct(Entries(t, d)) && Distinct(Entries(t1, d));
    FindNameIsMembership(Entries(t, d), name);
    FindNameIsMembership(Entries(t1, d), name);
    if FindName(Entries(t, d), name).Some? && FindName(Entries(t, d), name).value != m {
      assert Entry(name, FindName(Entries(t, d), name).value) in Entries(t1, d);
    }
  }

  /** A move changes the pairs (directory, name) in exactly two places: the old one goes, the new one holds m. */
  lemma MoveEffect(t: Tree, d: Ino, name: string, m: Ino)
    requires Movable(t, d, m)
    ensures var t' := Move(t, d, name, m); var o := Overwritten(t, d, name, m);
      && t'.root == t.root && t'.next == t.next && t'.nodes.Keys == t.nodes.Keys
      && DistinctOk(t')
      && (forall x, e {:trigger e in Entries(t', x)} :: e in Entries(t', x) <==>
            (x == d && e == Entry(name, m)) || (e in Entries(t, x) && e.child != m && !(x == d && e.name == name)))
      && (forall i | i in t.nodes :: t'.nodes[i].parent ==
            if i == m then Some(d) else if o == Some(i) then None else t.nodes[i].parent)
      && (forall i | i in t.nodes :: SameKind(t.nodes[i].body, t'.nodes[i].body))
  {
    var t' := Move(t, d, name, m);
    var es := Entries(Lifted(t, m), d);
    LiftedEffect(t, d, m);
    LiftedOverwritten(t, d, name, m);
    OverwrittenIsAnotherChild(t, d, name, m);
    MoveNodes(t, d, name, m, Overwritten(t, d, name, m));
    assert Distinct(es);
    DistinctAfterErase(es, name, m);
    EraseNameKeeps(es, name);
    forall x ensures Distinct(Entries(t', x)) {
      assert Distinct(Entries(Lifted(t, m), x));
    }
  }

  /** The node-by-node form of `MoveEffect`. */
  lemma MoveNodes(t: Tree, d: Ino, name: string, m: Ino, o: Option<Ino>)
    requires Linked(t, m) && IsDir(t, t.nodes[m].parent.value) && IsDir(t, d)
    requires o == FindName(Entries(Lifted(t, m), d), name)
    requires o.Some? ==> o.value in t.nodes && o.value != d && o.value != m
    ensures var t' := Move(t, d, name, m); var t1 := Lifted(t, m);
      && t'.root == t.root && t'.next == t.next && t'.nodes.Keys == t.nodes.Keys
      && Entries(t', d) == EraseName(Entries(t1, d), name) + [Entry(name, m)]
      && (forall x {:trigger Entries(t', x)} | x != d :: Entries(t', x) == Entries(t1, x))
      && (forall i | i in t.nodes :: t'.nodes[i].parent ==
            if i == m then Some(d) else if o == Some(i) then None else t.nodes[i].parent)
      && (forall i | i in t.nodes :: SameKind(t.nodes[i].body, t'.nodes[i].body))
  {
    var t1 := Lifted(t, m);
    RemoveNodes(t1, d, name);
    var t2 := RemoveName(t1, d, name);
    PlaceNodes(t2, d, name, m);
  }

  lemma PlaceNodes(t: Tree, d: Ino, name: string, m: Ino)
    requires m in t.nodes && IsDir(t, d)
    ensures var t' := SetParent(SetEntries(t, d, Entries(t, d) + [Entry(name, m)]), m, Some(d));
      && t'.nodes.Keys == t.nodes.Keys
      && Entries(t', d) == Entries(t, d) + [Entry(name, m)]
      && (forall x {:trigger Entries(t', x)} | x != d :: Entries(t', x) == Entries(t, x))
      && (forall i | i in t.nodes :: t'.nodes[i].parent == if i == m then Some(d) else t.nodes[i].parent)
      && (forall i | i in t.nodes :: SameKind(t.nodes[i].body, t'.nodes[i].body))
  {
  }

  lemma OverwrittenIsAnotherChild(t: Tree, d: Ino, name: string, m: Ino)
    requires Movable(t, d, m)
    ensures var o := Overwritten(t, d, name, m);
      o.Some? ==> o.value in t.nodes && o.value != d && o.value != m && Entry(name, o.value) in Entries(t, d)
  {
    assert Distinct(Entries(t, d));
    FindNameIsMembership(Entries(t, d), name);
    var o := Overwritten(t, d, name, m);
    if o.Some? {
      assert Entry(name, o.value) in Entries(t, d);
      if o.value == d { OnlyRootIsItsOwnParent(t, d); }
    }
  }

  lemma RemoveNodes(t: Tree, d: Ino, name: string)
    requires IsDir(t, d)
    requires FindName(Entries(t, d), name).Some? ==>
      FindName(Entries(t, d), name).value in t.nodes && FindName(Entries(t, d), name).value != d
    ensures var t' := RemoveName(t, d, name); var o := FindName(Entries(t, d), name);
      && t'.root == t.root && t'.next == t.next && t'.nodes.Keys == t.nodes.Keys
      && Entries(t', d) == EraseName(Entries(t, d), name)
      && (forall x {:trigger Entries(t', x)} | x != d :: Entries(t', x) == Entries(t, x))
      && (forall i | i in t.nodes :: t'.nodes[i].parent == if o == Some(i) then None else t.nodes[i].parent)
      && (forall i | i in t.nodes :: SameKind(t.nodes[i].body, t'.nodes[i].body))
  {
    if FindName(Entries(t, d), name).None? {
      EraseNothing(Entries(t, d), name);
    }
  }

  lemma {:induction false} EraseNothing(es: seq<Entry>, name: string)
    requires FindName(es, name).None?
    ensures EraseName(es, name) == es
  {
    if es != [] {
      EraseNothing(es[1..], name);
    }
  }

  lemma DistinctAfterErase(es: seq<Entry>, name: string, m: Ino)
    requires Distinct(es)
    requires forall e | e in es :: e.child != m
    ensures Distinct(EraseName(es, name) + [Entry(name, m)])
  {
    EraseNameKeeps(es, name);
    FindNameIsMembership(EraseName(es, name), name);
    DistinctSnoc(EraseName(es, name), name, m);
  }

  /** Nothing of what the move overwrites survives below it. */
  ghost predicate OverwritesNothingBelow(t: Tree, d: Ino, name: string, m: Ino) {
    var o := Overwritten(t, d, name, m);
    o.Some? ==> forall e | e in Entries(t, o.value) :: e.child == m
  }

  lemma MoveKeepsParents(t: Tree, d: Ino, name: string, m: Ino)
    requires Movable(t, d, m)
    ensures ParentsOk(Move(t, d, name, m))
  {
    var t' := Move(t, d, name, m);
    MoveEffect(t, d, name, m);
    forall i {:trigger Linked(t', i)} | Linked(t', i) && i != t'.root
      ensures IsDir(t', t'.nodes[i].parent.value) && HasChild(Entries(t', t'.nodes[i].parent.value), i)
    {
      if i == m {
        assert Entry(name, m) in Entries(t', d);
      } else {
        assert Linked(t, i);
        var p := t.nodes[i].parent.value;
        var n :| Entry(n, i) in Entries(t, p);
        if p == d && n == name {
          FoundIsOverwritten(t, d, name, m, i);
        }
        assert Entry(n, i) in Entries(t', p);
      }
    }
  }

  lemma FoundIsOverwritten(t: Tree, d: Ino, name: string, m: Ino, i: Ino)
    requires DistinctOk(t) && Entry(name, i) in Entries(t, d) && i != m
    ensures Overwritten(t, d, name, m) == Some(i)
  {
    assert Distinct(Entries(t, d));
    FindNameIsMembership(Entries(t, d), name);
  }

  lemma MoveKeepsChildren(t: Tree, d: Ino, name: string, m: Ino)
    requires Movable(t, d, m)
    ensures ChildrenOk(Move(t, d, name, m))
  {
    var t' := Move(t, d, name, m);
    MoveEffect(t, d, name, m);
    OverwrittenIsAnotherChild(t, d, name, m);
    forall x, e {:trigger e in Entries(t', x)} | e in Entries(t', x)
      ensures e.child in t'.nodes && e.child != t'.root && t'.nodes[e.child].parent == Some(x)
    {
      if !(x == d && e == Entry(name, m)) {
        assert e in Entries(t, x) && e.child != m;
        if Overwritten(t, d, name, m) == Some(e.child) {
          OnePlace(t, x, e.name, d, name, e.child);
        }
      }
    }
  }

  /** A detached directory of the moved tree is empty exactly when the overwritten file had nothing else below it. */
  lemma MoveKeepsDetached(t: Tree, d: Ino, name: string, m: Ino)
    requires Movable(t, d, m)
    ensures DetachedOk(Move(t, d, name, m)) <==> OverwritesNothingBelow(t, d, name, m)
  {
    var t' := Move(t, d, name, m);
    var o := Overwritten(t, d, name, m);
    MoveEffect(t, d, name, m);
    OverwrittenIsAnotherChild(t, d, name, m);
    if DetachedOk(t') && o.Some? {
      assert Entries(t', o.value) == [];
      forall e | e in Entries(t, o.value) ensures e.child == m {
        assert e !in Entries(t', o.value);
      }
    }
    if OverwritesNothingBelow(t, d, name, m) {
      forall x, e | e in Entries(t', x) ensures Linked(t', x) {
        if x != d {
          assert e in Entries(t, x) && e.child != m;
          assert Linked(t, x);
        }
      }
      forall x | x in t'.nodes && t'.nodes[x].parent.None? ensures Entries(t', x) == [] {
        FirstIsMember(Entries(t', x));
      }
    }
  }

  lemma FirstIsMember(es: seq<Entry>)
    ensures es != [] ==> es[0] in es
  {
  }

  /** The moved tree's ranks: the subtree of m is lifted above its new parent. */
  lemma MoveOutsideIsGrounded(t: Tree, d: Ino, name: string, m: Ino)
    requires Movable(t, d, m) && !Above(t, m, d)
    ensures Grounded(Move(t, d, name, m))
  {
    var t' := Move(t, d, name, m);
    MoveEffect(t, d, name, m);
    var r' := LiftedRank(t, d, m);
    assert Ranks(t', r') by {
      forall i {:trigger Linked(t', i)} | Linked(t', i) && i != t'.root
        ensures t'.nodes[i].parent.value in r' && r'[t'.nodes[i].parent.value] < r'[i]
      {
        if i != m {
          assert Linked(t, i) && t'.nodes[i].parent == t.nodes[i].parent;
          LiftedRankStep(t, d, m, i);
        }
      }
    }
  }

  ghost function LiftedRank(t: Tree, d: Ino, m: Ino): map<Ino, nat>
    requires Grounded(t) && d in t.nodes
  {
    map x | x in t.nodes :: if Above(t, m, x) then Rank(t)[x] + Rank(t)[d] + 1 else Rank(t)[x]
  }

  lemma LiftedRankStep(t: Tree, d: Ino, m: Ino, i: Ino)
    requires Movable(t, d, m) && Linked(t, i) && i != m && i != t.root
    ensures t.nodes[i].parent.value in t.nodes
    ensures LiftedRank(t, d, m)[t.nodes[i].parent.value] < LiftedRank(t, d, m)[i]
  {
    ParentIsLinked(t, i);
    assert Above(t, m, i) == Above(t, m, t.nodes[i].parent.value);
  }

  /** Without the ancestor check a directory could be moved below itself, and then no root would be reached. */
  lemma MoveInsideIsCyclic(t: Tree, d: Ino, name: string, m: Ino)
    requires Movable(t, d, m) && Above(t, m, d)
    ensures !Grounded(Move(t, d, name, m))
  {
    var t' := Move(t, d, name, m);
    MoveEffect(t, d, name, m);
    assert Linked(t', m) && t'.nodes[m].parent == Some(d);
    if Grounded(t') {
      OverwrittenIsAnotherChild(t, d, name, m);
      ChainSurvives(t, d, name, m, d);
    }
  }

  /** Below m the parents stay what they were, so m still ranks no higher than anything it was above. */
  lemma {:induction false} ChainSurvives(t: Tree, d: Ino, name: string, m: Ino, x: Ino)
    requires Movable(t, d, m) && Above(t, m, x) && x in t.nodes && Rank(t)[x] <= Rank(t)[d]
    requires Grounded(Move(t, d, name, m)) && Linked(t, x)
    ensures m in Rank(Move(t, d, name, m)) && x in Rank(Move(t, d, name, m))
    ensures Rank(Move(t, d, name, m))[m] <= Rank(Move(t, d, name, m))[x]
    decreases Rank(t)[x]
  {
    var t' := Move(t, d, name, m);
    MoveEffect(t, d, name, m);
    OverwrittenIsAnotherChild(t, d, name, m);
    if x != m {
      var p := t.nodes[x].parent.value;
      ParentIsLinked(t, x);
      ChainSurvives(t, d, name, m, p);
      assert Overwritten(t, d, name, m) == Some(x) ==> p == d;
      assert Linked(t', x);
    }
  }

  /**
   A move keeps the shape of the tree exactly when the new directory is not inside the moved file and the overwritten
   file has nothing else below it: the ancestor walk and the emptiness check of rename are each necessary, and
   together sufficient.
   */
  lemma MoveKeepsShape(t: Tree, d: Ino, name: string, m: Ino)
    requires Movable(t, d, m)
    ensures Shape(Move(t, d, name, m)) <==> !Above(t, m, d) && OverwritesNothingBelow(t, d, name, m)
  {
    MoveEffect(t, d, name, m);
    MoveKeepsDetached(t, d, name, m);
    if Above(t, m, d) {
      MoveInsideIsCyclic(t, d, name, m);
    } else {
      MoveOutsideIsGrounded(t, d, name, m);
      MoveKeepsParents(t, d, name, m);
      MoveKeepsChildren(t, d, name, m);
      MoveKeepsRoot(t, d, name, m);
    }
  }

  lemma MoveKeepsRoot(t: Tree, d: Ino, name: string, m: Ino)
    requires Movable(t, d, m)
    ensures RootOk(Move(t, d, name, m)) && FreshOk(Move(t, d, name, m))
  {
    MoveEffect(t, d, name, m);
    OverwrittenIsAnotherChild(t, d, name, m);
  }
}
