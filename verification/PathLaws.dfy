/** Laws of path resolution: it composes at a '/', and what getcwd prints resolves to where getcwd started. */
module PathLaws {
  import opened Common
  import opened Paths
  import opened Trees
  import opened Resolve

  /** Resolve a list of components from a directory, following links in all but the last. */
  function Follow(t: Tree, names: seq<string>, curr: Ino, b: LinkBehavior, n: nat): (r: Parsed<Ino>)
    requires n <= MAX_RECURSIONS && names != []
    ensures r.res.Ok? ==> r.links <= MAX_RECURSIONS
  {
    var d := Descend(t, names, curr, n);
    if d.res.Err? then Parsed(Err(d.res.error), d.links)
    else GetChild(t, d.res.value.parent, d.res.value.name, b, d.links)
  }

  /** What it means to go on with `q` after a first part has been resolved. */
  function Continue(t: Tree, first: Parsed<Ino>, names: seq<string>, b: LinkBehavior): Parsed<Ino>
    requires names != [] && (first.res.Ok? ==> first.links <= MAX_RECURSIONS)
  {
    if first.res.Err? then first
    else if !IsDir(t, first.res.value) then Parsed(Err(ENOTDIR), first.links)
    else Follow(t, names, first.res.value, b, first.links)
  }

  lemma {:induction false} FollowComposes(t: Tree, ns: seq<string>, ms: seq<string>, curr: Ino, b: LinkBehavior, n: nat)
    requires n <= MAX_RECURSIONS && ns != [] && ms != []
    ensures Follow(t, ns + ms, curr, b, n) == Continue(t, Follow(t, ns, curr, FollowLinks, n), ms, b)
    decreases |ns|
  {
    assert (ns + ms)[0] == ns[0];
    assert (ns + ms)[1..] == ns[1..] + ms;
    if |ns| == 1 {
      assert ns[1..] + ms == ms;
    } else {
      var child := GetChild(t, curr, ns[0], FollowLinks, n);
      if child.res.Ok? && IsDir(t, child.res.value) {
        FollowComposes(t, ns[1..], ms, child.res.value, b, child.links);
      }
    }
  }

  /**
   Resolving "p/q" is resolving p, which must be a directory, and then q from there with the link counter carried over.
   */
  lemma ResolutionComposes(t: Tree, p: string, q: string, base: Ino, b: LinkBehavior, n: nat)
    requires RootOk(t) && n <= MAX_RECURSIONS && p != "" && q != "" && q[0] != '/'
    ensures var first := ParseFile(t, p, base, FollowLinks, n);
      ParseFile(t, p + "/" + q, base, b, n) ==
        if first.res.Err? then first
        else if !IsDir(t, first.res.value) then Parsed(Err(ENOTDIR), first.links)
        else ParseFile(t, q, first.res.value, b, first.links)
  {
    ComponentsOfJoin(p, q);
    var start := StartDir(t, p, base);
    assert StartDir(t, p + "/" + q, base) == start;
    if Components(p) == [] {
      SlashesAreRoot(t, p, base, FollowLinks, n);
      assert Components(p) + Components(q) == Components(q);
    } else {
      FollowComposes(t, Components(p), Components(q), start, b, n);
    }
  }

  // ---------- getcwd ----------

  /** The entry names on the way from the root down to `i`. */
  ghost function NamesTo(t: Tree, i: Ino): seq<string>
    requires Shape(t) && Linked(t, i)
    decreases Rank(t)[i]
  {
    if i == t.root then []
    else
      var p := t.nodes[i].parent.value;
      ParentIsLinked(t, i);
      NamesTo(t, p) + [FindChild(Entries(t, p), i)]
  }

  /** The string getcwd builds. */
  ghost function PathTo(t: Tree, i: Ino): string
    requires Shape(t) && Linked(t, i)
  {
    if i == t.root then "/" else Render(NamesTo(t, i))
  }

  /** Names the calls can put into a tree. A move onto the leaf "." is what keeps "." from being excluded here. */
  ghost predicate NameShape(t: Tree) {
    forall d, e {:trigger e in Entries(t, d)} | e in Entries(t, d) ::
      IsComponent(e.name) && e.name != ".." && |e.name| <= MAX_NAME
  }

  lemma EntryOf(t: Tree, i: Ino)
    requires Shape(t) && Linked(t, i) && i != t.root
    ensures var p := t.nodes[i].parent.value;
      Entry(FindChild(Entries(t, p), i), i) in Entries(t, p) && IsDir(t, p) && Linked(t, p)
  {
    var p := t.nodes[i].parent.value;
    assert Distinct(Entries(t, p));
    var n :| Entry(n, i) in Entries(t, p);
    FindChildIsMembership(Entries(t, p), n, i);
  }

  lemma {:induction false} NamesToAreComponents(t: Tree, i: Ino)
    requires Shape(t) && NameShape(t) && Linked(t, i)
    ensures forall c | c in NamesTo(t, i) :: IsComponent(c)
    ensures NamesTo(t, i) == [] <==> i == t.root
    decreases Rank(t)[i]
  {
    if i != t.root {
      EntryOf(t, i);
      NamesToAreComponents(t, t.nodes[i].parent.value);
    }
  }

  lemma {:induction false} NamesLeadBack(t: Tree, i: Ino, b: LinkBehavior)
    requires Shape(t) && NameShape(t) && IsDir(t, i) && Linked(t, i) && i != t.root
    requires "." !in NamesTo(t, i)
    ensures NamesTo(t, i) != []
    ensures Follow(t, NamesTo(t, i), t.root, b, 0) == Parsed(Ok(i), 0)
    decreases Rank(t)[i]
  {
    EntryOf(t, i);
    var p := t.nodes[i].parent.value;
    var name := FindChild(Entries(t, p), i);
    assert Distinct(Entries(t, p));
    FindNameIsMembership(Entries(t, p), name);
    assert name == NamesTo(t, i)[|NamesTo(t, i)| - 1];
    assert Lookup(t, p, name) == Some(i);
    assert Follow(t, [name], p, b, 0) == Parsed(Ok(i), 0) by {
      assert Expand(t, p, i, 0) == Parsed(Ok(i), 0);
    }
    if p == t.root {
      assert NamesTo(t, i) == [name];
    } else {
      NamesLeadBack(t, p, FollowLinks);
      FollowComposes(t, NamesTo(t, p), [name], t.root, b, 0);
    }
  }

  lemma CwdResolvesBack(t: Tree, i: Ino, base: Ino, b: LinkBehavior)
    requires Shape(t) && NameShape(t) && IsDir(t, i) && Linked(t, i)
    requires "." !in NamesTo(t, i)
    ensures ParseFile(t, PathTo(t, i), base, b, 0) == Parsed(Ok(i), 0)
  {
    if i == t.root {
      assert "/"[1..] == "";
      SlashesAreRoot(t, "/", base, b, 0);
    } else {
      NamesToAreComponents(t, i);
      ComponentsOfRender(NamesTo(t, i));
      NamesLeadBack(t, i, b);
    }
  }

  // ---------- an entry called "." hides everything below it ----------

  /** `c` sits under the name ".", which every lookup answers with the directory itself. */
  ghost predicate Hidden(t: Tree, c: Ino) {
    Linked(t, c) && c != t.root && Entry(".", c) in Entries(t, t.nodes[c].parent.value)
  }

  lemma LookupStaysOutside(t: Tree, c: Ino, d: Ino, name: string)
    requires Shape(t) && Hidden(t, c) && !Above(t, c, d) && Lookup(t, d, name).Some?
    ensures !Above(t, c, Lookup(t, d, name).value)
  {
    var x := Lookup(t, d, name).value;
    if name == ".." {
      assert d == t.root ==> x == d;
    } else if name != "." {
      assert Distinct(Entries(t, d));
      FindNameIsMembership(Entries(t, d), name);
      assert Entry(name, x) in Entries(t, d);
      assert x == c ==> t.nodes[c].parent == Some(d);
      if x == c {
        OnePlace(t, d, name, d, ".", c);
      }
    }
  }

  lemma {:induction false} ChildStaysOutside(t: Tree, c: Ino, d: Ino, name: string, b: LinkBehavior, n: nat)
    requires Shape(t) && Hidden(t, c) && !Above(t, c, d) && n <= MAX_RECURSIONS
    ensures var r := GetChild(t, d, name, b, n); r.res.Ok? ==> !Above(t, c, r.res.value)
    decreases MAX_RECURSIONS - n, 0, 0
  {
    if Lookup(t, d, name).Some? {
      LookupStaysOutside(t, c, d, name);
      var child := Lookup(t, d, name).value;
      if b == FollowLinks && IsLink(t, child) && n < MAX_RECURSIONS && t.nodes[child].body.target != "" {
        LinkLoopTurnsOnce(t, d, child, n);
        PathStaysOutside(t, c, t.nodes[child].body.target, d, FollowLinks, n + 1);
      }
    }
  }

  lemma {:induction false} PathStaysOutside(t: Tree, c: Ino, path: string, base: Ino, b: LinkBehavior, n: nat)
    requires Shape(t) && Hidden(t, c) && !Above(t, c, base) && n <= MAX_RECURSIONS
    ensures var r := ParseFile(t, path, base, b, n); r.res.Ok? ==> !Above(t, c, r.res.value)
    decreases MAX_RECURSIONS - n, 2, 0
  {
    assert !Above(t, c, StartDir(t, path, base));
    if path != "" {
      if Components(path) == [] {
        SlashesAreRoot(t, path, base, b, n);
      } else {
        NamesStayOutside(t, c, Components(path), StartDir(t, path, base), b, n);
      }
    }
  }

  lemma {:induction false} NamesStayOutside(t: Tree, c: Ino, names: seq<string>, d: Ino, b: LinkBehavior, n: nat)
    requires Shape(t) && Hidden(t, c) && !Above(t, c, d) && n <= MAX_RECURSIONS && names != []
    ensures var r := Follow(t, names, d, b, n); r.res.Ok? ==> !Above(t, c, r.res.value)
    decreases MAX_RECURSIONS - n, 1, |names|
  {
    if |names| == 1 {
      ChildStaysOutside(t, c, d, names[0], b, n);
    } else {
      ChildStaysOutside(t, c, d, names[0], FollowLinks, n);
      var child := GetChild(t, d, names[0], FollowLinks, n);
      if child.res.Ok? && IsDir(t, child.res.value) {
        NamesStayOutside(t, c, names[1..], child.res.value, b, child.links);
      }
    }
  }

  lemma {:induction false} HiddenAncestor(t: Tree, i: Ino) returns (c: Ino)
    requires Shape(t) && Linked(t, i) && "." in NamesTo(t, i)
    ensures Hidden(t, c) && Above(t, c, i)
    decreases Rank(t)[i]
  {
    EntryOf(t, i);
    var p := t.nodes[i].parent.value;
    if FindChild(Entries(t, p), i) == "." {
      c := i;
    } else {
      c := HiddenAncestor(t, p);
    }
  }

  /**
   What getcwd prints for a linked directory resolves to that directory, with no link expanded, exactly when no name on
   the way to it is ".": below an entry called "." no path from the root leads anywhere.
   */
  lemma CwdRoundTrip(t: Tree, i: Ino, base: Ino, b: LinkBehavior)
    requires Shape(t) && NameShape(t) && IsDir(t, i) && Linked(t, i)
    ensures ParseFile(t, PathTo(t, i), base, b, 0) == Parsed(Ok(i), 0) <==> "." !in NamesTo(t, i)
    ensures NamesOk(t) ==> "." !in NamesTo(t, i)
  {
    if "." in NamesTo(t, i) {
      var c := HiddenAncestor(t, i);
      assert Entry(".", c) in Entries(t, t.nodes[c].parent.value);
      NamesToAreComponents(t, i);
      ComponentsOfRender(NamesTo(t, i));
      PathStaysOutside(t, c, PathTo(t, i), t.root, b, 0);
      assert ParseFile(t, PathTo(t, i), base, b, 0) == ParseFile(t, PathTo(t, i), t.root, b, 0);
    } else {
      CwdResolvesBack(t, i, base, b);
    }
  }
}
