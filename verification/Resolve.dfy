/**
 Path resolution as wasmfs/paths.cpp performs it: nested calls that share one counter of expanded symbolic links.
 The string scan of `doParseParent` appears here as a fold over the components of the path.
 */
module Resolve {
  import opened Common
  import opened Paths
  import opened Trees

  const MAX_RECURSIONS: nat := 40

  datatype LinkBehavior = FollowLinks | NoFollowLinks

  /** A result together with the shared counter after the call. */
  datatype Parsed<+T> = Parsed(res: Result<T>, links: nat)

  datatype ParentChild = ParentChild(parent: Ino, name: string)

  /** Where a path starts: the root for an absolute path, else the given directory. */
  function StartDir(t: Tree, path: string, base: Ino): Ino {
    if path != "" && path[0] == '/' then t.root else base
  }

  function GetChild(t: Tree, dir: Ino, name: string, behavior: LinkBehavior, n: nat): (r: Parsed<Ino>)
    requires n <= MAX_RECURSIONS
    ensures n <= r.links && (r.res.Ok? ==> r.links <= MAX_RECURSIONS)
    ensures behavior == FollowLinks && r.res.Ok? ==> !IsLink(t, r.res.value)
    ensures r.res == Err(ELOOP) <==> r.links > MAX_RECURSIONS
    decreases MAX_RECURSIONS - n, 1, 0
  {
    match Lookup(t, dir, name)
    case None => Parsed(Err(ENOENT), n)
    case Some(child) =>
      if behavior == NoFollowLinks then Parsed(Ok(child), n) else Expand(t, dir, child, n)
  }

  /** The `while` loop of `getChild`: expand links until the child is not one. */
  function Expand(t: Tree, dir: Ino, child: Ino, n: nat): (r: Parsed<Ino>)
    requires n <= MAX_RECURSIONS
    ensures n <= r.links && (r.res.Ok? ==> r.links <= MAX_RECURSIONS && !IsLink(t, r.res.value))
    ensures r.res == Err(ELOOP) <==> r.links > MAX_RECURSIONS
    decreases MAX_RECURSIONS - n, 0, 0
  {
    if !IsLink(t, child) then Parsed(Ok(child), n)
    else if n + 1 > MAX_RECURSIONS then Parsed(Err(ELOOP), n + 1)
    else if t.nodes[child].body.target == "" then Parsed(Err(ENOENT), n + 1)
    else
      var parsed := ParseFile(t, t.nodes[child].body.target, dir, FollowLinks, n + 1);
      if parsed.res.Err? then parsed else Expand(t, dir, parsed.res.value, parsed.links)
  }

  /** Descend through all components but the last. */
  function Descend(t: Tree, names: seq<string>, curr: Ino, n: nat): (r: Parsed<ParentChild>)
    requires n <= MAX_RECURSIONS && names != []
    ensures n <= r.links && (r.res.Ok? ==> r.links <= MAX_RECURSIONS)
    ensures r.res.Ok? ==> r.res.value.name == names[|names| - 1]
    ensures IsDir(t, curr) && r.res.Ok? ==> IsDir(t, r.res.value.parent)
    ensures r.res == Err(ELOOP) <==> r.links > MAX_RECURSIONS
    decreases MAX_RECURSIONS - n, 2, |names|
  {
    if |names| == 1 then Parsed(Ok(ParentChild(curr, names[0])), n)
    else
      var child := GetChild(t, curr, names[0], FollowLinks, n);
      if child.res.Err? then Parsed(Err(child.res.error), child.links)
      else if !IsDir(t, child.res.value) then Parsed(Err(ENOTDIR), child.links)
      else Descend(t, names[1..], child.res.value, child.links)
  }

  /** `doParseParent`. A path that is only slashes stands for (root, "."). */
  function ParseParent(t: Tree, path: string, base: Ino, n: nat): (r: Parsed<ParentChild>)
    requires n <= MAX_RECURSIONS
    ensures n <= r.links && (r.res.Ok? ==> r.links <= MAX_RECURSIONS)
    ensures r.res == Err(ELOOP) <==> r.links > MAX_RECURSIONS
    ensures IsDir(t, t.root) && IsDir(t, base) && r.res.Ok? ==> IsDir(t, r.res.value.parent)
    decreases MAX_RECURSIONS - n, 3, 0
  {
    if path == "" then Parsed(Err(ENOENT), n)
    else if Components(path) == [] then Parsed(Ok(ParentChild(StartDir(t, path, base), ".")), n)
    else Descend(t, Components(path), StartDir(t, path, base), n)
  }

  /** `doParseFile`. */
  function ParseFile(t: Tree, path: string, base: Ino, behavior: LinkBehavior, n: nat): (r: Parsed<Ino>)
    requires n <= MAX_RECURSIONS
    ensures n <= r.links && (r.res.Ok? ==> r.links <= MAX_RECURSIONS)
    ensures behavior == FollowLinks && r.res.Ok? ==> !IsLink(t, r.res.value)
    ensures r.res == Err(ELOOP) <==> r.links > MAX_RECURSIONS
    decreases MAX_RECURSIONS - n, 4, 0
  {
    var parsed := ParseParent(t, path, base, n);
    if parsed.res.Err? then Parsed(Err(parsed.res.error), parsed.links)
    else GetChild(t, parsed.res.value.parent, parsed.res.value.name, behavior, parsed.links)
  }

  /** The leaf a path names is never empty and has no '/'. */
  lemma LeafIsComponent(t: Tree, path: string, base: Ino, n: nat)
    requires n <= MAX_RECURSIONS && ParseParent(t, path, base, n).res.Ok?
    ensures IsComponent(ParseParent(t, path, base, n).res.value.name)
  {
    ComponentsAreComponents(path);
  }

  /** One turn of the link loop is enough: a followed path never ends at a link. */
  lemma LinkLoopTurnsOnce(t: Tree, dir: Ino, child: Ino, n: nat)
    requires n < MAX_RECURSIONS && IsLink(t, child) && t.nodes[child].body.target != ""
    ensures Expand(t, dir, child, n) == ParseFile(t, t.nodes[child].body.target, dir, FollowLinks, n + 1)
  {
    var p := ParseFile(t, t.nodes[child].body.target, dir, FollowLinks, n + 1);
    if p.res.Ok? {
      assert Expand(t, dir, p.res.value, p.links) == Parsed(Ok(p.res.value), p.links);
    }
  }

  /** A path of slashes only is the root. */
  lemma SlashesAreRoot(t: Tree, path: string, base: Ino, b: LinkBehavior, n: nat)
    requires RootOk(t) && n <= MAX_RECURSIONS && path != "" && Components(path) == []
    ensures StartDir(t, path, base) == t.root
    ensures ParseParent(t, path, base, n) == Parsed(Ok(ParentChild(t.root, ".")), n)
    ensures ParseFile(t, path, base, b, n) == Parsed(Ok(t.root), n)
  {
    NoComponents(path);
    assert path[0] == '/';
    assert Lookup(t, t.root, ".") == Some(t.root);
    assert Expand(t, t.root, t.root, n) == Parsed(Ok(t.root), n);
  }

  /** In a wired tree a file that is found is in the tree and linked: nothing detached can be reached by a path. */
  lemma LookupIsLinked(t: Tree, dir: Ino, name: string)
    requires Wired(t)
    ensures Lookup(t, dir, name).Some? ==> Linked(t, Lookup(t, dir, name).value)
    ensures Lookup(t, dir, name).Some? ==> Linked(t, dir)
  {
    if Linked(t, dir) {
      assert Distinct(Entries(t, dir));
      FindNameIsMembership(Entries(t, dir), name);
      if name == ".." {
        ParentIsLinked(t, dir);
      } else if FindName(Entries(t, dir), name).Some? {
        assert Entry(name, FindName(Entries(t, dir), name).value) in Entries(t, dir);
      }
    }
  }
}
