/**
 What the counter of expanded links does to a resolution: it only adds up, until it passes the limit. `doOpen` follows
 the leaf with a counter that starts again at zero, so it accepts paths that resolution as a whole refuses.
 */
module LinkCounts {
  import opened Common
  import opened Paths
  import opened Trees
  import opened Resolve
  import opened Syscalls

  /** `s` is `r` with `k` more links counted before it: the same result, or ELOOP if that is too many. */
  ghost predicate Shifted<T>(r: Parsed<T>, s: Parsed<T>, k: nat) {
    if r.res != Err(ELOOP) && r.links + k <= MAX_RECURSIONS then s == Parsed(r.res, r.links + k)
    else s.res == Err(ELOOP)
  }

  lemma {:induction false} ChildShifts(t: Tree, dir: Ino, name: string, b: LinkBehavior, n: nat, k: nat)
    requires n + k <= MAX_RECURSIONS
    ensures Shifted(GetChild(t, dir, name, b, n), GetChild(t, dir, name, b, n + k), k)
    decreases MAX_RECURSIONS - n, 1, 0
  {
    match Lookup(t, dir, name)
    case None =>
    case Some(child) =>
      if b == FollowLinks {
        ExpansionShifts(t, dir, child, n, k);
      }
  }

  lemma {:induction false} ExpansionShifts(t: Tree, dir: Ino, child: Ino, n: nat, k: nat)
    requires n + k <= MAX_RECURSIONS
    ensures Shifted(Expand(t, dir, child, n), Expand(t, dir, child, n + k), k)
    decreases MAX_RECURSIONS - n, 0, 0
  {
    if IsLink(t, child) && t.nodes[child].body.target != "" && n < MAX_RECURSIONS {
      LinkLoopTurnsOnce(t, dir, child, n);
      if n + 1 + k <= MAX_RECURSIONS {
        LinkLoopTurnsOnce(t, dir, child, n + k);
        PathShifts(t, t.nodes[child].body.target, dir, FollowLinks, n + 1, k);
      }
    }
  }

  lemma {:induction false} DescentShifts(t: Tree, names: seq<string>, curr: Ino, n: nat, k: nat)
    requires n + k <= MAX_RECURSIONS && names != []
    ensures Shifted(Descend(t, names, curr, n), Descend(t, names, curr, n + k), k)
    decreases MAX_RECURSIONS - n, 2, |names|
  {
    if |names| > 1 {
      ChildShifts(t, curr, names[0], FollowLinks, n, k);
      var child := GetChild(t, curr, names[0], FollowLinks, n);
      if child.res.Ok? && IsDir(t, child.res.value) && child.links + k <= MAX_RECURSIONS {
        DescentShifts(t, names[1..], child.res.value, child.links, k);
      }
    }
  }

  /** A resolution that starts with `k` links counted gives what it gives from a lower count, or ELOOP. */
  lemma {:induction false} PathShifts(t: Tree, path: string, base: Ino, b: LinkBehavior, n: nat, k: nat)
    requires n + k <= MAX_RECURSIONS
    ensures Shifted(ParseFile(t, path, base, b, n), ParseFile(t, path, base, b, n + k), k)
    decreases MAX_RECURSIONS - n, 4, 0
  {
    if path != "" && Components(path) != [] {
      DescentShifts(t, Components(path), StartDir(t, path, base), n, k);
    }
    var parent := ParseParent(t, path, base, n);
    if parent.res.Ok? && parent.links + k <= MAX_RECURSIONS {
      ChildShifts(t, parent.res.value.parent, parent.res.value.name, b, parent.links, k);
    }
  }

  // ---------- open ----------

  /** What open would do with the file that resolution as a whole gives. */
  function OpenParsed(t: Tree, r: Result<Ino>, flags: OpenFlags): Outcome {
    match r
    case Err(e) => Fail(e)
    case Ok(file) => OpenExisting(t, file, flags)
  }

  /**
   The leaf is a link, it is reached and its target resolved within the limit each, but together with the leaf itself
   they exceed it.
   */
  predicate OnlyTogetherTooMany(t: Tree, base: Ino, path: string) {
    var at := ParseParent(t, path, base, 0);
    && at.res.Ok?
    && var leaf := Lookup(t, at.res.value.parent, at.res.value.name);
       && leaf.Some? && IsLink(t, leaf.value)
       && var target := ParseFile(t, t.nodes[leaf.value].body.target, at.res.value.parent, FollowLinks, 0);
          target.res != Err(ELOOP) && at.links + 1 + target.links > MAX_RECURSIONS
  }

  /**
   For a leaf that open does not create, open agrees with resolution as a whole if and only if it is not so that the
   counts exceed the limit only together. Then resolution says ELOOP and open does not.
   */
  lemma OpenAgreesWithParse(t: Tree, base: Ino, path: string, flags: OpenFlags, r: bool, w: bool, wantFd: bool)
    requires RootOk(t) && IsDir(t, base) && flags.access != BadMode && !flags.noFollow && !flags.create
    requires ParseAt(t, base, path).Ok? ==> |ParseAt(t, base, path).value.name| <= MAX_NAME
    ensures !OnlyTogetherTooMany(t, base, path) <==>
      Open(t, base, path, flags, r, w, wantFd) ==
        (t, OpenParsed(t, ParseFileAt(t, base, path, FollowLinks), flags))
    ensures OnlyTogetherTooMany(t, base, path) ==>
      && ParseFileAt(t, base, path, FollowLinks) == Err(ELOOP)
      && Open(t, base, path, flags, r, w, wantFd).1 != Fail(ELOOP)
  {
    var at := ParseParent(t, path, base, 0);
    if at.res.Ok? {
      LeafAgrees(t, at.res.value.parent, at.res.value.name, at.links);
    }
  }

  /** The same for the leaf, which `n` expansions led to. */
  lemma LeafAgrees(t: Tree, parent: Ino, name: string, n: nat)
    requires n <= MAX_RECURSIONS
    ensures var leaf := Lookup(t, parent, name); var whole := GetChild(t, parent, name, FollowLinks, n).res;
      match leaf
      case None => whole == Err(ENOENT)
      case Some(child) =>
        if !IsLink(t, child) then whole == Ok(child)
        else
          var target := ParseFile(t, t.nodes[child].body.target, parent, FollowLinks, 0);
          whole == if n + 1 + target.links > MAX_RECURSIONS then Err(ELOOP) else target.res
  {
    var leaf := Lookup(t, parent, name);
    if leaf.Some? && IsLink(t, leaf.value) {
      var target := t.nodes[leaf.value].body.target;
      if n == MAX_RECURSIONS {
        assert Expand(t, parent, leaf.value, n).res == Err(ELOOP);
      } else if target == "" {
        assert ParseFile(t, target, parent, FollowLinks, 0) == Parsed(Err(ENOENT), 0);
        assert Expand(t, parent, leaf.value, n) == Parsed(Err(ENOENT), n + 1);
      } else {
        LinkLoopTurnsOnce(t, parent, leaf.value, n);
        PathShifts(t, target, parent, FollowLinks, 0, n + 1);
      }
    } else if leaf.Some? {
      assert Expand(t, parent, leaf.value, n) == Parsed(Ok(leaf.value), n);
    }
  }

  // ---------- an input ----------

  /** A root directory in which "s" is a link to ".". */
  ghost predicate HasSelfLink(t: Tree) {
    && RootOk(t) && Linked(t, t.root) && CanRead(t, t.root)
    && var s := FindName(Entries(t, t.root), "s");
       s.Some? && IsLink(t, s.value) && t.nodes[s.value].body.target == "."
  }

  function Repeated(k: nat): (names: seq<string>)
    ensures |names| == k && forall j | 0 <= j < k :: names[j] == "s"
  {
    seq(k, _ => "s")
  }

  /** Each "s" costs one link and leads back to the root. */
  lemma SelfLink(t: Tree, n: nat)
    requires HasSelfLink(t) && n < MAX_RECURSIONS
    ensures GetChild(t, t.root, "s", FollowLinks, n) == Parsed(Ok(t.root), n + 1)
    ensures ParseFile(t, ".", t.root, FollowLinks, n) == Parsed(Ok(t.root), n)
  {
    var s := Lookup(t, t.root, "s").value;
    ComponentsOfComponent(".");
    assert ParseParent(t, ".", t.root, n) == Parsed(Ok(ParentChild(t.root, ".")), n);
    assert Lookup(t, t.root, ".") == Some(t.root) && Expand(t, t.root, t.root, n) == Parsed(Ok(t.root), n);
    LinkLoopTurnsOnce(t, t.root, s, n);
    assert Expand(t, t.root, t.root, n + 1) == Parsed(Ok(t.root), n + 1);
    assert ParseParent(t, ".", t.root, n + 1) == Parsed(Ok(ParentChild(t.root, ".")), n + 1);
  }

  lemma {:induction false} SelfLinks(t: Tree, k: nat, n: nat)
    requires HasSelfLink(t) && k > 0 && n + k <= MAX_RECURSIONS + 1
    ensures n + k - 1 <= MAX_RECURSIONS
    ensures Descend(t, Repeated(k), t.root, n) == Parsed(Ok(ParentChild(t.root, "s")), n + k - 1)
    decreases k
  {
    if k > 1 {
      SelfLink(t, n);
      assert Repeated(k)[1..] == Repeated(k - 1);
      SelfLinks(t, k - 1, n + 1);
    }
  }

  function JustRead(): OpenFlags {
    OpenFlags(ReadOnly, false, false, false, false, false)
  }

  /** The path "/s/s/.../s" with 41 components: open returns a descriptor, resolution as a whole ELOOP. */
  lemma OpenGoesFurther(t: Tree)
    requires HasSelfLink(t)
    ensures var path := Render(Repeated(MAX_RECURSIONS + 1));
      && Open(t, t.root, path, JustRead(), true, true, true) == (t, Opened(t.root, false))
      && ParseFileAt(t, t.root, path, FollowLinks) == Err(ELOOP)
  {
    var names := Repeated(MAX_RECURSIONS + 1);
    ComponentsOfRender(names);
    SelfLinks(t, MAX_RECURSIONS + 1, 0);
    SelfLink(t, 0);
  }
}
