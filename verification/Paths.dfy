/**
 The textual side of path resolution: how a path string, of any length, breaks at "/" into components.
 */
module Paths {

  const MAX_NAME := 255

  /** Where `find_first_of('/')` stops: the first '/', or the length of the string when there is none. */
  function SegmentEnd(path: string): (k: nat)
    ensures k <= |path|
    ensures forall j | 0 <= j < k :: path[j] != '/'
    ensures k < |path| ==> path[k] == '/'
  {
    if path == "" || path[0] == '/' then 0 else 1 + SegmentEnd(path[1..])
  }

  /** The non-empty '/'-separated components of a path, in order. */
  function Components(path: string): seq<string>
    decreases |path|
  {
    if path == "" then []
    else if path[0] == '/' then Components(path[1..])
    else [path[..SegmentEnd(path)]] + Components(path[SegmentEnd(path)..])
  }

  predicate IsComponent(name: string) {
    name != "" && '/' !in name
  }

  /** The names a directory entry may carry: a component, not a dot name, within NAME_MAX. */
  predicate ValidName(name: string) {
    IsComponent(name) && name != "." && name != ".." && |name| <= MAX_NAME
  }

  /** The absolute path that lists `names` from the root down, as getcwd prints it. */
  function Render(names: seq<string>): string {
    if names == [] then "" else "/" + names[0] + Render(names[1..])
  }

  lemma {:induction false} ComponentsAreComponents(path: string)
    ensures forall c | c in Components(path) :: IsComponent(c)
    decreases |path|
  {
    if path == "" {
    } else if path[0] == '/' {
      ComponentsAreComponents(path[1..]);
    } else {
      ComponentsAreComponents(path[SegmentEnd(path)..]);
    }
  }

  /** Breaking a path at any '/' breaks its component list. */
  lemma {:induction false} ComponentsConcat(p: string, q: string)
    requires q == "" || q[0] == '/'
    ensures Components(p + q) == Components(p) + Components(q)
    decreases |p|
  {
    if p == "" {
      assert p + q == q;
    } else if p[0] == '/' {
      assert (p + q)[1..] == p[1..] + q;
      ComponentsConcat(p[1..], q);
    } else {
      var k := SegmentEnd(p);
      SegmentEndConcat(p, q);
      assert (p + q)[..k] == p[..k];
      assert (p + q)[k..] == p[k..] + q;
      ComponentsConcat(p[k..], q);
    }
  }

  lemma {:induction false} SegmentEndConcat(p: string, q: string)
    requires q == "" || q[0] == '/'
    ensures SegmentEnd(p + q) == SegmentEnd(p)
  {
    if p == "" {
      assert p + q == q;
    } else if p[0] != '/' {
      assert (p + q)[1..] == p[1..] + q;
      SegmentEndConcat(p[1..], q);
    }
  }

  lemma {:induction false} SegmentEndIsUnique(path: string, k: nat)
    requires k <= |path|
    requires forall j | 0 <= j < k :: path[j] != '/'
    requires k < |path| ==> path[k] == '/'
    ensures SegmentEnd(path) == k
  {
    if path == "" || path[0] == '/' {
    } else {
      SegmentEndIsUnique(path[1..], k - 1);
    }
  }

  /** A trailing '/' adds no component, which is why trimming it is harmless. */
  lemma ComponentsIgnoreTrailingSlash(p: string)
    ensures Components(p + "/") == Components(p)
  {
    ComponentsConcat(p, "/");
    assert "/"[1..] == "";
  }

  /** A component read as a path is itself. */
  lemma ComponentsOfComponent(name: string)
    requires IsComponent(name)
    ensures Components(name) == [name]
  {
    SegmentEndIsUnique(name, |name|);
    assert name[..|name|] == name && name[|name|..] == "";
  }

  /** Printing a list of components as a path and splitting it again gives the list back. */
  lemma {:induction false} ComponentsOfRender(names: seq<string>)
    requires forall c | c in names :: IsComponent(c)
    ensures Components(Render(names)) == names
    ensures Render(names) != "" ==> Render(names)[0] == '/'
    ensures (Render(names) == "") == (names == [])
  {
    if names == [] {
    } else {
      ComponentsOfRender(names[1..]);
      ComponentsOfCons(names[0], Render(names[1..]));
      assert [names[0]] + names[1..] == names;
    }
  }

  lemma ComponentsOfCons(name: string, tail: string)
    requires IsComponent(name) && (tail == "" || tail[0] == '/')
    ensures Components("/" + name + tail) == [name] + Components(tail)
  {
    ComponentsConcat(name, tail);
    ComponentsOfComponent(name);
    var path := "/" + name + tail;
    assert path[0] == '/' && path[1..] == name + tail;
  }

  /** The last component of a render is the last name, so a longer path only adds to the end. */
  lemma {:induction false} RenderSnoc(names: seq<string>, last: string)
    ensures Render(names + [last]) == Render(names) + "/" + last
  {
    if names == [] {
      assert names + [last] == [last];
      assert [last][1..] == [];
    } else {
      RenderSnoc(names[1..], last);
      assert (names + [last])[1..] == names[1..] + [last];
    }
  }

  /** What trimming and skipping leave: joining two paths with '/' joins their components. */
  lemma ComponentsOfJoin(p: string, q: string)
    ensures Components(p + "/" + q) == Components(p) + Components(q)
  {
    assert p + "/" + q == p + ("/" + q);
    ComponentsConcat(p, "/" + q);
    assert ("/" + q)[1..] == q;
  }

  /** A path without a component is all slashes, hence absolute unless empty. */
  lemma {:induction false} NoComponents(path: string)
    requires Components(path) == []
    ensures forall j | 0 <= j < |path| :: path[j] == '/'
    decreases |path|
  {
    if path != "" {
      NoComponents(path[1..]);
    }
  }

  /** A path without its trailing slashes. */
  function TrimSlashes(path: string): string {
    if path != "" && path[|path| - 1] == '/' then TrimSlashes(path[..|path| - 1]) else path
  }

  lemma {:induction false} ComponentsOfTrimmed(path: string)
    ensures Components(TrimSlashes(path)) == Components(path)
    ensures TrimSlashes(path) != "" ==> TrimSlashes(path)[|TrimSlashes(path)| - 1] != '/'
  {
    if path != "" && path[|path| - 1] == '/' {
      assert path == path[..|path| - 1] + "/";
      ComponentsIgnoreTrailingSlash(path[..|path| - 1]);
      ComponentsOfTrimmed(path[..|path| - 1]);
    }
  }

  /** A non-empty path that does not end in '/' has a component. */
  lemma SomeComponent(path: string)
    requires path != "" && path[|path| - 1] != '/'
    ensures Components(path) != []
  {
    if Components(path) == [] {
      NoComponents(path);
    }
  }

  lemma FirstSegment(path: string)
    requires path != "" && path[0] != '/'
    ensures var k := SegmentEnd(path); k > 0 && Components(path) == [path[..k]] + Components(path[k..])
    ensures SegmentEnd(path) == |path| ==> Components(path) == [path]
  {
    if SegmentEnd(path) == |path| {
      assert path[|path|..] == "" && path[..|path|] == path;
    }
  }
}
