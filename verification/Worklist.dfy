/**
 An independent account of path resolution, after section 4.13 of POSIX.1-2017 Base Definitions: a machine that keeps
 the directory reached and the components still to do, and puts the components of an expanded link in front of the
 rest. It nests no call and has no limit on the number of links. The nested calls of wasmfs/paths.cpp are proved to
 compute what this machine computes when it needs at most 40 expansions, and ELOOP otherwise.
 */
module Worklist {
  import opened Common
  import opened Paths
  import opened Trees
  import opened Resolve

  datatype Config = Walking(curr: Ino, todo: seq<string>, links: nat) | Done(res: Result<Ino>, links: nat)

  function Step(t: Tree, b: LinkBehavior, c: Config): (c': Config)
    ensures c.links <= c'.links
  {
    match c
    case Done(_, _) => c
    case Walking(curr, todo, n) =>
      if todo == [] then Done(Ok(curr), n)
      else if !IsDir(t, curr) then Done(Err(ENOTDIR), n)
      else match Lookup(t, curr, todo[0])
        case None => Done(Err(ENOENT), n)
        case Some(child) =>
          if !IsLink(t, child) || (|todo| == 1 && b == NoFollowLinks) then Walking(child, todo[1..], n)
          else
            var target := t.nodes[child].body.target;
            if target == "" then Done(Err(ENOENT), n + 1)
            else Walking(StartDir(t, target, curr), Components(target) + todo[1..], n + 1)
  }

  function Run(t: Tree, b: LinkBehavior, c: Config, k: nat): Config
    decreases k
  {
    if k == 0 then c else Run(t, b, Step(t, b, c), k - 1)
  }

  function Start(t: Tree, path: string, base: Ino): Config {
    if path == "" then Done(Err(ENOENT), 0) else Walking(StartDir(t, path, base), Components(path), 0)
  }

  /** The machine stops with this result after this many expansions. */
  ghost predicate Resolves(t: Tree, path: string, base: Ino, b: LinkBehavior, res: Result<Ino>, links: nat) {
    Reaches(t, b, Start(t, path, base), Done(res, links))
  }

  ghost predicate Reaches(t: Tree, b: LinkBehavior, c: Config, c': Config) {
    exists k :: Run(t, b, c, k) == c'
  }

  /** At some point the machine has expanded more links than the code allows. */
  ghost predicate Exceeds(t: Tree, b: LinkBehavior, c: Config) {
    exists k :: Run(t, b, c, k).links > 40
  }

  lemma {:induction false} RunAdds(t: Tree, b: LinkBehavior, c: Config, j: nat, k: nat)
    ensures Run(t, b, c, j + k) == Run(t, b, Run(t, b, c, j), k)
    decreases j
  {
    if j > 0 {
      RunAdds(t, b, Step(t, b, c), j - 1, k);
    }
  }

  lemma {:induction false} RunCounts(t: Tree, b: LinkBehavior, c: Config, k: nat)
    ensures c.links <= Run(t, b, c, k).links
    ensures c.Done? ==> Run(t, b, c, k) == c
    decreases k
  {
    if k > 0 {
      RunCounts(t, b, Step(t, b, c), k - 1);
    }
  }

  /** What a nested call promises about the machine started on the same components, with `rest` behind them. */
  ghost predicate Matches(t: Tree, b: LinkBehavior, c: Config, r: Parsed<Ino>, rest: seq<string>) {
    match r.res
    case Ok(f) => Reaches(t, b, c, Walking(f, rest, r.links))
    case Err(e) => if e == ELOOP then Exceeds(t, b, c) else Reaches(t, b, c, Done(Err(e), r.links))
  }

  lemma MatchesAfter(t: Tree, b: LinkBehavior, c: Config, c': Config, r: Parsed<Ino>, rest: seq<string>)
    requires Reaches(t, b, c, c') && Matches(t, b, c', r, rest)
    ensures Matches(t, b, c, r, rest)
  {
    var j :| Run(t, b, c, j) == c';
    var goal :| Run(t, b, c', goal) == Run(t, b, c', goal) &&
      (match r.res
       case Ok(f) => Run(t, b, c', goal) == Walking(f, rest, r.links)
       case Err(e) => if e == ELOOP then Run(t, b, c', goal).links > MAX_RECURSIONS
                      else Run(t, b, c', goal) == Done(Err(e), r.links));
    RunAdds(t, b, c, j, goal);
  }

  lemma OneStep(t: Tree, b: LinkBehavior, c: Config)
    ensures Reaches(t, b, c, Step(t, b, c))
  {
    assert Run(t, b, c, 1) == Run(t, b, Step(t, b, c), 0);
  }

  lemma NoStep(t: Tree, b: LinkBehavior, c: Config)
    ensures Reaches(t, b, c, c)
  {
    assert Run(t, b, c, 0) == c;
  }

  /** One component, with links followed. */
  lemma {:induction false} ChildMatches(t: Tree, b: LinkBehavior, dir: Ino, name: string, n: nat, rest: seq<string>)
    requires RootOk(t) && IsDir(t, dir) && n <= MAX_RECURSIONS && (b == FollowLinks || rest != [])
    ensures Matches(t, b, Walking(dir, [name] + rest, n), GetChild(t, dir, name, FollowLinks, n), rest)
    decreases MAX_RECURSIONS - n, 0, 0
  {
    var c := Walking(dir, [name] + rest, n);
    var r := GetChild(t, dir, name, FollowLinks, n);
    assert ([name] + rest)[1..] == rest;
    OneStep(t, b, c);
    match Lookup(t, dir, name) {
      case None =>
      case Some(child) =>
        if IsLink(t, child) {
          var target := t.nodes[child].body.target;
          if n + 1 > MAX_RECURSIONS {
            assert Run(t, b, c, 1) == Run(t, b, Step(t, b, c), 0);
          } else if target != "" {
            PathMatches(t, b, target, dir, n + 1, rest);
            LinkLoopTurnsOnce(t, dir, child, n);
            MatchesAfter(t, b, c, Step(t, b, c), r, rest);
          }
        }
    }
  }

  /** A whole link target in front of the rest. */
  lemma {:induction false} PathMatches(t: Tree, b: LinkBehavior, path: string, base: Ino, n: nat, rest: seq<string>)
    requires RootOk(t) && IsDir(t, base) && n <= MAX_RECURSIONS && path != "" && (b == FollowLinks || rest != [])
    ensures Matches(t, b, Walking(StartDir(t, path, base), Components(path) + rest, n),
                    ParseFile(t, path, base, FollowLinks, n), rest)
    decreases MAX_RECURSIONS - n, 2, 0
  {
    var start := StartDir(t, path, base);
    if Components(path) == [] {
      SlashesAreRoot(t, path, base, FollowLinks, n);
      assert Components(path) + rest == rest;
      NoStep(t, b, Walking(start, rest, n));
    } else {
      ComponentsMatch(t, b, Components(path), start, n, rest);
    }
  }

  function Finish(t: Tree, d: Parsed<ParentChild>): Parsed<Ino>
    requires d.res.Ok? ==> d.links <= MAX_RECURSIONS
  {
    if d.res.Err? then Parsed(Err(d.res.error), d.links)
    else GetChild(t, d.res.value.parent, d.res.value.name, FollowLinks, d.links)
  }

  lemma {:induction false} ComponentsMatch(t: Tree, b: LinkBehavior, names: seq<string>, curr: Ino, n: nat,
      rest: seq<string>)
    requires RootOk(t) && IsDir(t, curr) && n <= MAX_RECURSIONS && names != [] && (b == FollowLinks || rest != [])
    ensures Matches(t, b, Walking(curr, names + rest, n), Finish(t, Descend(t, names, curr, n)), rest)
    decreases MAX_RECURSIONS - n, 1, |names|
  {
    if |names| == 1 {
      ChildMatches(t, b, curr, names[0], n, rest);
      assert names == [names[0]];
    } else {
      assert names + rest == [names[0]] + (names[1..] + rest);
      DescentMatches(t, b, names, curr, n, names[1..] + rest);
      var child := GetChild(t, curr, names[0], FollowLinks, n);
      if child.res.Ok? && IsDir(t, child.res.value) {
        ComponentsMatch(t, b, names[1..], child.res.value, child.links, rest);
        MatchesAfter(t, b, Walking(curr, names + rest, n), Walking(child.res.value, names[1..] + rest, child.links),
                     Finish(t, Descend(t, names, curr, n)), rest);
      }
    }
  }

  /** One component that is not the last: the machine reaches its directory, or fails as `Descend` does. */
  lemma {:induction false} DescentMatches(t: Tree, b: LinkBehavior, names: seq<string>, curr: Ino, n: nat,
      rest: seq<string>)
    requires RootOk(t) && IsDir(t, curr) && n <= MAX_RECURSIONS && |names| > 1 && rest != []
    ensures var child := GetChild(t, curr, names[0], FollowLinks, n);
      if child.res.Ok? && IsDir(t, child.res.value)
      then Reaches(t, b, Walking(curr, [names[0]] + rest, n), Walking(child.res.value, rest, child.links))
      else
        var d := Descend(t, names, curr, n);
        d.res.Err? && Matches(t, b, Walking(curr, [names[0]] + rest, n), Parsed(Err(d.res.error), d.links), [])
    decreases MAX_RECURSIONS - n, 0, 1
  {
    var c := Walking(curr, [names[0]] + rest, n);
    var child := GetChild(t, curr, names[0], FollowLinks, n);
    ChildMatches(t, b, curr, names[0], n, rest);
    if child.res.Ok? && !IsDir(t, child.res.value) {
      var c' := Walking(child.res.value, rest, child.links);
      OneStep(t, b, c');
      MatchesAfter(t, b, c, c', Parsed(Err(ENOTDIR), child.links), []);
    }
  }

  /** The calls of a whole path against the machine, whichever way the last link is treated. */
  lemma WholePath(t: Tree, b: LinkBehavior, path: string, base: Ino)
    requires RootOk(t) && IsDir(t, base) && path != ""
    ensures Matches(t, b, Start(t, path, base), ParseFile(t, path, base, b, 0), [])
  {
    if b == FollowLinks {
      PathMatches(t, b, path, base, 0, []);
      assert Components(path) + [] == Components(path);
    } else {
      PathWithoutLastLink(t, path, base);
    }
  }

  lemma PathWithoutLastLink(t: Tree, path: string, base: Ino)
    requires RootOk(t) && IsDir(t, base) && path != ""
    ensures Matches(t, NoFollowLinks, Start(t, path, base), ParseFile(t, path, base, NoFollowLinks, 0), [])
  {
    var start := StartDir(t, path, base);
    if Components(path) == [] {
      SlashesAreRoot(t, path, base, NoFollowLinks, 0);
      NoStep(t, NoFollowLinks, Walking(start, [], 0));
    } else {
      LastNotFollowed(t, Components(path), start, 0);
    }
  }

  function FinishWithout(t: Tree, d: Parsed<ParentChild>): Parsed<Ino>
    requires d.res.Ok? ==> d.links <= MAX_RECURSIONS
  {
    if d.res.Err? then Parsed(Err(d.res.error), d.links)
    else GetChild(t, d.res.value.parent, d.res.value.name, NoFollowLinks, d.links)
  }

  lemma {:induction false} LastNotFollowed(t: Tree, names: seq<string>, curr: Ino, n: nat)
    requires RootOk(t) && IsDir(t, curr) && n <= MAX_RECURSIONS && names != []
    ensures Matches(t, NoFollowLinks, Walking(curr, names, n), FinishWithout(t, Descend(t, names, curr, n)), [])
    decreases |names|
  {
    var b := NoFollowLinks;
    if |names| == 1 {
      OneStep(t, b, Walking(curr, names, n));
    } else {
      assert names == [names[0]] + names[1..];
      DescentMatches(t, b, names, curr, n, names[1..]);
      var child := GetChild(t, curr, names[0], FollowLinks, n);
      if child.res.Ok? && IsDir(t, child.res.value) {
        LastNotFollowed(t, names[1..], child.res.value, child.links);
        MatchesAfter(t, b, Walking(curr, names, n), Walking(child.res.value, names[1..], child.links),
                     FinishWithout(t, Descend(t, names, curr, n)), []);
      }
    }
  }

  /**
   The nested code agrees with the unlimited machine: a result with at most 40 expansions is returned exactly, with the
   same count, and ELOOP is returned exactly when the machine needs more, whether or not it would ever stop.
   */
  lemma ResolutionAgrees(t: Tree, path: string, base: Ino, b: LinkBehavior)
    requires RootOk(t) && IsDir(t, base)
    ensures var r := ParseFile(t, path, base, b, 0);
      && (r.res == Err(ELOOP) <==> Exceeds(t, b, Start(t, path, base)))
      && (forall res, links: nat | res != Err(ELOOP) ::
            r == Parsed(res, links) <==> Resolves(t, path, base, b, res, links) && links <= 40)
  {
    var r := ParseFile(t, path, base, b, 0);
    var c := Start(t, path, base);
    if path == "" {
      NoStep(t, b, c);
    } else {
      WholePath(t, b, path, base);
      if r.res.Ok? {
        OneStep(t, b, Walking(r.res.value, [], r.links));
        ReachesAfter(t, b, c, Walking(r.res.value, [], r.links), Done(r.res, r.links));
      }
    }
    if r.res != Err(ELOOP) {
      OnlyOneEnd(t, b, c, r.res, r.links);
    } else {
      ExceedsHasNoEnd(t, b, c);
    }
  }

  lemma ReachesAfter(t: Tree, b: LinkBehavior, c: Config, c': Config, c'': Config)
    requires Reaches(t, b, c, c') && Reaches(t, b, c', c'')
    ensures Reaches(t, b, c, c'')
  {
    var j :| Run(t, b, c, j) == c';
    var k :| Run(t, b, c', k) == c'';
    RunAdds(t, b, c, j, k);
  }

  /** A machine that stops, stops in one way only, and never counted more than its final count. */
  lemma OnlyOneEnd(t: Tree, b: LinkBehavior, c: Config, res: Result<Ino>, links: nat)
    requires Reaches(t, b, c, Done(res, links)) && links <= MAX_RECURSIONS
    ensures !Exceeds(t, b, c)
    ensures forall res', links': nat | Reaches(t, b, c, Done(res', links')) :: res' == res && links' == links
  {
    var j :| Run(t, b, c, j) == Done(res, links);
    forall k: nat ensures Run(t, b, c, k).links <= links
      ensures Run(t, b, c, k).Done? ==> Run(t, b, c, k) == Done(res, links)
    {
      Ordered(t, b, c, j, k);
    }
  }

  lemma Ordered(t: Tree, b: LinkBehavior, c: Config, j: nat, k: nat)
    requires Run(t, b, c, j).Done?
    ensures Run(t, b, c, k).links <= Run(t, b, c, j).links
    ensures Run(t, b, c, k).Done? ==> Run(t, b, c, k) == Run(t, b, c, j)
  {
    if j <= k {
      RunAdds(t, b, c, j, k - j);
      RunCounts(t, b, Run(t, b, c, j), k - j);
    } else {
      RunAdds(t, b, c, k, j - k);
      RunCounts(t, b, Run(t, b, c, k), j - k);
    }
  }

  lemma ExceedsHasNoEnd(t: Tree, b: LinkBehavior, c: Config)
    requires Exceeds(t, b, c)
    ensures forall res, links: nat | Reaches(t, b, c, Done(res, links)) :: links > MAX_RECURSIONS
  {
    forall res, links: nat | Reaches(t, b, c, Done(res, links)) ensures links > MAX_RECURSIONS {
      var j :| Run(t, b, c, j) == Done(res, links);
      var k :| Run(t, b, c, k).links > MAX_RECURSIONS;
      Ordered(t, b, c, j, k);
    }
  }
}
