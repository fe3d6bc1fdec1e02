/** Names folded to lower case, as the ignore-case adapter files them. */
module Folding {

  function ToLower(c: char): char {
    if 'A' <= c <= 'Z' then c - 'A' + 'a' else c
  }

  function Lower(name: string): (low: string)
    ensures |low| == |name|
  {
    if name == "" then "" else [ToLower(name[0])] + Lower(name[1..])
  }

  lemma {:induction false} LowerTwice(name: string)
    ensures Lower(Lower(name)) == Lower(name)
  {
    if name != "" {
      LowerTwice(name[1..]);
      assert Lower(name)[1..] == Lower(name[1..]);
    }
  }

  /** `x` is `c` with an upper-case letter replaced by the lower-case letter at its place in the alphabet. */
  predicate FoldsTo(c: char, x: char) {
    if 'A' <= c <= 'Z' then x as int == c as int - 'A' as int + 'a' as int else x == c
  }

  /** Folding turns the letters 'A' to 'Z' into 'a' to 'z' and leaves everything else as it is. */
  lemma {:induction false} LowerByLetter(name: string, i: nat)
    requires i < |name|
    ensures FoldsTo(name[i], Lower(name)[i])
  {
    assert Lower(name) == [ToLower(name[0])] + Lower(name[1..]);
    if i > 0 {
      LowerByLetter(name[1..], i - 1);
    }
  }

  /** Folding is one letter after the other. */
  lemma {:induction false} LowerIs(name: string, low: string)
    requires |low| == |name| && forall j | 0 <= j < |name| :: low[j] == ToLower(name[j])
    ensures low == Lower(name)
  {
    if name != "" {
      LowerIs(name[1..], low[1..]);
      assert low == [low[0]] + low[1..];
    }
  }

  /** The same character, or an upper-case letter and the lower-case letter at its place in the alphabet. */
  predicate SameUpToCase(c: char, d: char) {
    || c == d
    || ('A' <= c <= 'Z' && d as int - 'a' as int == c as int - 'A' as int)
    || ('A' <= d <= 'Z' && c as int - 'a' as int == d as int - 'A' as int)
  }

  lemma SameFold(c: char, d: char, x: char, y: char)
    requires FoldsTo(c, x) && FoldsTo(d, y)
    ensures x == y <==> SameUpToCase(c, d)
  {
    assert x as int == y as int ==> x == y;
  }

  /** Two names have the same key exactly when they agree letter by letter up to case. */
  lemma SameKeyIffEqualUpToCase(a: string, b: string)
    ensures Lower(a) == Lower(b) <==> |a| == |b| && forall i | 0 <= i < |a| :: SameUpToCase(a[i], b[i])
  {
    var x := Folded(a);
    var y := Folded(b);
    if |a| == |b| {
      LetterByLetter(a, b, x, y);
    }
  }

  lemma LetterByLetter(a: string, b: string, x: string, y: string)
    requires |a| == |b| == |x| == |y|
    requires forall i | 0 <= i < |a| :: FoldsTo(a[i], x[i]) && FoldsTo(b[i], y[i])
    ensures x == y <==> forall i | 0 <= i < |a| :: SameUpToCase(a[i], b[i])
  {
    forall i | 0 <= i < |a| ensures x[i] == y[i] <==> SameUpToCase(a[i], b[i]) {
      SameFold(a[i], b[i], x[i], y[i]);
    }
    if forall i | 0 <= i < |a| :: SameUpToCase(a[i], b[i]) {
      assert forall i | 0 <= i < |a| :: x[i] == y[i];
    }
  }

  lemma Folded(name: string) returns (x: string)
    ensures x == Lower(name) && |x| == |name| && forall i | 0 <= i < |x| :: FoldsTo(name[i], x[i])
  {
    x := Lower(name);
    forall i | 0 <= i < |x| ensures FoldsTo(name[i], x[i]) {
      LowerByLetter(name, i);
    }
  }

  /** Folding leaves the dot names alone and makes no others. */
  lemma LowerDots(name: string)
    ensures Lower(name) == "." <==> name == "."
    ensures Lower(name) == ".." <==> name == ".."
  {
    if |name| == 1 {
      assert name == [name[0]] && Lower(name[1..]) == "";
    } else if |name| == 2 {
      var rest := name[1..];
      assert name == [name[0]] + rest && rest[1..] == "" && Lower(rest) == [ToLower(rest[0])] + Lower(rest[1..]);
    }
  }
}
