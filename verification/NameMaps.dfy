/**
 The map every directory implementation is meant to be: a file under each (directory, name), and a parent for every file
 that is linked. It knows nothing of entry vectors, caches or backends.
 */
module NameMaps {
  import opened Common

  type FileId = int

  datatype Pair = Pair(dir: FileId, name: string)

  datatype NameMap = NameMap(pairs: map<Pair, FileId>, parents: map<FileId, FileId>)

  /** A directory without a parent has no names, not even "." and "..". */
  function Find(m: NameMap, d: FileId, name: string): Option<FileId> {
    if d !in m.parents then None
    else if name == "." then Some(d)
    else if name == ".." then Some(m.parents[d])
    else if Pair(d, name) in m.pairs then Some(m.pairs[Pair(d, name)])
    else None
  }

  /** What an operation does to the map. `Unmount` leaves the file its parent. */
  datatype Change =
    Nothing | Put(at: Pair, file: FileId) | Take(at: Pair) | Unmount(at: Pair) | Rename(from: Pair, to: Pair)

  function WithPut(m: NameMap, at: Pair, file: FileId): NameMap {
    NameMap(m.pairs[at := file], m.parents[file := at.dir])
  }

  function WithTake(m: NameMap, at: Pair): NameMap {
    if at in m.pairs then NameMap(m.pairs - {at}, m.parents - {m.pairs[at]}) else m
  }

  function Changed(m: NameMap, ch: Change): NameMap {
    match ch
    case Nothing => m
    case Put(at, file) => WithPut(m, at, file)
    case Take(at) => WithTake(m, at)
    case Unmount(at) => m.(pairs := m.pairs - {at})
    case Rename(from, to) =>
      if from in m.pairs then WithPut(WithTake(WithTake(m, from), to), to, m.pairs[from]) else m
  }

  lemma RenameIs(m: NameMap, from: Pair, to: Pair)
    requires from in m.pairs
    ensures Changed(m, Rename(from, to)) == WithPut(WithTake(WithTake(m, from), to), to, m.pairs[from])
  {
  }

  /** A file has at most one place, and the directory of that place is its parent. */
  ghost predicate OnePlaceEach(m: NameMap) {
    && (forall p | p in m.pairs :: m.pairs[p] in m.parents && m.parents[m.pairs[p]] == p.dir)
    && forall p, q | p in m.pairs && q in m.pairs && m.pairs[p] == m.pairs[q] :: p == q
  }

  /** Only directories with a parent have names in them. */
  ghost predicate NamesAreLinked(m: NameMap) {
    forall p | p in m.pairs :: p.dir in m.parents
  }

  ghost predicate Sound(m: NameMap) {
    OnePlaceEach(m) && NamesAreLinked(m)
  }

  ghost predicate Homeless(m: NameMap, file: FileId) {
    forall p | p in m.pairs :: m.pairs[p] != file
  }

  ghost predicate NothingIn(m: NameMap, dir: FileId) {
    forall p | p in m.pairs :: p.dir != dir
  }

  /** What the callers of the directory operations see to: places are free or hold something empty. */
  ghost predicate Fits(m: NameMap, ch: Change) {
    match ch
    case Nothing => true
    case Put(at, file) => at !in m.pairs && Homeless(m, file) && at.dir in m.parents
    case Take(at) => at in m.pairs ==> NothingIn(m, m.pairs[at])
    case Unmount(_) => true
    case Rename(from, to) =>
      to.dir in m.parents && (to in m.pairs && to != from ==> NothingIn(m, m.pairs[to]))
  }

  lemma PutKeepsPlaces(m: NameMap, at: Pair, file: FileId)
    requires OnePlaceEach(m) && at !in m.pairs && Homeless(m, file)
    ensures OnePlaceEach(WithPut(m, at, file))
  {
  }

  lemma TakeKeepsPlaces(m: NameMap, at: Pair)
    requires OnePlaceEach(m)
    ensures OnePlaceEach(WithTake(m, at))
    ensures at in m.pairs ==> Homeless(WithTake(m, at), m.pairs[at])
    ensures forall f | Homeless(m, f) :: Homeless(WithTake(m, at), f)
  {
  }

  /** Every change that fits keeps the map sound. */
  lemma ChangeKeepsSound(m: NameMap, ch: Change)
    requires Sound(m) && Fits(m, ch)
    ensures Sound(Changed(m, ch))
  {
    match ch
    case Nothing =>
    case Put(at, file) => PutKeepsPlaces(m, at, file);
    case Take(at) => TakeKeepsPlaces(m, at);
    case Unmount(_) =>
    case Rename(from, to) =>
      if from in m.pairs {
        var m1 := WithTake(m, from);
        TakeKeepsPlaces(m, from);
        TakeKeepsPlaces(m1, to);
        PutKeepsPlaces(WithTake(m1, to), to, m.pairs[from]);
      }
  }

  predicate Touches(ch: Change, at: Pair) {
    match ch
    case Nothing => false
    case Put(p, _) => p == at
    case Take(p) => p == at
    case Unmount(p) => p == at
    case Rename(from, to) => from == at || to == at
  }

  /** A name keeps its file until that very name is put, taken, unmounted or renamed. */
  lemma UntouchedStays(m: NameMap, ch: Change, at: Pair)
    requires !Touches(ch, at)
    ensures at in Changed(m, ch).pairs <==> at in m.pairs
    ensures at in m.pairs ==> Changed(m, ch).pairs[at] == m.pairs[at]
  {
  }
}
