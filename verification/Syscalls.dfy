/** The calls of wasmfs/syscalls.cpp that change the directory tree, as functions from a tree to a tree. */
module Syscalls {
  import opened Common
  import opened Paths
  import opened Trees
  import opened Resolve
  import opened PathLaws

  /** `Fault` is the null dereference of rename's ancestor walk: nothing is defined after it. */
  datatype Outcome = Done | Opened(file: Ino, truncated: bool) | Fail(error: Errno) | Fault

  datatype AccessMode = ReadOnly | WriteOnly | ReadWrite | BadMode

  datatype OpenFlags = OpenFlags(access: AccessMode, create: bool, exclusive: bool, directory: bool,
                                 truncate: bool, noFollow: bool)

  /** `path::parseParent`: the base is a directory descriptor or the working directory. */
  function ParseAt(t: Tree, base: Ino, path: string): (r: Result<ParentChild>)
    ensures r.Ok? && RootOk(t) ==> IsDir(t, r.value.parent) && IsComponent(r.value.name)
  {
    if base !in t.nodes then Err(EBADF)
    else if !IsDir(t, base) then Err(ENOTDIR)
    else
      var r := ParseParent(t, path, base, 0).res;
      assert r.Ok? ==> IsComponent(r.value.name) by {
        if r.Ok? { LeafIsComponent(t, path, base, 0); }
      }
      r
  }

  /** `path::parseFile`. */
  function ParseFileAt(t: Tree, base: Ino, path: string, b: LinkBehavior): Result<Ino> {
    if base !in t.nodes then Err(EBADF)
    else if !IsDir(t, base) then Err(ENOTDIR)
    else ParseFile(t, path, base, b, 0).res
  }

  predicate CanWrite(t: Tree, i: Ino) {
    i in t.nodes && t.nodes[i].canWrite
  }

  predicate CanRead(t: Tree, i: Ino) {
    i in t.nodes && t.nodes[i].canRead
  }

  // ---------- mkdir, symlink ----------

  ghost function Mkdir(t: Tree, base: Ino, path: string, canRead: bool, canWrite: bool): (Tree, Outcome)
    requires RootOk(t)
  {
    match ParseAt(t, base, path)
    case Err(e) => (t, Fail(e))
    case Ok(ParentChild(parent, name)) => MkdirAt(t, parent, name, canRead, canWrite)
  }

  function MkdirAt(t: Tree, parent: Ino, name: string, canRead: bool, canWrite: bool): (Tree, Outcome)
    requires parent in t.nodes
  {
    if |name| > MAX_NAME then (t, Fail(ENAMETOOLONG))
    else if Lookup(t, parent, name).Some? then (t, Fail(EEXIST))
    else if !CanWrite(t, parent) then (t, Fail(EACCES))
    else if !Linked(t, parent) then (t, Fail(EIO))
    else (Attach(t, parent, name, Dir([]), canRead, canWrite), Done)
  }

  ghost function Symlink(t: Tree, target: string, base: Ino, path: string): (Tree, Outcome)
    requires RootOk(t)
  {
    match ParseAt(t, base, path)
    case Err(e) => (t, Fail(e))
    case Ok(ParentChild(parent, name)) => SymlinkAt(t, target, parent, name)
  }

  function SymlinkAt(t: Tree, target: string, parent: Ino, name: string): (Tree, Outcome)
    requires parent in t.nodes
  {
    if |name| > MAX_NAME then (t, Fail(ENAMETOOLONG))
    else if Lookup(t, parent, name).Some? then (t, Fail(EEXIST))
    else if !Linked(t, parent) then (t, Fail(EPERM))
    else (Attach(t, parent, name, Link(target), false, false), Done)
  }

  // ---------- open ----------

  /** The checks of `doOpen` on a file that is not a link. */
  function OpenExisting(t: Tree, child: Ino, flags: OpenFlags): Outcome {
    if flags.exclusive && flags.create then Fail(EEXIST)
    else if IsDir(t, child) && flags.access != ReadOnly then Fail(EISDIR)
    else if flags.access in {ReadOnly, ReadWrite} && !CanRead(t, child) then Fail(EACCES)
    else if flags.access in {WriteOnly, ReadWrite} && !CanWrite(t, child) then Fail(EACCES)
    else if flags.directory && !IsDir(t, child) then Fail(ENOTDIR)
    else if flags.truncate && IsDir(t, child) then Fail(EISDIR)
    else if flags.truncate && !CanWrite(t, child) then Fail(EACCES)
    else Opened(child, flags.truncate)
  }

  /** `doOpen`; `wantFd` is false for mknod, which opens nothing. */
  ghost function Open(t: Tree, base: Ino, path: string, flags: OpenFlags, canRead: bool, canWrite: bool, wantFd: bool)
    : (Tree, Outcome)
    requires RootOk(t)
  {
    if flags.access == BadMode then (t, Fail(EINVAL))
    else match ParseAt(t, base, path)
      case Err(e) => (t, Fail(e))
      case Ok(ParentChild(parent, name)) => OpenAt(t, parent, name, flags, canRead, canWrite, wantFd)
  }

  function OpenAt(t: Tree, parent: Ino, name: string, flags: OpenFlags, canRead: bool, canWrite: bool, wantFd: bool)
    : (Tree, Outcome)
    requires parent in t.nodes
  {
    if |name| > MAX_NAME then (t, Fail(ENAMETOOLONG))
    else match Lookup(t, parent, name)
      case None =>
        if !flags.create || !Linked(t, parent) then (t, Fail(ENOENT))
        else (Attach(t, parent, name, Data, canRead, canWrite), if wantFd then Opened(t.next, false) else Done)
      case Some(child) => (t, OpenFound(t, parent, child, flags))
  }

  /** The leaf exists: follow it if it is a link, with a counter that starts again at zero, then check it. */
  function OpenFound(t: Tree, parent: Ino, child: Ino, flags: OpenFlags): Outcome {
    if !IsLink(t, child) then OpenExisting(t, child, flags)
    else if flags.noFollow then Fail(ELOOP)
    else match ParseFile(t, t.nodes[child].body.target, parent, FollowLinks, 0).res
      case Err(e) => Fail(e)
      case Ok(file) => OpenExisting(t, file, flags)
  }

  // ---------- unlink, rmdir ----------

  predicate EndsInSlashDot(path: string) {
    var p := TrimSlashes(path);
    |p| >= 2 && p[|p| - 2..] == "/."
  }

  ghost function Unlink(t: Tree, base: Ino, path: string, removeDir: bool): (Tree, Outcome)
    requires RootOk(t)
  {
    if removeDir && EndsInSlashDot(path) then (t, Fail(EINVAL))
    else match ParseAt(t, base, path)
      case Err(e) => (t, Fail(e))
      case Ok(ParentChild(parent, name)) => UnlinkAt(t, parent, name, removeDir)
  }

  ghost function UnlinkAt(t: Tree, parent: Ino, name: string, removeDir: bool): (Tree, Outcome)
    requires parent in t.nodes
  {
    match Lookup(t, parent, name)
    case None => (t, Fail(ENOENT))
    case Some(file) =>
      if file == t.root then (t, Fail(EBUSY))
      else if IsDir(t, file) && !removeDir then (t, Fail(EISDIR))
      else if IsDir(t, file) && Entries(t, file) != [] then (t, Fail(ENOTEMPTY))
      else if !IsDir(t, file) && removeDir then (t, Fail(ENOTDIR))
      else if !CanWrite(t, parent) then (t, Fail(EACCES))
      else (RemoveName(t, parent, name), Done)
  }

  // ---------- rename ----------

  datatype Climbed = ReachedRoot | Hit | Lost

  /** The ancestor walk: from `x` up to the root, looking for `a`. A null parent is where the code faults. */
  ghost function Climb(t: Tree, a: Ino, x: Ino): Climbed
    requires Grounded(t)
    decreases if x in Rank(t) then Rank(t)[x] else 0
  {
    if x == t.root then ReachedRoot
    else if x == a then Hit
    else if Linked(t, x) then Climb(t, a, t.nodes[x].parent.value)
    else Lost
  }

  /** What an existing destination forbids. */
  function OverwriteError(t: Tree, oldFile: Ino, newFile: Ino): Option<Errno> {
    if IsDir(t, newFile) then
      if !IsDir(t, oldFile) then Some(EISDIR)
      else if Entries(t, newFile) != [] then Some(ENOTEMPTY)
      else None
    else if IsDir(t, oldFile) then Some(ENOTDIR)
    else None
  }

  /** Rename after its early checks: the ancestor walk, what may overwrite what, and the move. */
  ghost function RenameChecked(t: Tree, oldFile: Ino, newFile: Option<Ino>, newP: ParentChild): (r: (Tree, Outcome))
    requires Shape(t) && IsDir(t, newP.parent) && Linked(t, oldFile)
  {
    match Climb(t, oldFile, newP.parent)
    case Hit => (t, Fail(EINVAL))
    case Lost => (t, Fault)
    case ReachedRoot =>
      if newFile.Some? && OverwriteError(t, oldFile, newFile.value).Some?
      then (t, Fail(OverwriteError(t, oldFile, newFile.value).value))
      else
        ParentIsLinked(t, oldFile);
        (Move(t, newP.parent, newP.name, oldFile), Done)
  }

  /** Rename once both paths are parsed. */
  ghost function RenameParsed(t: Tree, oldP: ParentChild, newP: ParentChild): (r: (Tree, Outcome))
    requires Shape(t) && IsDir(t, oldP.parent) && IsDir(t, newP.parent)
  {
    var oldFile, newFile := Lookup(t, oldP.parent, oldP.name), Lookup(t, newP.parent, newP.name);
    if |newP.name| > MAX_NAME then (t, Fail(ENAMETOOLONG))
    else if oldFile.None? then (t, Fail(ENOENT))
    else if oldFile == newFile then (t, Done)
    else if oldFile == Some(t.root) || newFile == Some(t.root) then (t, Fail(EBUSY))
    else if !CanWrite(t, oldP.parent) || !CanWrite(t, newP.parent) then (t, Fail(EACCES))
    else
      LookupIsLinked(t, oldP.parent, oldP.name);
      RenameChecked(t, oldFile.value, newFile, newP)
  }

  ghost function Rename(t: Tree, oldBase: Ino, oldPath: string, newBase: Ino, newPath: string): (Tree, Outcome)
    requires Shape(t)
  {
    var oldP, newP := ParseAt(t, oldBase, oldPath), ParseAt(t, newBase, newPath);
    if oldP.Err? then (t, Fail(oldP.error))
    else if newP.Err? then (t, Fail(newP.error))
    else RenameParsed(t, oldP.value, newP.value)
  }

  // ---------- chmod, getcwd ----------

  ghost function Chmod(t: Tree, base: Ino, path: string, b: LinkBehavior, canRead: bool, canWrite: bool)
    : (Tree, Outcome)
  {
    match ParseFileAt(t, base, path, b)
    case Err(e) => (t, Fail(e))
    case Ok(i) =>
      if i !in t.nodes then (t, Fail(ENOENT))
      else (SetNode(t, i, t.nodes[i].(canRead := canRead, canWrite := canWrite)), Done)
  }

  /** `getcwd`: the buffer must be strictly larger than the path and its terminator. */
  ghost function Getcwd(t: Tree, cwd: Ino, nullBuf: bool, size: nat): Result<string>
    requires Shape(t)
  {
    if nullBuf && size > 0 then Err(EFAULT)
    else if !nullBuf && size == 0 then Err(EINVAL)
    else if !Linked(t, cwd) then Err(ENOENT)
    else if |PathTo(t, cwd)| + 1 >= size then Err(ERANGE)
    else Ok(PathTo(t, cwd))
  }

  // ---------- runs ----------

  datatype Call =
    | CMkdir(base: Ino, path: string, canRead: bool, canWrite: bool)
    | CSymlink(target: string, base: Ino, path: string)
    | COpen(base: Ino, path: string, flags: OpenFlags, canRead: bool, canWrite: bool, wantFd: bool)
    | CUnlink(base: Ino, path: string, removeDir: bool)
    | CRename(base: Ino, path: string, newBase: Ino, newPath: string)
    | CChmod(base: Ino, path: string, b: LinkBehavior, canRead: bool, canWrite: bool)

  ghost function Apply(t: Tree, c: Call): (Tree, Outcome)
    requires Shape(t)
  {
    match c
    case CMkdir(base, path, r, w) => Mkdir(t, base, path, r, w)
    case CSymlink(target, base, path) => Symlink(t, target, base, path)
    case COpen(base, path, flags, r, w, wantFd) => Open(t, base, path, flags, r, w, wantFd)
    case CUnlink(base, path, removeDir) => Unlink(t, base, path, removeDir)
    case CRename(base, path, newBase, newPath) => Rename(t, base, path, newBase, newPath)
    case CChmod(base, path, b, r, w) => Chmod(t, base, path, b, r, w)
  }
}
