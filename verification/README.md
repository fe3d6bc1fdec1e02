# A verified model of WasmFS

This project models the in-memory file system of Emscripten, WasmFS, and proves what its calls do to the directory
tree, to path resolution, to file contents, to open files, and to two directory adapters. It is one Dafny module a
file.

The directory tree comes in two forms that are proved equal. `FileSystem` has the objects of the memory backend, which
point at each other with parent pointers and entry vectors and are updated in place; a ghost tree records what the
pointers say. `Trees`, `Resolve` and `Syscalls` define the same operations on that tree as functions, and `TreeLaws`,
`SyscallLaws`, `PathLaws`, `Worklist` and `Runs` prove their laws. The main results are the invariant of every run,
the exact condition under which a move keeps the tree a tree, the agreement of path resolution with an independent
resolution machine, the round trip through getcwd, and what one rename changes. `Answers` says for each call when it
succeeds, with which error it fails and what it gives. `LinkCounts` says where open and resolution part, and
`Sessions` carries the runs over to the objects: programs of calls on the object graph.

`NameMaps` is the map that a directory tree is to its callers: from (directory, name) to the identity of a file, with
the operations find, put, take, unmount and rename. Both adapters implement it. `CachedFiles` has their objects,
updated in place; `DirCaches` is the directory cache over a backend that hands out a new object at every lookup, and
`IgnoreCase` the case-insensitive adapter. `ObjectCaches` is the specification both refine, `ObjectRuns` proves that
every run of it is a run of the map with one object for each file, and `Spellings` that a listing shows what the
history of the calls says. `TreeViews` proves that the memory directory implements the same map.

`Bytes`, `Histories` and `DataFiles` cover the contents of memory files and vectored reads and writes, `Atomic` the
locking that makes them atomic, `IoEffects` what each serial call does to bytes and positions, `FileTables` the
descriptor table with its use counts, `OpenStates` the shared handles of the OPFS and Node backends, `Pipes` and
`Dirents` pipes and directory listings. `Witnesses` has inputs for the differences listed below.

Inode numbers stand for object identity. A call's base directory is a parameter, as is every answer of a foreign
function or of a backend that may fail. Sizes and offsets are mathematical integers, and the largest size of a buffer
is a parameter.

Where the code differs from its own documentation or from POSIX, the model follows the code:

- Trailing slashes are ignored (wasmfs/paths.cpp:78-81).
- getcwd asks for a buffer strictly larger than the path with its terminator (wasmfs/syscalls.cpp:789).
  `Witnesses.GetcwdWantsOneMore` gives an input.
- open follows a link at the leaf with a counter that starts again at zero (wasmfs/syscalls.cpp:507-510), so it
  accepts paths that resolution refuses with ELOOP. `LinkCounts.OpenAgreesWithParse` says exactly which, and
  `Witnesses.OpenPastTheLimitHappens` gives an input.
- rmdir of "." in an empty directory succeeds and removes nothing; only a path that ends in "/." is refused
  (wasmfs/syscalls.cpp:849). `SyscallLaws.UnlinkEffect` says so, and `Witnesses.RmdirDotHappens` gives an input.
- A rename onto the leaf "." of an empty directory makes an entry called "." (wasmfs/syscalls.cpp:1076-1096).
  `Runs.RenameOntoDotHappens` gives the input, `SyscallLaws.RenameKeepsNames` and `SyscallLaws.DotGuards` the exact
  condition in terms of the guards of the call.
- A rename into a detached directory dereferences null (wasmfs/syscalls.cpp:1069). The model calls this `Fault`, which
  ends a run. `Witnesses.RenameFaultHappens` gives the input, `Runs.RenameFaultsOnlyWhenDetached` the exact condition.
- dup3 always ignores its flags argument, drops the file it replaces and never closes it (wasmfs/syscalls.cpp:53-75),
  and a failing O_TRUNC leaves the file open (wasmfs/syscalls.cpp:552-558). `Witnesses.Dup3MissesAClose` and
  `Witnesses.TruncMissesAClose` give inputs, and `FileTables.OpensAreDescriptions` says exactly which runs balance.
- The use counts of the three standard streams lag one behind (wasmfs/file_table.cpp:14-24), so the table hands a
  stream back for closing while a slot still holds it. `Witnesses.StreamClosesEarly` gives the input.
- An empty write past the end of a file extends it (wasmfs/backends/memory_backend.cpp:17-24).
  `Witnesses.EmptyWriteExtends` gives an input.
- Removing a mount leaves the parent pointer of the unmounted file set (wasmfs/file.cpp:195-198).
  `DirCaches.UnmountKeepsParent` gives an input.

## Model

| member | source | states |
|---|---|---|
| Runs.EveryRunKeepsTheTree | wasmfs/syscalls.cpp:1068-1100 | After every run of mkdir, symlink, open, unlink, rmdir, rename and chmod from the initial tree: a file is among the entries of a directory exactly when its parent pointer names that directory, it sits under at most one (directory, name), names differ within a directory, and every linked file reaches the root in finitely many parent steps |
| TreeLaws.MoveKeepsShape | wasmfs/backends/memory_backend.cpp:71-85 | A move keeps the tree a tree if and only if the new directory is not inside the moved file and what is overwritten has nothing else below it: the ancestor walk and the emptiness check are each necessary and together sufficient |
| TreeLaws.MoveInsideIsCyclic | wasmfs/syscalls.cpp:1068-1073 | Without the ancestor walk, moving a directory below itself leaves a cycle from which no parent chain ends |
| TreeLaws.MoveEffect | wasmfs/backends/memory_backend.cpp:71-85 | A move changes exactly two (directory, name) pairs and the parents of exactly the moved and the overwritten file |
| TreeLaws.RemoveKeepsShape | wasmfs/backends/memory_backend.cpp:53-60 | Removing an entry keeps the tree a tree if and only if the removed file has no entries of its own |
| TreeLaws.AttachKeepsShape | wasmfs/memory_backend.h:62-90 | Inserting a new file under a free name of a linked directory keeps the tree a tree |
| SyscallLaws.ClimbFindsAncestors | wasmfs/syscalls.cpp:1068-1073 | From a linked directory the ancestor walk ends, and it reports a hit exactly when the moved file lies on the way to the root |
| SyscallLaws.ChecksSuffice | wasmfs/syscalls.cpp:1080-1096 | The destination checks of rename exclude the leaf ".." and leave nothing below what is overwritten, also for the leaf "." |
| SyscallLaws.RenameKeepsShape | wasmfs/syscalls.cpp:1038-1100 | Rename keeps the tree a tree, whatever its arguments |
| SyscallLaws.DotGuards | wasmfs/syscalls.cpp:1038-1100 | Rename succeeds in moving something onto the leaf "." if and only if the source is a directory other than the root and the destination and not above it, the destination is linked, empty and not the root, and both parents are writable |
| SyscallLaws.RenameKeepsNames | wasmfs/syscalls.cpp:1076-1096 | Rename leaves only entry names a path can spell if and only if those guards do not hold |
| SyscallLaws.UnlinkEffect | wasmfs/syscalls.cpp:835-892 | A successful unlink or rmdir removes exactly its (directory, name) pair and detaches the file; for the leaf "." rmdir succeeds only on an empty directory and changes nothing |
| SyscallLaws.ApplyIsAChange | wasmfs/syscalls.cpp:419-1122 | Every call is one of five changes: none, a new empty file under a free name, the removal of an empty file, a move that is not into itself, or a change of mode |
| SyscallLaws.ChangeKeeps | wasmfs/file.cpp:39-209 | Each of the five changes keeps the tree a tree, keeps detached files detached, and keeps entry names as they must be |
| Runs.DetachedForGood | wasmfs/file.cpp:56-60 | Once detached, a directory stays empty, every lookup in it fails, and it is never an entry of a directory again, over all continuations of the run |
| Runs.NamesStayOk | wasmfs/syscalls.cpp:999-1100 | In a run that never moves onto the leaf ".", every entry name stays non-empty, at most 255 characters, free of "/" and not "." or ".." |
| Runs.RenameOntoDotHappens | wasmfs/syscalls.cpp:1076-1096 | The exception is real: renaming "dev" onto "tmp/." in the initial tree leaves an entry called ".", and the printed path of the moved directory no longer leads to it |
| Runs.DotRenameHides | wasmfs/syscalls.cpp:1076-1096 | Whatever directory is moved onto a leaf ".", the path getcwd prints for it is lost |
| Runs.FailureChangesNothing | wasmfs/syscalls.cpp:999-1100 | A call that returns an error leaves the whole tree as it was |
| Runs.RenameFaultsOnlyWhenDetached | wasmfs/syscalls.cpp:1068-1073 | The ancestor walk of rename dereferences null if and only if the new parent is detached and no earlier check stops the call |
| Runs.RenameEffect | wasmfs/syscalls.cpp:1038-1100 | A successful rename of distinct files: the new pair yields the moved file, its old pair is gone, an overwritten file is detached, and no other pair changes |
| Runs.RenameKeepsPathsBelow | wasmfs/paths.cpp:64-127 | After a successful rename every relative path without ".." that resolves below the moved file without expanding a link resolves there to the same file, or the same error, as before |
| Answers.RenameAnswers | wasmfs/syscalls.cpp:1038-1100 | A rename of distinct files succeeds if and only if the name is at most 255 long, the source exists, neither file is the root, both parents are writable, the new parent is linked and not inside the source, and what is overwritten is an empty directory for a directory and no directory for any other file; each error is returned exactly when its guard is the first to fail |
| Answers.RenameOfPaths | wasmfs/syscalls.cpp:999-1037 | The first of the two paths that does not resolve decides the error |
| Answers.KindsDoNotMix | wasmfs/syscalls.cpp:1077-1091 | In the initial tree with a new file "f", renaming "tmp" onto it is ENOTDIR and renaming it onto "tmp" EISDIR |
| Answers.OpenAnswers | wasmfs/syscalls.cpp:503-563 | Without O_CREAT, open gives a descriptor of a file if and only if that is the file its path leads to and the kind and permission bits of that file grant what the flags ask for |
| Answers.OpenRefuses | wasmfs/syscalls.cpp:516-558 | When they do not, EISDIR, EACCES and ENOTDIR are returned each exactly under its own condition on kind, bits and flags |
| Answers.OpenCreates | wasmfs/syscalls.cpp:448-500 | With O_CREAT a missing leaf of a linked directory becomes a new data file with the bits asked for, which is what is opened and what a lookup of the leaf finds afterwards; ENOENT otherwise |
| Answers.OpenExistingLeaf | wasmfs/syscalls.cpp:503-522 | On an existing leaf O_CREAT alone changes nothing, and with O_EXCL the answer is EEXIST, after a link has been followed |
| Answers.OpenStops | wasmfs/syscalls.cpp:419-441 | A bad access mode is EINVAL before anything else, then comes the error of the path, then ENAMETOOLONG for a leaf over 255 characters |
| Answers.MkdirAnswers | wasmfs/syscalls.cpp:611-664 | mkdir succeeds if and only if the name is at most 255 long and free and the parent is writable and linked, with each error exactly when its check is the first to fail, and makes an empty directory with the two bits asked for, which a lookup finds |
| Answers.OnlyTmpIsWritable | wasmfs/wasmfs.cpp:110-125 | In a new file system mkdir is EACCES in "dev" and works in "tmp" |
| Answers.SymlinkAnswers | wasmfs/syscalls.cpp:1104-1122 | symlink succeeds if and only if the name is at most 255 long and free and the parent is linked, and makes a link with the target given |
| Answers.NewLinkLeadsToTarget | wasmfs/paths.cpp:46-58 | Following the new link is resolving its target from the directory the link is in, with one more link counted; not following it gives the link |
| Answers.UnlinkAnswers | wasmfs/syscalls.cpp:853-891 | unlink takes exactly files that are no directory and rmdir exactly empty directories, never the root, from a writable parent; each error is returned exactly when its guard is the first to fail |
| Answers.DotIsRefused | wasmfs/syscalls.cpp:843-852 | rmdir refuses exactly the paths that end in "/." and any number of slashes |
| Answers.RmdirOfDot | wasmfs/syscalls.cpp:843-852 | On such a path rmdir is EINVAL and changes nothing |
| Answers.ChmodAnswers | wasmfs/syscalls.cpp:1202-1216 | chmod sets both bits of exactly the file its path leads to, the link itself if links are not followed and never a link if they are, and changes no other node |
| Answers.GetcwdAnswers | wasmfs/syscalls.cpp:749-796 | getcwd fails with EFAULT, EINVAL, ENOENT and ERANGE each exactly under its own condition on buffer, size and directory |
| Answers.PathErrors | wasmfs/paths.cpp:23-35 | A base that is not open is EBADF, one that is no directory ENOTDIR, and a call whose path does not resolve fails with the error of the path and changes nothing |
| Runs.GetcwdResolves | wasmfs/syscalls.cpp:749-796 | After any run, getcwd succeeds exactly when the working directory is linked and the buffer is larger than the path with its terminator, and then the path resolves to that directory with no link expanded, unless some name on the way is "." |
| Worklist.ResolutionAgrees | wasmfs/paths.cpp:37-127 | The nested code returns exactly what an independent, unbounded work-list machine (after section 4.13 of POSIX.1-2017 Base Definitions) returns, with the same number of expansions, whenever that needs at most 40; it returns ELOOP if and only if the machine needs more, whether or not it would ever stop |
| PathLaws.ResolutionComposes | wasmfs/paths.cpp:64-127 | Resolving "p/q" is resolving p, which must be a directory, and then q from there with the link counter carried over; ENOTDIR otherwise |
| PathLaws.CwdRoundTrip | wasmfs/syscalls.cpp:760-796 | The printed path of a linked directory resolves back to it, from any base and with no link expanded, if and only if "." is not among the names on the way |
| Resolve.LeafIsComponent | wasmfs/paths.cpp:64-115 | The leaf a path is split into is never empty and has no "/" |
| Resolve.SlashesAreRoot | wasmfs/paths.cpp:72-88 | A path of slashes only is the root, with leaf "." |
| Resolve.LinkLoopTurnsOnce | wasmfs/paths.cpp:46-58 | The loop that expands links never turns twice, because a followed path never ends at a link |
| LinkCounts.PathShifts | wasmfs/paths.cpp:37-127 | A resolution that starts with links already counted gives the same result with that many more, or ELOOP exactly when the sum exceeds 40 |
| LinkCounts.OpenAgreesWithParse | wasmfs/syscalls.cpp:503-515 | An open without O_CREAT and O_NOFOLLOW, of a leaf that is not too long, agrees with resolving its path as a whole if and only if it is not so that the leaf is a link, the way to it and its target need at most 40 expansions each, and all together more; then resolution gives ELOOP and open does not |
| Resolve.LookupIsLinked | wasmfs/file.cpp:56-80 | Nothing detached is ever found, and nothing is found in a detached directory |
| Paths.ComponentsOfRender | wasmfs/syscalls.cpp:760-778 | Printing names as a path and splitting the path again gives the names back |
| Paths.ComponentsOfJoin | wasmfs/paths.cpp:90-114 | Joining two paths with "/" joins their lists of components |
| Paths.ComponentsOfTrimmed | wasmfs/paths.cpp:78-81 | Ignoring trailing slashes does not change the components |
| FileSystem.WasmFS.Renameat | wasmfs/syscalls.cpp:999-1101 | On the object graph, renameat does to the entries and parent pointers exactly what the specified rename does to the tree, and keeps the graph a tree |
| FileSystem.WasmFS.RenameFound | wasmfs/syscalls.cpp:1068-1100 | The ancestor loop, the overwrite checks and the move, on objects |
| FileSystem.WasmFS.ClimbToRoot | wasmfs/syscalls.cpp:1068-1073 | The ancestor loop over parent pointers terminates on every tree and computes the specified walk |
| FileSystem.WasmFS.Unlinkat | wasmfs/syscalls.cpp:835-892 | unlinkat on objects is the specified unlink |
| FileSystem.WasmFS.Openat | wasmfs/syscalls.cpp:419-564 | open on objects is the specified open, up to the descriptor, and gives the opened object; known files stay known and a created one is new |
| FileSystem.WasmFS.Mkdirat | wasmfs/syscalls.cpp:611-664 | mkdir on objects is the specified mkdir; known files stay known and the created one is new |
| FileSystem.WasmFS.Symlinkat | wasmfs/syscalls.cpp:1104-1122 | symlinkat on objects is the specified symlink; known files stay known and the created one is new |
| FileSystem.WasmFS.Chmodat | wasmfs/syscalls.cpp:1202-1216 | fchmodat changes the mode of the resolved file and nothing else |
| FileSystem.WasmFS.Chdir | wasmfs/syscalls.cpp:724-739 | chdir moves the working directory to the resolved directory or fails and leaves it |
| FileSystem.WasmFS.GetCwd | wasmfs/syscalls.cpp:749-796 | The loop of getcwd over parent pointers terminates and prints the specified path or error |
| FileSystem.WasmFS.ResolveChild | wasmfs/paths.cpp:37-62 | The mutually recursive scan over objects terminates by (remaining links, rank of the call) and computes the specified child |
| FileSystem.WasmFS.ParseParent | wasmfs/paths.cpp:64-115 | The in-place scan of the string equals the fold over its components |
| FileSystem.WasmFS.ParseFile | wasmfs/paths.cpp:117-127 | The scan of a whole path equals its specification |
| FileSystem.WasmFS.GetChild | wasmfs/file.cpp:56-80 | The handle lookup over a memory directory finds what the tree holds, "." and ".." included |
| FileSystem.WasmFS.InsertChild | wasmfs/memory_backend.h:62-90 | Insertion appends the entry and sets the parent; known files stay known and the inserted one is new |
| FileSystem.WasmFS.RemoveChild | wasmfs/backends/memory_backend.cpp:53-60 | Removal clears the parent of the removed file, erases its entry and touches nothing else; an unknown name is no error |
| FileSystem.WasmFS.InsertMove | wasmfs/backends/memory_backend.cpp:71-85 | The erase, remove and push_back of a move over two entry vectors is the specified move |
| FileSystem.File.FindEntry | wasmfs/backends/memory_backend.cpp:39-44 | The search finds the first entry of that name |
| FileSystem.File.GetName | wasmfs/backends/memory_backend.cpp:87-96 | The search finds the name of the entry that holds the file, or the empty string |
| FileSystem.WasmFS.InitRootDirectory | wasmfs/wasmfs.cpp:101-128 | A new file system holds "dev" and "tmp" in a root that is its own parent |
| FileSystem.WasmFS.constructor | wasmfs/wasmfs.cpp:101-107 | The root directory is its own parent |
| Sessions.RunProgram | wasmfs/syscalls.cpp:419-1216 | Any sequence of mkdir, symlink, open, unlink, rmdir, rename, chmod and chdir on the objects, through the working directory or descriptors that earlier calls opened, leaves the objects as the specified run leaves tree, working directory and descriptors, up to a fault; a descriptor that is not open is EBADF and changes nothing |
| Sessions.ProgramIsARun | wasmfs/syscalls.cpp:419-1216 | What such a program does to the tree is the run of its calls, so whatever holds after every run holds after every program |
| Sessions.StepKeepsDescriptors | wasmfs/file_table.cpp:51-61 | Descriptors stay what they are, an opened file gets the next one, and the working directory moves only by a chdir that resolves to a directory |
| Sessions.FromTheStart | wasmfs/wasmfs.cpp:101-128 | Every program on the objects of a new file system ends in objects that say what the tree says after its run from the initial tree, and that are still a tree |
| Sessions.ObjectsAreATree | wasmfs/memory_backend.h:50-65 | In that state, on objects: a file is among the entries of a directory exactly when its parent pointer is that directory, and no two entries of a directory have the same child or the same name |
| Bytes.WriteLoopIsFlat | wasmfs/syscalls.cpp:134-165 | A vectored write stores exactly the leading iovecs before the first that does not fit, as one write of their concatenation, and returns their length; it fails with EIO if and only if that length is zero and not all fit |
| Bytes.VectoredWriteIsFlat | wasmfs/syscalls.cpp:134-165 | When everything fits, a write of at least one iovec is one write of all the bytes |
| Bytes.VectoredReadIsFlat | wasmfs/syscalls.cpp:213-243 | A vectored read equals one read of the total room |
| Bytes.WriteThenRead | wasmfs/syscalls.cpp:134-243 | Bytes written under one split into iovecs read back under any other |
| Bytes.WriteJoins | wasmfs/backends/memory_backend.cpp:16-27 | Two adjacent writes are one write of the joined bytes |
| Histories.ByteOfLatestWrite | wasmfs/backends/memory_backend.cpp:16-27 | A byte below the size is the byte of the latest write that covers it and no later truncation erased, and zero if there is none |
| Histories.EveryRunIsItsHistory | wasmfs/syscalls.cpp:1288-1307 | After any run of write, pwrite, ftruncate, O_TRUNC and fallocate a memory file holds what the history of its edits leaves, and never more than the largest size |
| Histories.WriteIsOneEdit | wasmfs/syscalls.cpp:134-165 | A vectored write, also one that stops at a null pointer or at the largest size, is one edit or none |
| DataFiles.MemoryDataFile.Write | wasmfs/backends/memory_backend.cpp:16-27 | Resize and copy lay the bytes over the file, with zeros in any gap, also for an empty write past the end; EIO and no change beyond the largest size |
| DataFiles.MemoryDataFile.Read | wasmfs/backends/memory_backend.cpp:29-37 | The copy gives the bytes from the offset on, as far as the file goes |
| DataFiles.MemoryDataFile.Fallocate | wasmfs/syscalls.cpp:1442-1482 | fallocate never shrinks the file and keeps every byte it had |
| DataFiles.MemoryDataFile.Truncate | wasmfs/syscalls.cpp:1288-1307 | Truncation cuts or zero-extends, or fails and changes nothing |
| DataFiles.Description.WriteAtOffset | wasmfs/syscalls.cpp:95-175 | write and pwrite: the append rule, the loop over iovecs, and the position, which moves by exactly the count for write only |
| DataFiles.Description.ReadAtOffset | wasmfs/syscalls.cpp:181-250 | read and pread: buffers are filled in order with content from the offset on, EINVAL and no other error exactly when a null pointer with a length is reached, and the position moves by exactly the count for read only |
| Atomic.CallsAreAtomic | wasmfs/syscalls.cpp:110-175 | In every interleaving of iovec-sized steps by any threads through any descriptions of one file, the answers, bytes and positions are those of the calls made one at a time in the order they took the file lock |
| Atomic.AppendsAreWhole | wasmfs/syscalls.cpp:118-130 | An appending write that fits puts its bytes, whole and unmixed, at the end of the file as the calls before it left it |
| Atomic.TurnCompletes | wasmfs/syscalls.cpp:134-165 | Running one turn of a call's loop early does not change how the call ends |
| Atomic.ReadsAreFlat | wasmfs/syscalls.cpp:213-243 | A read that meets no null pointer gives, in such a run, what one flat read gives of the file as the calls before it in the order of the locks left it |
| Atomic.NoDeadlock | wasmfs/syscalls.cpp:110-130 | Unless all threads are idle, one of them can always take its next step |
| IoEffects.ReadEffect | wasmfs/syscalls.cpp:181-250 | In the serial run a read gives what one flat read from the position of its description gives and moves that position by exactly as much; it fails, with EINVAL and no effect, exactly when a null pointer with a length is reached |
| IoEffects.PreadEffect | wasmfs/syscalls.cpp:181-250 | pread does the same at its own offset and moves nothing |
| IoEffects.WriteEffect | wasmfs/syscalls.cpp:95-175 | A write starts at the end of the file if its description appends, else at its position, and moves that position past the count; if it fails, an appending description stands at the end and any other where it was |
| IoEffects.PwriteEffect | wasmfs/syscalls.cpp:95-175 | pwrite writes at its own offset, even on an appending description, and moves nothing |
| IoEffects.TruncateEffect | wasmfs/syscalls.cpp:1288-1330 | ftruncate cuts or extends with zeros and moves nothing, or is EINVAL on a file that is not writable |
| IoEffects.ReadsAreAdjacent | wasmfs/syscalls.cpp:245-248 | Two reads in a row through one description give together what one read of both rooms gives |
| IoEffects.WriteThenPread | wasmfs/syscalls.cpp:95-250 | What a write puts where it starts, a pread from there gives back |
| IoEffects.WriteAnswers | wasmfs/syscalls.cpp:134-165 | A vectored write stores its leading iovecs up to the first null pointer with a length or the first that passes the largest size, as one write of their bytes, and returns EINVAL for the pointer, the count for the size, or EIO if that count is zero |
| IoEffects.ReadAgrees | wasmfs/syscalls.cpp:181-250 | read and pread on the description object leave file and position as the serial calls do, with the same answer |
| IoEffects.WriteAgrees | wasmfs/syscalls.cpp:95-175 | write and pwrite on the description object leave file and position as the serial calls do, with the same answer |
| FileTables.FileTable.constructor | wasmfs/file_table.cpp:14-24 | Three slots with use counts of zero, because the constructor bypasses setEntry |
| FileTables.FileTable.SetEntry | wasmfs/file_table.cpp:33-49 | Use counts stay equal to the number of slots, one less for the three streams, and the returned data file is the one whose description just lost its last slot (for a stream, its last but one) |
| FileTables.FileTable.AddEntryFrom | wasmfs/file_table.cpp:51-61 | The search ends and takes the least free descriptor at or above its start |
| FileTables.FileTable.Dup | wasmfs/syscalls.cpp:77-86 | dup and F_DUPFD put the description into the least free descriptor at or above the start, or fail and change nothing |
| FileTables.FileTable.Dup3 | wasmfs/syscalls.cpp:53-75 | dup3 replaces the slot, and a close it forgets is recorded against the dropped file |
| FileTables.FileTable.Close | wasmfs/syscalls.cpp:285-303 | close empties the slot, closes the file exactly when its description lost its last slot, and returns the negated answer of the backend exactly when that releases an access handle, zero otherwise; EBADF for an empty slot and nothing else |
| FileTables.FileTable.Open | wasmfs/syscalls.cpp:543-563 | The end of open: it is refused exactly when the file's open fails, gives up exactly when O_TRUNC is asked of something that is no data file or not writable, which leaves the file open with no description, and otherwise a new description takes the least free descriptor |
| FileTables.CallBalances | wasmfs/syscalls.cpp:53-86 | One dup, F_DUPFD, dup3, close or open moves opens minus closes of a file and its number of descriptions by the same amount, unless it meets the guard of a missed close, which loses exactly one |
| FileTables.RunCounts | wasmfs/file_table.cpp:33-87 | Over every run of table calls, opens minus closes exceed the descriptions by exactly the number of calls that met such a guard |
| FileTables.OpensAreDescriptions | wasmfs/file_table.cpp:33-87 | Opens minus closes of a file equal the number of its descriptions in the table if and only if no dup3 of the run overwrote the last slot of another description of it and no O_TRUNC of the run failed after opening it |
| FileTables.FileTable.HandleWhileDescribed | wasmfs/backends/opfs_backend.cpp:100-120 | With no close missed, the OPFS handle of a file is gone exactly when no descriptor remains |
| FileTables.DescriptionsAfter | wasmfs/file_table.cpp:33-49 | One change of slot adds at most the new description and drops the old one exactly when it has no slot left |
| FileTables.UpdatedIs | wasmfs/file_table.cpp:33-49 | A changed table has the new content in that slot and the old in all others, with empty slots up to it |
| OpenStates.OpfsFile.Open | wasmfs/backends/opfs_backend.cpp:56-98 | For any answers of the foreign calls: one handle while the count is positive, an access handle if and only if some open since zero asked to write; a first open takes the handle answered, a write on a blob replaces it and releases the blob, any other open keeps it; it fails exactly when such a call answers with an error, and then nothing changes |
| OpenStates.OpfsFile.Close | wasmfs/backends/opfs_backend.cpp:100-120 | The handle is released exactly when the count reaches zero |
| OpenStates.NodeState.Open | wasmfs/backends/node_backend.cpp:39-83 | One descriptor while the count is positive, open for reading alone or writing alone exactly when nothing else was asked for since zero, although only the last requested mode is recorded; a first open or an upgrade takes the descriptor answered, any other open keeps it; a failed call changes nothing |
| OpenStates.NodeState.Close | wasmfs/backends/node_backend.cpp:85-92 | The descriptor is closed exactly when the count reaches zero |
| NameMaps.ChangeKeepsSound | wasmfs/file.cpp:39-209 | Every change whose places are free or hold something empty keeps the map sound: one place for each file, and names only in directories with a parent |
| NameMaps.UntouchedStays | wasmfs/file.cpp:142-209 | A name keeps its file, and an absent name stays absent, until that very name is put, taken, unmounted or renamed |
| ObjectRuns.StepSimulates | wasmfs/file.cpp:56-209 | Each lookup, insertion, mount, removal and move of either adapter is one change of the map and keeps the invariant; a lookup answers what the map answers, and objects and the files they stand for stay |
| ObjectRuns.StepReturns | wasmfs/file.cpp:82-209 | An insertion returns a new object of the kind asked for, for a new file that is now at the name; nothing can be inserted or mounted in a detached directory and a move into it is EPERM; a removal and a move otherwise return the backend's error, and a removal of a mount none |
| ObjectRuns.EveryRunSimulates | wasmfs/file.cpp:56-209 | After every run of operations the objects show exactly the map after the same run of changes |
| ObjectRuns.RunsFromTheStart | wasmfs/file.cpp:39-54 | From a root object over a backend that already stores any tree, after every run: two objects never stand for the same file, and a remembered child has the directory as its parent, is filed under the folded form of its spelling, and is the backend's file of that name or a mount |
| ObjectRuns.OneObjectForGood | wasmfs/file.cpp:67-79 | A file never gets a second object in any run, although the backend makes a new one at every lookup |
| ObjectRuns.SameObjectUntilTouched | wasmfs/file.cpp:56-80 | An object that a lookup returned is returned again, under any spelling of the same key, by a lookup after any run in which its name is not removed, unmounted, moved away or overwritten |
| ObjectRuns.DetachedIsEmpty | wasmfs/file.cpp:56-60 | A directory without a parent remembers nothing, its backend stores nothing in it, and every lookup in it fails |
| ObjectRuns.DetachedForGood | wasmfs/file.cpp:191-209 | An object that lost its parent by a removal or an overwrite never has one again in any run that does not mount it |
| TreeViews.LookupIsFind | wasmfs/backends/memory_backend.cpp:39-51 | The handle's lookup over a memory directory is the lookup of the map |
| TreeViews.AttachIsPut | wasmfs/memory_backend.h:62-90 | An insertion into a memory directory is the put of the map |
| TreeViews.RemoveIsTake | wasmfs/backends/memory_backend.cpp:53-60 | A removal from a memory directory is the take of the map |
| TreeViews.MoveIsRename | wasmfs/backends/memory_backend.cpp:71-85 | A move between memory directories is the rename of the map |
| TreeViews.CallIsAChange | wasmfs/syscalls.cpp:419-1122 | Each call makes exactly one change of the map, given by the places its paths lead to: mkdir, symlink and a creating open put a new file, unlink and rmdir take a name, rename renames the entry of its source, and every other call does nothing |
| TreeViews.RunShowsAMap | wasmfs/syscalls.cpp:419-1122 | From any tree, a run of calls leaves a tree that shows the map after the changes of those calls in order |
| TreeViews.EveryRunShowsAMap | wasmfs/syscalls.cpp:419-1122 | After every run from a new file system, every lookup through a directory handle finds what the map of "dev" and "tmp" holds after the changes of the calls, and that map has one place for each file |
| CachedFiles.Files.constructor | wasmfs/wasmfs.cpp:101-107 | The root object, its own parent, over a backend that already stores any tree |
| CachedFiles.File.FindKey | wasmfs/file.cpp:149-154 | The search of the children for an object gives its key, or finds it under no key |
| CachedFiles.Files.Relocate | wasmfs/file.cpp:159-182 | Erasing the old entry, clearing the parent of what is overwritten and setting the new entry and parent, in the order of the code, is the specified move |
| DirCaches.GetChild | wasmfs/file.cpp:56-80 | A lookup on objects is the specified lookup and leaves the map as it was |
| DirCaches.Insert | wasmfs/file.cpp:93-107 | An insertion on objects is the specified insertion, the put of the map if the directory is linked and the backend succeeds and nothing otherwise |
| DirCaches.InsertMove | wasmfs/file.cpp:142-189 | A move on objects is the specified move, whatever it overwrites; if that is empty it is the rename of the map; an error changes nothing |
| DirCaches.RemoveChild | wasmfs/file.cpp:191-209 | A removal on objects is the specified removal, whatever is removed; if that is empty it is the take of the map, or for a mount its unmount, which leaves the parent pointer set; an error changes nothing |
| DirCaches.MountChild | wasmfs/file.cpp:82-91 | A mount enters the cache and the map and leaves the backend as it was; it fails in a detached directory |
| DirCaches.GetName | wasmfs/file.cpp:211-222 | The search of the cache gives the name of the object or the empty string |
| DirCaches.SameDirectory | wasmfs/file.cpp:56-80 | A directory that is inserted is found again as the same object |
| DirCaches.RemovedDirectory | wasmfs/file.cpp:56-60 | A directory that is inserted and removed finds nothing and refuses insertions |
| DirCaches.UnmountKeepsParent | wasmfs/file.cpp:191-198 | A directory that is mounted and unmounted is not found any more, while its parent pointer still names the directory it was mounted in |
| IgnoreCase.Normalize | wasmfs/backends/ignore_case_backend.cpp:23-29 | The loop lower-cases every letter |
| Folding.SameKeyIffEqualUpToCase | wasmfs/backends/ignore_case_backend.cpp:23-29 | Two names have the same key if and only if they have the same length and at each place the same character, or a letter 'A' to 'Z' and the same letter of 'a' to 'z' |
| Folding.LowerByLetter | wasmfs/backends/ignore_case_backend.cpp:23-29 | Folding replaces each letter 'A' to 'Z' by the letter at the same place of 'a' to 'z' and keeps every other character |
| Spellings.StepFollows | wasmfs/backends/ignore_case_backend.cpp:92-179 | Each operation keeps every remembered spelling, except that an insertion, a move or a first lookup of a key sets the one it was called with and a removal or a move away forgets one |
| Spellings.ShownIsTheHistory | wasmfs/backends/ignore_case_backend.cpp:181-192 | After every run over whatever the real directory held, a listing shows each stored name as the latest insertion of it or move to it spelled it; if there was none, as the first lookup that found it spelled it; and if there was none of those either, as it is stored |
| IgnoreCase.GetChild | wasmfs/backends/ignore_case_backend.cpp:92-105 | A lookup on objects is the specified lookup under the lower-case name, and leaves the map as it was |
| IgnoreCase.Insert | wasmfs/backends/ignore_case_backend.cpp:106-141 | An insertion on objects is the specified insertion under the lower-case name with the given spelling, the put of the map, or fails and changes nothing |
| IgnoreCase.InsertMove | wasmfs/backends/ignore_case_backend.cpp:143-167 | A move of a data file or directory on objects is the specified move to the new key and spelling and clears the parent of an overwritten child, whatever that is; if it is empty the move is the rename of the map; an error changes nothing |
| IgnoreCase.RemoveChild | wasmfs/backends/ignore_case_backend.cpp:169-179 | Removal of a known name on objects is the specified removal and clears the parent, whatever is removed; if that is empty it is the take of the map; an error changes nothing |
| IgnoreCase.GetEntries | wasmfs/backends/ignore_case_backend.cpp:181-192 | The loop over the real directory's listing, each name once and in any order, replaces every name that has a remembered spelling and no other |
| IgnoreCase.GetName | wasmfs/backends/ignore_case_backend.cpp:194-201 | The search gives the stored spelling of the object or the empty string |
| IgnoreCase.InsertThenFind | wasmfs/backends/ignore_case_backend.cpp:92-141 | On objects, what is inserted under one name is found, as the same object, under every name that agrees with it letter by letter up to case |
| IgnoreCase.ReadmeIsFound | wasmfs/backends/ignore_case_backend.cpp:92-141 | "README" finds what was inserted as "readme" |
| Dirents.ListingIsComplete | wasmfs/syscalls.cpp:951-995 | Reading an open directory to its end gives exactly ".", ".." and the entries at the moment of opening, each once and in order, whatever calls happen in between, and one more call gives nothing, as long as the directory stays linked |
| Dirents.BatchesAreTheSnapshot | wasmfs/syscalls.cpp:951-995 | However the calls are sized and interleaved with changes of the tree, the batches concatenate to the cached list from the position on |
| Dirents.DetachedListsNothing | wasmfs/syscalls.cpp:951-956 | Once the directory is detached, no later call gives an entry |
| Dirents.SnapshotNamesDiffer | wasmfs/file_table.cpp:72-81 | No name comes twice in a listing if and only if no entry is called "." |
| Dirents.ListingHasTheEntries | wasmfs/backends/memory_backend.cpp:62-69 | The listing has exactly the entries of the directory |
| Dirents.OpenDirectory | wasmfs/file_table.cpp:72-81 | Opening a directory caches ".", ".." and its entries |
| Dirents.SnapshotIs | wasmfs/file_table.cpp:72-81 | The cached list is the directory itself, its parent, and the entries in their order, each with its file's number and kind |
| Dirents.DirDescription.GetDents | wasmfs/syscalls.cpp:931-997 | One call stores as many records as fit, with their offsets, and moves the position by that many; EINVAL exactly when no record fits, ENOTDIR exactly for anything else that is no directory, and the empty answer of a detached directory |
| Pipes.FirstInFirstOut | wasmfs/pipe_backend.h:29-45 | Over every run, what came out followed by what is queued is what was there followed by what went in |
| Pipes.PipeFile.Read | wasmfs/pipe_backend.h:36-45 | A read takes bytes from the front and is short exactly when the queue runs out |
| Pipes.PipeFile.Write | wasmfs/pipe_backend.h:29-34 | A write puts all its bytes at the end |
| Pipes.PipeFile.WriteVectors | wasmfs/syscalls.cpp:134-165 | Any split into iovecs puts the same bytes in; what precedes a null pointer stays in although the call fails |
| Pipes.PipeFile.ReadVectors | wasmfs/syscalls.cpp:213-243 | Buffers are filled in order from the front of the queue; bytes taken before a null pointer are gone from the queue although the call fails |
| Witnesses.RmdirDotHappens | wasmfs/syscalls.cpp:849 | rmdir(".") in the empty "tmp" of the initial tree succeeds and changes nothing |
| Witnesses.RenameFaultHappens | wasmfs/syscalls.cpp:1068-1073 | After rmdir("tmp") in the initial tree, a rename into that directory dereferences null |
| Witnesses.Dup3MissesAClose | wasmfs/syscalls.cpp:53-75 | An open followed by dup3 over its only descriptor leaves the file open once with no description of it |
| Witnesses.TruncMissesAClose | wasmfs/syscalls.cpp:552-558 | An open with O_TRUNC of a file that is not writable fails with EACCES and leaves it open once with no description of it |
| Witnesses.StreamClosesEarly | wasmfs/file_table.cpp:14-24 | After dup(0), emptying the copy's slot hands standard input back for closing while slot 0 still holds it |
| Witnesses.OpenPastTheLimitHappens | wasmfs/syscalls.cpp:503-515 | After symlink(".", "s") in the initial tree, a path of 41 times "s" can be opened, while resolving it as a whole gives ELOOP |
| Witnesses.GetcwdWantsOneMore | wasmfs/syscalls.cpp:789 | For the working directory "/dev" a buffer of 5 bytes gives ERANGE and one of 6 the path |
| Witnesses.EmptyWriteExtends | wasmfs/backends/memory_backend.cpp:17-24 | A write of nothing at offset 3 makes an empty file three zeros long |

## Left out

- Mounts in the directory tree, the mount and unmount calls, and calls that cross backends: mounts appear only in
  `DirCaches`.
- Mounts over an ignore-case directory.
- The special files mounted in "dev", preloaded files and directories, and the standard streams beyond their three
  table slots.
- Timestamps, stat, statfs, access checks, ownership, ioctl, poll, mmap, and the socket stubs.
- Permission bits beyond one read and one write bit for a file, which is what the modelled checks look at.
- 64-bit wrap-around of offsets, and with it the EFBIG branch (wasmfs/syscalls.cpp:145-148).
- Growing a buffer beyond its largest size by truncation or fallocate, where the allocator throws.
- Seeking, including seeking in an open directory.
- Locks of directories and of the table, and deadlock: only the description and file locks of data files are modelled.
- DataFiles.Description.ReadAtOffset: returns what goes into each buffer instead of storing it, so overlap of the
  caller's buffers is not modelled.
- Pipes.PipeFile.ReadVectors: likewise returns the pieces.
- Histories.EveryRunIsItsHistory: on calls whose truncation or allocation the allocator can serve.
- FileSystem.WasmFS.InitRootDirectory: leaves out the six special files mounted in "dev".
- DataFiles.Description.WriteAtOffset: is given an open description of a data file, so EBADF and EISDIR do not arise,
  and EFBIG is part of the 64-bit wrap-around above.
- IgnoreCase.InsertMove: moves of symbolic links are excluded, because the code casts them to the wrong class
  (wasmfs/virtual.h:117-118).
- DirCaches.InsertMove: moves of mounts are excluded, an acknowledged gap of the code (wasmfs/file.cpp:156-157).
- ObjectRuns.EveryRunSimulates: on runs in which a removal or an overwrite hits something empty, as the callers check
  (`SyscallLaws.ChecksSuffice`, `SyscallLaws.UnlinkEffect`).
- IgnoreCase.RemoveChild: takes a name that was looked up before, as the code asserts.
- Sessions.RunProgram: close and the limit of descriptors are not part of a program; descriptors are numbered in the
  order of opening.
- FileTables.FileTable.Open: which file a path names, and whether it is writable, is `FileSystem.WasmFS.Openat`; here
  both are parameters.
- Runs.EveryRunKeepsTheTree: a run ends at a fault, since the code defines nothing after it.
- A base descriptor that is not open is modelled as an inode number that is not in the tree.
- NUL characters in paths and names.
- The OPFS, Node, fetch and JS backends beyond their open counts, and the proxying of their calls.
- memfs.cpp, the JS-facing wrappers and the fuzzer.
