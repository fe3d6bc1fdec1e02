/** Inputs at which the code does not do what one would expect of it. */
module Witnesses {
  import opened Common
  import opened Paths
  import opened Trees
  import opened TreeLaws
  import opened PathLaws
  import opened Resolve
  import opened Syscalls
  import opened Runs
  import OpenStates
  import DataFiles
  import FileTables
  import LinkCounts

  /** rmdir(".") in an empty writable directory other than the root succeeds and removes nothing. */
  lemma RmdirDotDoesNothing(t: Tree, d: Ino)
    requires Shape(t) && IsDir(t, d) && Linked(t, d) && d != t.root && CanWrite(t, d) && Entries(t, d) == []
    ensures Unlink(t, d, ".", true) == (t, Done)
  {
    ComponentsOfComponent(".");
    assert TrimSlashes(".") == ".";
    assert ParseAt(t, d, ".") == Ok(ParentChild(d, "."));
  }

  /** It happens in the initial tree, with "tmp" as the working directory. */
  lemma RmdirDotHappens()
    ensures RootOk(Initial()) && Unlink(Initial(), 2, ".", true) == (Initial(), Done)
  {
    InitialIsATree();
    LooksLikeInitial();
    RmdirDotDoesNothing(Initial(), 2);
  }

  lemma LooksLikeInitial()
    ensures LooksInitial(Initial())
  {
    InitialIsATree();
  }

  /** After rmdir("tmp"), a rename into that directory, which is still open, dereferences null. */
  lemma RenameFaultHappens()
    ensures Shape(Initial())
    ensures var t := After(Initial(), [CUnlink(0, "tmp", true)]); Apply(t, CRename(0, "dev", 2, "x")).1 == Fault
  {
    InitialIsATree();
    LooksLikeInitial();
    var t := Initial();
    RmdirTmp(t);
    OneCall(t, CUnlink(0, "tmp", true));
    IntoDetached(After(t, [CUnlink(0, "tmp", true)]));
  }

  lemma RmdirTmp(t: Tree)
    requires LooksInitial(t)
    ensures Apply(t, CUnlink(0, "tmp", true)) == (RemoveName(t, 0, "tmp"), Done)
    ensures var t' := RemoveName(t, 0, "tmp");
      && Entries(t', 0) == [Entry("dev", 1)] && IsDir(t', 0) && IsDir(t', 2) && !Linked(t', 2) && Linked(t', 0)
      && CanWrite(t', 0) && CanWrite(t', 2) && t'.root == 0
  {
    ComponentsOfComponent("tmp");
    assert TrimSlashes("tmp") == "tmp" && "tmp"[1..] == "mp" && "mp"[0] != '/';
    assert "dev"[0] != "tmp"[0];
    assert Entries(t, 0)[1..] == [Entry("tmp", 2)];
    assert FindName([Entry("tmp", 2)], "tmp") == Some(2);
    assert EraseName([Entry("tmp", 2)], "tmp") == [];
    assert ParseAt(t, 0, "tmp") == Ok(ParentChild(0, "tmp"));
  }

  lemma IntoDetached(t: Tree)
    requires Shape(t) && Entries(t, 0) == [Entry("dev", 1)] && IsDir(t, 0) && IsDir(t, 2)
    requires !Linked(t, 2) && Linked(t, 0)
    requires CanWrite(t, 0) && CanWrite(t, 2) && t.root == 0
    ensures Apply(t, CRename(0, "dev", 2, "x")).1 == Fault
  {
    ComponentsOfComponent("dev");
    ComponentsOfComponent("x");
    assert ParseAt(t, 0, "dev") == Ok(ParentChild(0, "dev")) && ParseAt(t, 2, "x") == Ok(ParentChild(2, "x"));
    assert Entry("dev", 1) in Entries(t, 0);
    assert Lookup(t, 0, "dev") == Some(1);
    RenameFaultsOnlyWhenDetached(t, ParentChild(0, "dev"), ParentChild(2, "x"));
  }

  /** After symlink(".", "s") a path of 41 times "s" can be opened, although resolving it as a whole gives ELOOP. */
  lemma OpenPastTheLimitHappens()
    ensures Shape(Initial())
    ensures var t := After(Initial(), [CSymlink(".", 0, "s")]);
      var path := Render(LinkCounts.Repeated(41));
      && Open(t, 0, path, LinkCounts.JustRead(), true, true, true) == (t, Opened(0, false))
      && ParseFileAt(t, 0, path, FollowLinks) == Err(ELOOP)
  {
    InitialIsATree();
    LooksLikeInitial();
    var c := CSymlink(".", 0, "s");
    SymlinkS(Initial());
    OneCall(Initial(), c);
    LinkCounts.OpenGoesFurther(After(Initial(), [c]));
  }

  lemma SymlinkS(t: Tree)
    requires LooksInitial(t) && CanRead(t, 0)
    ensures var t' := Apply(t, CSymlink(".", 0, "s")).0; t'.root == 0 && LinkCounts.HasSelfLink(t')
  {
    ComponentsOfComponent("s");
    assert "s"[0] != "dev"[0] && "s"[0] != "tmp"[0];
    assert ParseAt(t, 0, "s") == Ok(ParentChild(0, "s"));
    assert Entries(t, 0)[1..] == [Entry("tmp", 2)];
    assert FindName([Entry("tmp", 2)], "s").None?;
    AttachEffect(t, 0, "s", Link("."), false, false);
    var es := Entries(t, 0) + [Entry("s", t.next)];
    assert es[1..] == [Entry("tmp", 2), Entry("s", t.next)] && es[1..][1..] == [Entry("s", t.next)];
    assert FindName([Entry("s", t.next)], "s") == Some(t.next);
    assert FindName(es[1..], "s") == Some(t.next) && es[0] == Entry("dev", 1);
    assert FindName(es, "s") == Some(t.next);
  }

  /** For "/dev" with its terminator, 5 bytes are not enough and 6 are. */
  lemma GetcwdWantsOneMore()
    ensures Shape(Initial())
    ensures Getcwd(Initial(), 1, false, 5) == Err(ERANGE) && Getcwd(Initial(), 1, false, 6) == Ok("/dev")
  {
    InitialIsATree();
    LooksLikeInitial();
    var t := Initial();
    assert Entry("dev", 1) in Entries(t, 0);
    assert NamesTo(t, 0) == [] && FindChild(Entries(t, 0), 1) == "dev";
    assert NamesTo(t, 1) == [] + ["dev"];
    assert ["dev"][1..] == [] && Render(["dev"]) == "/" + "dev" + "" == "/dev";
  }

  // ---------- file contents ----------

  /** A write of nothing at offset 3 makes an empty file three bytes long. */
  method EmptyWriteExtends() returns (file: DataFiles.MemoryDataFile, r: Result<nat>)
    ensures r == Ok(0) && file.buffer == [0, 0, 0]
  {
    file := new DataFiles.MemoryDataFile(10);
    r := file.Write([], 3);
  }

  // ---------- the descriptor table ----------

  lemma FourthSlot(es: seq<FileTables.OpenFileState?>, o: FileTables.OpenFileState)
    requires |es| == 3 && forall k | 0 <= k < 3 :: es[k] != null
    ensures FileTables.LeastFree(es, 0) == 3 && FileTables.Updated(es, 3, o) == es + [o]
    ensures FileTables.Updated(es + [o], 3, es[0]) == es + [es[0]]
    ensures FileTables.Updated(es + [o], 3, null) == es + [null]
  {
    assert FileTables.Padded(es, 3) == es + [null];
    assert FileTables.LeastFree(es, 3) == FileTables.LeastFree(es, 2) == FileTables.LeastFree(es, 1) == 3;
  }

  method NewTable() returns (table: FileTables.FileTable)
    ensures table.Valid() && fresh(table) && fresh(table.descs) && fresh(table.files) && |table.entries| == 3
    ensures table.entries[0] != table.entries[1] && table.entries[0] != table.entries[2]
    ensures forall k | 0 <= k < 3 ::
      && table.entries[k] != null && table.entries[k].stream
      && table.entries[k].file.special && table.entries[k].file.isData
  {
    var a := new OpenStates.OpfsFile(true, true);
    var b := new OpenStates.OpfsFile(true, true);
    var c := new OpenStates.OpfsFile(true, true);
    table := new FileTables.FileTable(a, b, c);
  }

  /** open, then dup3 over the only descriptor: the file stays open and no descriptor is left. */
  method Dup3MissesAClose() returns (file: OpenStates.OpfsFile, table: FileTables.FileTable)
    ensures table.Valid() && file.openCount == 1
    ensures FileTables.Descriptions(table.entries, file) == {}
  {
    ghost var es;
    table, file, es := WithOpenFile();
    OpenThenDup3(es, table.entries[3]);
    var copy := table.Dup3(0, 3);
    NotAmong(es, file);
  }

  /** A new table in which the fourth slot holds an open file. */
  method WithOpenFile() returns (table: FileTables.FileTable, file: OpenStates.OpfsFile,
                                 ghost es: seq<FileTables.OpenFileState?>)
    ensures table.Valid() && fresh(table) && fresh(table.descs) && file.openCount == 1 && !file.special
    ensures |es| == 3 && forall k | 0 <= k < 3 :: es[k] != null && es[k].file.special
    ensures |table.entries| == 4 && table.entries[3] != null && table.entries == es + [table.entries[3]]
  {
    file := new OpenStates.OpfsFile(true, false);
    table := NewTable();
    es := table.entries;
    var r := table.Open(file, OpenStates.ReadOnly, 7, false, true);
    FourthSlot(es, FileTables.Slot(table.entries, r.fd));
  }

  lemma OpenThenDup3(es: seq<FileTables.OpenFileState?>, made: FileTables.OpenFileState)
    requires |es| == 3 && forall k | 0 <= k < 3 :: es[k] != null
    ensures FileTables.SlotsAfter(es + [made], FileTables.CallDup3(0, 3)) == es + [es[0]]
  {
    FourthSlot(es, made);
  }

  lemma NotAmong(es: seq<FileTables.OpenFileState?>, file: OpenStates.OpfsFile)
    requires |es| == 3 && !file.special && forall k | 0 <= k < 3 :: es[k] != null && es[k].file.special
    ensures FileTables.Descriptions(es + [es[0]], file) == {}
  {
  }

  /** O_TRUNC on a file without write permission: the call fails, the file stays open, and no descriptor is left. */
  method TruncMissesAClose() returns (file: OpenStates.OpfsFile, table: FileTables.FileTable, r: FileTables.OpenResult)
    ensures table.Valid() && r == FileTables.GaveUp(EACCES) && file.openCount == 1
    ensures FileTables.Descriptions(table.entries, file) == {}
  {
    table := NewTable();
    file := new OpenStates.OpfsFile(true, false);
    r := table.Open(file, OpenStates.ReadOnly, 7, true, false);
  }

  /** dup(0), then close of the copy: the table hands back standard input to be closed while slot 0 still holds it. */
  method StreamClosesEarly() returns (table: FileTables.FileTable, closee: OpenStates.OpfsFile?)
    ensures |table.entries| > 0 && table.entries[0] != null && closee == table.entries[0].file
  {
    table := NewTable();
    ghost var es := table.entries;
    FourthSlot(es, es[0]);
    var copy := table.Dup(0, 0);
    assert table.entries == es + [es[0]];
    closee := table.SetEntry(3, null);
    assert table.entries == es + [null];
    LastButOne(es, es[0]);
  }

  lemma LastButOne(es: seq<FileTables.OpenFileState?>, o: FileTables.OpenFileState)
    requires |es| == 3 && es[0] == o && es[1] != o && es[2] != o
    ensures FileTables.Slots(es + [null], o) == 1
  {
    assert es + [null] == [es[0], es[1], es[2], null];
  }
}
