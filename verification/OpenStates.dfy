/**
 How the OPFS and Node backends share one underlying handle among all opens of a file. The foreign calls may answer
 anything; each method takes the answer of the one open call it makes, and a ghost list records the handles that are
 out.
 */
module OpenStates {

  datatype Access = ReadOnly | WriteOnly | ReadWrite

  /** The handles left after `h` has been closed. */
  function Released<H(==)>(live: seq<H>, h: H): seq<H> {
    if live == [] then [] else if live[0] == h then live[1..] else [live[0]] + Released(live[1..], h)
  }

  // ---------- OPFS ----------

  datatype OpfsKind = NoHandle | AccessHandle | BlobHandle

  datatype OpfsHandle = OpfsHandle(kind: OpfsKind, id: int)

  /** `OPFSFile` with its `OpenState`; `special` marks the files of the standard streams. */
  class OpfsFile {
    const isData: bool
    const special: bool
    var kind: OpfsKind
    var id: int
    var openCount: nat
    ghost var live: seq<OpfsHandle>
    ghost var wanted: set<Access>

    /**
     One handle while the count is positive and none at zero: an access handle if any open since zero asked to write,
     and otherwise a blob.
     */
    ghost predicate Valid()
      reads this
    {
      && (openCount == 0 <==> kind == NoHandle) && (openCount == 0 <==> wanted == {})
      && live == (if openCount == 0 then [] else [OpfsHandle(kind, id)])
      && (openCount > 0 ==> id >= 0)
      && (openCount > 0 ==> (kind == AccessHandle <==> exists a :: a in wanted && a != ReadOnly))
    }

    constructor (isData: bool, special: bool)
      ensures Valid() && openCount == 0 && this.isData == isData && this.special == special
    {
      this.isData, this.special := isData, special;
      kind, id, openCount := NoHandle, -1, 0;
      live, wanted := [], {};
    }

    /** `OpenState::open`; `reply` is what the foreign open call answers, if one is made. */
    method Open(flags: Access, reply: int) returns (r: int)
      requires Valid()
      modifies this
      ensures Valid()
      ensures r == 0 ==> openCount == old(openCount) + 1 && wanted == old(wanted) + {flags}
      ensures r != 0 ==> r == reply && r < 0 && openCount == old(openCount) && kind == old(kind)
      ensures r != 0 ==> live == old(live) && wanted == old(wanted) && (openCount > 0 ==> id == old(id))
      ensures r != 0 <==> reply < 0 && (old(kind) == NoHandle || (old(kind) == BlobHandle && flags != ReadOnly))
      ensures r == 0 && flags != ReadOnly ==> kind == AccessHandle
      ensures r == 0 ==>
        if old(kind) == NoHandle || (old(kind) == BlobHandle && flags != ReadOnly)
        then kind == (if flags == ReadOnly then BlobHandle else AccessHandle) && id == reply &&
             live == [OpfsHandle(kind, reply)]
        else kind == old(kind) && id == old(id) && live == old(live)
    {
      if kind == NoHandle {
        id := reply;
        if id < 0 {
          return id;
        }
        kind := if flags == ReadOnly then BlobHandle else AccessHandle;
        live := live + [OpfsHandle(kind, id)];
      } else if kind == BlobHandle && flags != ReadOnly {
        var newId := reply;
        if newId < 0 {
          return newId;
        }
        live := live + [OpfsHandle(AccessHandle, newId)];
        live := Released(live, OpfsHandle(BlobHandle, id));
        id := newId;
        kind := AccessHandle;
      }
      openCount := openCount + 1;
      wanted := wanted + {flags};
      assert flags in wanted;
      return 0;
    }

    /** `OpenState::close` of an open file; `reply` is what closing an access handle answers. */
    method Close(reply: int) returns (err: int)
      requires Valid() && openCount > 0
      modifies this
      ensures Valid() && openCount == old(openCount) - 1
      ensures openCount > 0 ==> kind == old(kind) && id == old(id) && wanted == old(wanted) && err == 0
      ensures live == if openCount > 0 then old(live) else []
      ensures openCount == 0 ==> err == (if old(kind) == AccessHandle then reply else 0)
    {
      err := 0;
      openCount := openCount - 1;
      if openCount == 0 {
        if kind == AccessHandle {
          err := reply;
        }
        live := Released(live, OpfsHandle(kind, id));
        kind, id, wanted := NoHandle, -1, {};
      }
    }
  }

  // ---------- Node ----------

  /** The mode strings "r", "w" and "r+". */
  datatype NodeMode = R | W | RPlus

  datatype NodeHandle = NodeHandle(fd: int, mode: NodeMode)

  /** `NodeState`. The mode of the handle is not recorded there: `openFlags` keeps only the last mode opened with. */
  class NodeState {
    var openCount: nat
    var openFlags: Access
    var fd: int
    ghost var mode: NodeMode
    ghost var live: seq<NodeHandle>
    ghost var wanted: set<Access>

    /**
     One descriptor while the count is positive and none at zero. It is open for reading alone if nothing else was asked
     for since zero, for writing alone likewise, and otherwise for both.
     */
    ghost predicate Valid()
      reads this
    {
      && (openCount == 0 <==> wanted == {})
      && live == (if openCount == 0 then [] else [NodeHandle(fd, mode)])
      && (openCount > 0 ==> openFlags in wanted && fd >= 0)
      && (openCount > 0 ==> (mode == R <==> wanted == {ReadOnly}) && (mode == W <==> wanted == {WriteOnly}))
      && (openCount > 0 && openFlags == ReadWrite ==> mode == RPlus)
    }

    constructor ()
      ensures Valid() && openCount == 0
    {
      openCount, openFlags, fd := 0, ReadOnly, -1;
      live, wanted, mode := [], {}, R;
    }

    /** `NodeState::open`; `reply` is what the foreign open answers, if it is called. */
    method Open(flags: Access, reply: int) returns (r: int)
      requires Valid()
      modifies this
      ensures Valid()
      ensures r == 0 ==> openCount == old(openCount) + 1 && wanted == old(wanted) + {flags}
      ensures r != 0 ==> r == reply && r < 0 && openCount == old(openCount) && fd == old(fd)
      ensures r != 0 ==> live == old(live) && wanted == old(wanted)
      ensures r != 0 <==> reply < 0 && (old(openCount) == 0 || (old(openFlags) != ReadWrite && old(openFlags) != flags))
      ensures r == 0 ==>
        if old(openCount) == 0 || (old(openFlags) != ReadWrite && old(openFlags) != flags)
        then fd == reply && openFlags == flags && live == [NodeHandle(reply, mode)] &&
             (old(openCount) > 0 ==> mode == RPlus)
        else fd == old(fd) && openFlags == old(openFlags) && mode == old(mode) && live == old(live)
    {
      var result := 0;
      ghost var newMode;
      if openCount == 0 {
        result := reply;
        newMode := match flags case ReadOnly => R case WriteOnly => W case ReadWrite => RPlus;
        if result < 0 {
          return result;
        }
        live := live + [NodeHandle(result, newMode)];
      } else if (openFlags == ReadOnly && flags != ReadOnly) || (openFlags == WriteOnly && flags != WriteOnly) {
        result := reply;
        newMode := RPlus;
        if result < 0 {
          return result;
        }
        live := live + [NodeHandle(result, newMode)];
        live := Released(live, NodeHandle(fd, mode));
      } else {
        openCount := openCount + 1;
        wanted := wanted + {flags};
        return 0;
      }
      fd, mode := result, newMode;
      openFlags := flags;
      openCount := openCount + 1;
      wanted := wanted + {flags};
      return 0;
    }

    /** `NodeState::close` of an open file. */
    method Close(reply: int) returns (r: int)
      requires Valid() && openCount > 0
      modifies this
      ensures Valid() && openCount == old(openCount) - 1
      ensures openCount > 0 ==> fd == old(fd) && wanted == old(wanted) && live == old(live) && r == 0
      ensures openCount == 0 ==> r == reply
    {
      r := 0;
      openCount := openCount - 1;
      if openCount == 0 {
        r := reply;
        live := Released(live, NodeHandle(fd, mode));
        openFlags, fd, wanted := ReadOnly, -1, {};
      }
    }
  }
}
