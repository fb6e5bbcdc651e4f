// The descriptors of one server process: which files are open, and the manager's table of them.

module Descriptors {
  import opened Basics

  /** The bits of the `open` flags that the server and the kernel act on. */
  datatype OpenFlags = OpenFlags(wronly: bool, rdwr: bool, creat: bool, excl: bool, trunc: bool) {
    predicate CanWrite() { wronly != rdwr }
    predicate CanRead() { !wronly }
  }

  /** An open file description. It is detached when its file was removed while it was open. */
  datatype OpenFile = OpenFile(path: Path, flags: OpenFlags, attached: bool)

  /** A descriptor the kernel returns: a non-negative C `int`. */
  newtype Fd = n: int | 0 <= n < 0x8000_0000

  type Table = map<Path, set<Fd>>

  type OpenFiles = map<Fd, OpenFile>

  function Fds(table: Table, p: Path): set<Fd> {
    if p in table then table[p] else {}
  }

  function TableAdd(table: Table, p: Path, fd: Fd): Table {
    table[p := Fds(table, p) + {fd}]
  }

  /** The flags of an open descriptor of that path. */
  function HandleAt(open: OpenFiles, p: Path, fd: Fd): Option<OpenFlags> {
    if fd in open && open[fd].path == p then Some(open[fd].flags) else None
  }

  /** An entry that becomes empty is erased. */
  function TableDrop(table: Table, p: Path, fd: Fd): Table {
    if p !in table then table
    else if table[p] - {fd} == {} then table - {p}
    else table[p := table[p] - {fd}]
  }

  /** Descriptors of a file that is removed without being closed. */
  function Detach(open: OpenFiles, p: Path): OpenFiles {
    map fd | fd in open :: if open[fd].path == p then open[fd].(attached := false) else open[fd]
  }

  /** The table lists each open descriptor once, under the path it was opened for, and nothing else. */
  ghost predicate Partition(table: Table, open: OpenFiles) {
    && (forall p :: p in table ==> table[p] != {})
    && (forall p, fd :: fd in Fds(table, p) <==> fd in open && open[fd].path == p)
  }

  /** In the table's own terms: no empty entry, disjoint sets, and their union is the open descriptors. */
  lemma PartitionMeans(table: Table, open: OpenFiles)
    requires Partition(table, open)
    ensures forall p :: p in table ==> table[p] != {}
    ensures forall p, q :: p in table && q in table && p != q ==> table[p] !! table[q]
    ensures open.Keys == set p, fd | p in table && fd in table[p] :: fd
  {
    forall p, q | p in table && q in table && p != q ensures table[p] !! table[q] {
      forall fd | fd in table[p] ensures fd !in table[q] {
        assert fd in Fds(table, p) <==> fd in open && open[fd].path == p;
        assert fd in Fds(table, q) <==> fd in open && open[fd].path == q;
      }
    }
    var listed := set p, fd | p in table && fd in table[p] :: fd;
    forall fd ensures fd in open.Keys <==> fd in listed {
      if fd in open {
        assert fd in Fds(table, open[fd].path);
      }
      if p :| p in table && fd in table[p] {
        assert fd in Fds(table, p);
      }
    }
  }

  lemma AddKeepsPartition(table: Table, open: OpenFiles, p: Path, fd: Fd, flags: OpenFlags)
    requires Partition(table, open) && fd !in open
    ensures Partition(TableAdd(table, p, fd), open[fd := OpenFile(p, flags, true)])
  {
    var t, o := TableAdd(table, p, fd), open[fd := OpenFile(p, flags, true)];
    forall q, d ensures d in Fds(t, q) <==> d in o && o[d].path == q {
      assert d in Fds(table, q) <==> d in open && open[d].path == q;
    }
    assert fd in t[p];
  }

  /** Closing a descriptor under the path it is listed for keeps the partition. */
  lemma DropKeepsPartition(table: Table, open: OpenFiles, p: Path, fd: Fd)
    requires Partition(table, open) && fd in Fds(table, p)
    ensures Partition(TableDrop(table, p, fd), open - {fd})
  {
    var t, o := TableDrop(table, p, fd), open - {fd};
    forall q, d ensures d in Fds(t, q) <==> d in o && o[d].path == q {
      assert d in Fds(table, q) <==> d in open && open[d].path == q;
      assert fd in Fds(table, q) <==> fd in open && open[fd].path == q;
      assert fd in Fds(table, p) <==> fd in open && open[fd].path == p;
    }
  }

  /** Naming a path it is not listed for does not: a close keeps the partition exactly when the table
      lists the descriptor under that path, or it is not open at all. */
  lemma DropKeepsPartitionIff(table: Table, open: OpenFiles, p: Path, fd: Fd)
    requires Partition(table, open)
    ensures Partition(TableDrop(table, p, fd), open - {fd}) <==> fd in Fds(table, p) || fd !in open
  {
    var t, o := TableDrop(table, p, fd), open - {fd};
    if fd in Fds(table, p) {
      DropKeepsPartition(table, open, p, fd);
    } else if fd in open {
      var q := open[fd].path;
      assert fd in Fds(table, q);
      assert fd in Fds(t, q);
      assert fd !in o;
    } else {
      assert fd !in Fds(table, p);
      assert p in table ==> table[p] - {fd} == table[p] && table[p] != {};
      assert t == table && o == open;
    }
  }

  /** Dropping a whole path closes exactly the descriptors listed for it. */
  lemma DropPathKeepsPartition(table: Table, open: OpenFiles, p: Path)
    requires Partition(table, open)
    ensures Partition(table - {p}, open - Fds(table, p))
  {
    var t, o := table - {p}, open - Fds(table, p);
    forall q, d ensures d in Fds(t, q) <==> d in o && o[d].path == q {
      assert d in Fds(table, q) <==> d in open && open[d].path == q;
      assert d in Fds(table, p) <==> d in open && open[d].path == p;
    }
  }

  lemma DetachKeepsPartition(table: Table, open: OpenFiles, p: Path)
    requires Partition(table, open)
    ensures Partition(table, Detach(open, p))
  {
  }

  lemma ListedIsOpen(table: Table, open: OpenFiles, p: Path) returns (fd: Fd)
    requires Partition(table, open) && p in table
    ensures fd in open
  {
    fd :| fd in table[p];
    assert fd in Fds(table, p);
  }

  lemma NothingOpenNothingListed(table: Table, open: OpenFiles)
    requires Partition(table, open) && open == map[]
    ensures table == map[]
  {
    forall p ensures p !in table {
      if p in table {
        var fd := ListedIsOpen(table, open, p);
      }
    }
  }
}
