// The manager of one server: its descriptor table, and the calls it makes on both tiers.

module MetaDataManagers {
  import opened Basics
  import opened Descriptors
  import opened Servers
  import opened Storages
  import opened Attributes
  import opened TreeWalks
  import opened VirtualNames

  class MetaDataManager {
    const local: Storage
    const secondary: Storage
    const process: Process
    var table: Table

    constructor (local: Storage, secondary: Storage, process: Process)
      ensures this.local == local && this.secondary == secondary && this.process == process && table == map[]
    {
      this.local, this.secondary, this.process, this.table := local, secondary, process, map[];
    }

    /** The node without the exporter's registrations. */
    ghost function State(): Node
      reads this, local, secondary, process
    {
      Node(Server(local.files, map[], table, process.open), secondary.files)
    }

    method Register(path: Path, fd: Fd)
      modifies `table
      ensures table == TableAdd(old(table), path, fd)
    {
      table := table[path := (if path in table then table[path] else {}) + {fd}];
    }

    /** Close every descriptor of the path, one by one, and forget the path. */
    method Unregister(path: Path)
      modifies `table, process`open
      ensures table == old(table) - {path}
      ensures process.open == old(process.open) - Fds(old(table), path)
    {
      if path in table {
        var todo := table[path];
        while todo != {}
          invariant table == old(table) && todo <= Fds(table, path)
          invariant process.open == old(process.open) - (Fds(table, path) - todo)
        {
          var fd :| fd in todo;
          process.open := process.open - {fd};
          todo := todo - {fd};
        }
        table := table - {path};
      } else {
        assert table - {path} == table;
        assert process.open - {} == process.open;
      }
    }

    method UnregisterFd(path: Path, fd: Fd)
      modifies `table
      ensures table == TableDrop(old(table), path, fd)
    {
      if path in table {
        table := table[path := table[path] - {fd}];
        if table[path] == {} {
          table := table - {path};
        }
      }
    }

    method GetFileStat(path: Path) returns (attr: Option<Attr>)
      ensures attr == FileStat(local.Contents(), secondary.Contents(), path)
      ensures OneThing(local.Contents(), secondary.Contents(), path) ==>
        Tells(attr, local.Contents(), secondary.Contents(), path)
    {
      var inLocal := local.Contents().Has(path);
      if !inLocal && !secondary.Contents().Has(path) {
        return None;
      }
      var target := if inLocal then local else secondary;
      var tpath := StoragePath(target.root, path);
      var kind := if path in target.files then Regular else if path in target.links then Linked else Directory;
      var marked, linkPath := kind.Linked?, "";
      var line := if path in target.files then FirstLine(target.files[path].data) else "";
      if IsVirtualSymlink(tpath) {
        if line != "" {
          linkPath, marked := line, true;
        }
      } else if IsVirtualLink(tpath) {
        if line != "" {
          linkPath := line;
        }
      }
      return Some(Attr(kind, marked, StatFile(target.files, path), linkPath));
    }

    /** `open` on the local tier; on success the descriptor is `fd`, which the kernel has free. */
    method OpenFile(path: Path, flags: OpenFlags, fd: Fd, now: int) returns (reply: Reply)
      modifies `table, local`files, process`open
      ensures (State().server, reply) == OpenLocal(old(State()).server, path, flags, fd, now)
    {
      if path in local.files && flags.creat && flags.excl {
        return Failed;
      } else if path !in local.files && !flags.creat {
        return Failed;
      }
      if path !in local.files || flags.trunc {
        local.files := local.files[path := File([], now)];
      }
      process.open := process.open[fd := Descriptors.OpenFile(path, flags, true)];
      Register(path, fd);
      reply := Opened(fd);
    }

    method CopySecondaryToLocal(path: Path, now: int)
      requires local != secondary
      modifies local`files
      ensures State() == Servers.Prefetch(old(State()), path, now)
    {
      var isCopy := true;
      if path in secondary.files {
        if path in local.files {
          if secondary.files[path].mtime <= local.files[path].mtime {
            isCopy := false;
          }
        }
        if isCopy {
          local.files := local.files[path := File(secondary.files[path].data, now)];
        }
      }
    }

    method Create(path: Path, flags: OpenFlags, fd: Fd, now: int) returns (reply: Reply)
      modifies `table, local`files, process`open
      ensures (State().server, reply) == OpenLocal(old(State()).server, path, flags, fd, now)
    {
      reply := OpenFile(path, flags, fd, now);
    }

    method Open(path: Path, flags: OpenFlags, fd: Fd, now: int) returns (reply: Reply)
      requires local != secondary
      modifies `table, local`files, process`open
      ensures (State(), reply) == Servers.Open(old(State()), path, flags, fd, now)
    {
      assert State().server.registered - {path} == map[];
      if path in secondary.files && path !in local.files {
        CopySecondaryToLocal(path, now);
      }
      reply := OpenFile(path, flags, fd, now);
    }

    method Close(path: Path, fd: Fd)
      modifies `table, process`open
      ensures process.open == old(process.open) - {fd}
      ensures table == TableDrop(old(table), path, fd)
    {
      process.open := process.open - {fd};
      UnregisterFd(path, fd);
    }
  }
}
