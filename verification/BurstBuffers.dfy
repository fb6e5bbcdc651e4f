// The request handlers of one server.

module BurstBuffers {
  import opened Basics
  import opened Descriptors
  import opened Servers
  import opened Storages
  import opened MetaDataManagers
  import opened LocalFileExporters
  import opened TreeWalks
  import opened VirtualNames
  import opened Attributes

  /** `symlink` to a directory of the tier, unless the name is taken. */
  function LinkDirectory(s: Store, path: Path, link: Path): map<Path, string> {
    if path in s.dirs && !s.Has(link) then s.links[link := StoragePath(s.root, path)] else s.links
  }

  /** A link to a local directory reads back as that directory, without its leading slash. */
  predicate LeadsTo(local: Store, secondary: Store, link: Path, dir: Path, size: nat) {
    dir != "" && ReadRealLink(local, secondary, link, size) == Some(dir[1..])
  }

  lemma LinkLeadsTo(local: Store, secondary: Store, local': Store, dir: Path, link: Path, size: nat)
    requires dir != "" && dir[0] == '/' && dir in local.dirs && !local.Has(link) && size > |local.root| + |dir|
    requires local' == local.(links := LinkDirectory(local, dir, link))
    ensures LeadsTo(local', secondary, link, dir, size)
  {
    assert local'.links[link] == StoragePath(local.root, dir) == local.root + dir;
    RealLinkLosesSlash(local', secondary, dir, link, size);
  }

  class BurstBuffer {
    const manager: MetaDataManager
    const exporter: LocalFileExporter
    const local: Storage
    const secondary: Storage
    const process: Process

    ghost predicate Valid() {
      && exporter.manager == manager
      && manager.local == local && manager.secondary == secondary && manager.process == process
      && local != secondary
    }

    /** A new server makes the secondary directories in the local tier, and watches every local file; the
        trees are those of the two tiers. */
    constructor (local: Storage, secondary: Storage, localTree: Tree, secondaryTree: Tree)
      requires local != secondary && FilePaths(localTree, "") == local.files.Keys
      modifies local`dirs
      ensures Valid() && this.local == local && this.secondary == secondary
      ensures fresh(manager) && fresh(exporter) && fresh(process)
      ensures local.dirs == Duplicated(old(local.dirs), local.files.Keys, secondaryTree, "")
      ensures State() == Node(Servers.Restart(Server(local.files, map[], map[], map[])), secondary.files)
    {
      var p := new Process();
      var m := new MetaDataManager(local, secondary, p);
      var e := new LocalFileExporter(m);
      manager, exporter, this.local, this.secondary, process := m, e, local, secondary, p;
      new;
      DuplicateDirSecondaryToLocal(secondary.root, secondaryTree, "");
      exporter.Create(localTree);
    }

    ghost function State(): Node
      requires Valid()
      reads manager, exporter, local, secondary, process
    {
      exporter.State()
    }

    method Unlink(path: Path)
      requires Valid()
      modifies manager`table, exporter`localFiles, local`files, secondary`files, process`open
      ensures State() == Servers.Unlink(old(State()), path)
    {
      if path in local.files {
        exporter.Unregister(path);
        manager.Unregister(path);
        local.files := local.files - {path};
      }
      if path in secondary.files {
        secondary.files := secondary.files - {path};
      }
      assert old(secondary.files) - {path} == secondary.files;
    }

    /** A virtual link is a file of one line; a link to a directory is a real one, on each tier that has the
        directory. False is the error of the local one. */
    method Symlink(path: Path, link: Path, now: int) returns (ok: bool)
      requires Valid()
      modifies local`files, local`links, secondary`links
      ensures var virtual, s, t := IsVirtualSymlink(link), old(local.Contents()), old(secondary.Contents());
        && State() == (if virtual then old(State()).(server := WriteLine(old(State().server), link, path, now)) else old(State()))
        && local.links == (if virtual then s.links else LinkDirectory(s, path, link))
        && secondary.links == (if virtual then t.links else LinkDirectory(t, path, link))
        && (ok <==> virtual || path !in s.dirs || !s.Has(link))
      ensures !IsVirtualSymlink(link) && path != "" && path[0] == '/' && path in local.dirs && ok ==>
        forall size :: size > |local.root| + |path| ==> LeadsTo(local.Contents(), secondary.Contents(), link, path, size)
    {
      ghost var before := local.Contents();
      ok := true;
      if IsVirtualSymlink(link) {
        local.files := local.files[link := File(path + "\n", now)];
      } else {
        if path in local.dirs {
          ok := !local.Contents().Has(link);
          if ok {
            local.links := local.links[link := StoragePath(local.root, path)];
          }
        }
        if path in secondary.dirs {
          if !secondary.Contents().Has(link) {
            secondary.links := secondary.links[link := StoragePath(secondary.root, path)];
          }
        }
      }
      forall size | !IsVirtualSymlink(link) && path != "" && path[0] == '/' && path in local.dirs && ok &&
                    size > |local.root| + |path|
        ensures LeadsTo(local.Contents(), secondary.Contents(), link, path, size)
      {
        LinkLeadsTo(before, secondary.Contents(), local.Contents(), path, link, size);
      }
    }

    /** A virtual hard link is a file of one line; `link` refuses directories. */
    method Link(path: Path, newPath: Path, now: int) returns (ok: bool)
      requires Valid()
      modifies local`files
      ensures State() == if IsVirtualLink(newPath)
        then old(State()).(server := WriteLine(old(State().server), newPath, path, now)) else old(State())
      ensures ok <==> IsVirtualLink(newPath) || (path !in local.dirs && path !in secondary.dirs)
    {
      ok := true;
      if IsVirtualLink(newPath) {
        local.files := local.files[newPath := File(path + "\n", now)];
      } else {
        if path in local.dirs {
          ok := false;
        }
        if path in secondary.dirs {
          ok := false;
        }
      }
    }

    method GetAttr(path: Path) returns (attr: Option<Attr>)
      requires Valid()
      ensures attr == FileStat(local.Contents(), secondary.Contents(), path)
      ensures OneThing(local.Contents(), secondary.Contents(), path) ==>
        Tells(attr, local.Contents(), secondary.Contents(), path)
    {
      attr := manager.GetFileStat(path);
    }

    /** `readlink` on the tier that has the path; the storage root is cut off what it says. */
    method ReadLink(path: Path, size: nat) returns (target: Option<string>)
      requires Valid()
      ensures target == ReadRealLink(local.Contents(), secondary.Contents(), path, size)
    {
      var tier := if local.Contents().Has(path) then local else secondary;
      if path !in tier.links {
        return None;
      }
      var said := Readlink(tier.links[path], size - 1);
      if said.None? {
        return None;
      }
      return Some(RemoveStoragePath(local.root, secondary.root, said.value));
    }

    /** The branch for a path that is not a directory. */
    method RenameFile(oldPath: Path, newPath: Path, now: int) returns (reply: Reply)
      requires Valid()
      modifies exporter`localFiles, local`files, secondary`files, process`open
      ensures (State(), reply) == Servers.Rename(old(State()), oldPath, newPath, now)
    {
      reply := Done;
      if oldPath in local.files {
        exporter.Unregister(oldPath);
        secondary.files := secondary.files - {oldPath};
        if newPath in secondary.files {
          reply := Failed;
        } else {
          secondary.files := secondary.files[newPath := File(local.files[oldPath].data, now)];
        }
        local.files := local.files - {oldPath};
        process.open := Detach(process.open, oldPath);
      } else if oldPath in secondary.files {
        if newPath != oldPath {
          var file := secondary.files[oldPath];
          secondary.files := (secondary.files - {oldPath})[newPath := file];
        }
      }
    }

    method Truncate(path: Path, size: int, now: int) returns (reply: Reply)
      requires Valid()
      modifies local`files, secondary`files
      ensures (State(), reply) == Servers.Truncate(old(State()), path, size, now)
    {
      if size < 0 {
        return Failed;
      }
      if path in local.files {
        local.files := local.files[path := File(Resize(local.files[path].data, size), now)];
      } else if path in secondary.files {
        secondary.files := secondary.files[path := File(Resize(secondary.files[path].data, size), now)];
      } else {
        return Failed;
      }
      return Done;
    }

    method Open(path: Path, flags: OpenFlags, fd: Fd, now: int) returns (reply: Reply)
      requires Valid()
      modifies manager`table, exporter`localFiles, local`files, process`open
      ensures (State(), reply) == Servers.Open(old(State()), path, flags, fd, now)
    {
      if flags.wronly {
        exporter.Unregister(path);
      }
      reply := manager.Open(path, flags, fd, now);
    }

    method Create(path: Path, flags: OpenFlags, fd: Fd, now: int) returns (reply: Reply)
      requires Valid()
      modifies manager`table, exporter`localFiles, local`files, process`open
      ensures (State(), reply) == Servers.Create(old(State()), path, flags, fd, now)
    {
      exporter.Unregister(path);
      reply := manager.Create(path, flags, fd, now);
    }

    method Read(path: Path, fd: Fd, size: nat, offset: int) returns (reply: Reply)
      requires Valid()
      ensures reply == Servers.Read(State().server, fd, offset, size)
    {
      if fd !in process.open || !process.open[fd].flags.CanRead() || offset < 0 {
        return Failed;
      }
      var file := process.open[fd];
      var data := if file.attached && file.path in local.files then local.files[file.path].data else [];
      return Bytes(ReadAt(data, offset, size));
    }

    method Write(path: Path, fd: Fd, offset: int, raw: Data, now: int) returns (reply: Reply)
      requires Valid()
      modifies local`files
      ensures (State().server, reply) == Servers.Write(old(State().server), fd, offset, raw, now)
      ensures State().secondary == old(State().secondary)
    {
      if fd !in process.open || !process.open[fd].flags.CanWrite() || offset < 0 {
        return Failed;
      }
      var file := process.open[fd];
      if raw != [] && file.attached && file.path in local.files {
        local.files := local.files[file.path := File(WriteAt(local.files[file.path].data, offset, raw), now)];
      }
      return Done;
    }

    method FTruncate(path: Path, fd: Fd, size: int, now: int) returns (reply: Reply)
      requires Valid()
      modifies local`files
      ensures (State().server, reply) == Servers.FTruncate(old(State().server), fd, size, now)
      ensures State().secondary == old(State().secondary)
    {
      if fd !in process.open || !process.open[fd].flags.CanWrite() || size < 0 {
        return Failed;
      }
      var file := process.open[fd];
      if file.attached && file.path in local.files {
        local.files := local.files[file.path := File(Resize(local.files[file.path].data, size), now)];
      }
      return Done;
    }

    method Release(path: Path, fd: Fd)
      requires Valid()
      modifies manager`table, exporter`localFiles, process`open
      ensures State() == old(State()).(server := Servers.Release(old(State().server), path, fd))
    {
      manager.Close(path, fd);
      var done := exporter.Register(path);
    }

    method FilePrevRead(path: Path, now: int)
      requires Valid()
      modifies local`files
      ensures State() == Servers.Prefetch(old(State()), path, now)
    {
      manager.CopySecondaryToLocal(path, now);
    }

    method LocalFileExport(now: int)
      requires Valid()
      modifies exporter`localFiles, secondary`files
      ensures State() == Servers.Export(old(State()), now)
    {
      exporter.CheckLocalFiles(now);
    }

    /** Make the directories found below a secondary directory in the local tier too; `path` is the
        directory's name in the secondary storage. */
    method DuplicateDirSecondaryToLocal(path: string, tree: Tree, ghost prefix: string)
      requires Valid() && path == secondary.root + prefix && (prefix == "" || prefix[0] == '/')
      modifies local`dirs
      ensures local.dirs == Duplicated(old(local.dirs), local.files.Keys, tree, prefix)
      decreases tree
    {
      var rest := tree;
      while !rest.End?
        invariant rest == tree || rest < tree
        invariant Duplicated(local.dirs, local.files.Keys, rest, prefix) ==
                  Duplicated(old(local.dirs), local.files.Keys, tree, prefix)
        decreases rest
      {
        if rest.DirEntry? && !IsDot(rest.name) {
          var fname := path + "/" + rest.name;
          SliceOfDuplicate(local.root, secondary.root, prefix, rest.name);
          var tmp := StoragePath(local.root, "") + fname[|StoragePath(secondary.root, "")|..];
          ghost var below := prefix + "/" + rest.name;
          local.dirs := MkDir(local.dirs, local.files.Keys, tmp[|local.root|..]);
          DuplicateDirSecondaryToLocal(fname, rest.sub, below);
        }
        rest := rest.rest;
      }
    }
  }
}
