// The exporter of one server: the local files it watches, and its pass that copies them out.

module LocalFileExporters {
  import opened Basics
  import opened Servers
  import opened Storages
  import opened MetaDataManagers
  import opened TreeWalks

  /** The secondary tier once the entries in `done` have been visited. */
  function ExportedSoFar(n: Node, done: set<Path>, now: int): Tier {
    n.secondary + map p | p in done && NeedsExport(n, p) :: File(n.server.local[p].data, now)
  }

  lemma ExportNext(n: Node, done: set<Path>, p: Path, now: int)
    requires p !in done
    ensures Lookup(ExportedSoFar(n, done, now), p) == Lookup(n.secondary, p)
    ensures ExportedSoFar(n, done + {p}, now) ==
      if NeedsExport(n, p) then ExportedSoFar(n, done, now)[p := File(n.server.local[p].data, now)]
      else ExportedSoFar(n, done, now)
  {
  }

  /** Modification times of the files among `paths`. */
  function Mtimes(local: Tier, paths: set<Path>): map<Path, int> {
    map p | p in paths && p in local :: local[p].mtime
  }

  lemma MtimesThen(m: map<Path, int>, local: Tier, a: set<Path>, b: set<Path>)
    ensures (m + Mtimes(local, a)) + Mtimes(local, b) == m + Mtimes(local, a + b)
  {
  }

  lemma RegisterIsMtimes(s: Server, p: Path)
    ensures Servers.Register(s, p).registered == s.registered + Mtimes(s.local, {p})
  {
  }

  class LocalFileExporter {
    const manager: MetaDataManager
    var localFiles: map<Path, int>

    constructor (manager: MetaDataManager)
      ensures this.manager == manager && localFiles == map[]
    {
      this.manager, localFiles := manager, map[];
    }

    ghost function State(): Node
      reads this, manager, manager.local, manager.secondary, manager.process
    {
      Node(manager.State().server.(registered := localFiles), manager.State().secondary)
    }

    method Register(path: Path) returns (done: bool)
      modifies `localFiles
      ensures done <==> path in manager.local.files
      ensures localFiles == if done then old(localFiles)[path := manager.local.files[path].mtime] else old(localFiles)
      ensures State().server == Servers.Register(old(State().server), path)
    {
      if path !in manager.local.files {
        return false;
      }
      localFiles := localFiles[path := manager.local.files[path].mtime];
      return true;
    }

    method Unregister(path: Path)
      modifies `localFiles
      ensures localFiles == old(localFiles) - {path}
    {
      localFiles := localFiles - {path};
    }

    method UnregisterAll()
      modifies `localFiles
      ensures localFiles == map[]
    {
      localFiles := map[];
    }

    /** Whatever the order in which the entries are visited, the pass does what `Servers.Export` says. */
    method CheckLocalFiles(now: int)
      requires manager.local != manager.secondary
      modifies `localFiles, manager.secondary`files
      ensures State() == Servers.Export(old(State()), now)
    {
      var local, secondary := manager.local, manager.secondary;
      ghost var n := State();
      var eraseFilename: seq<Path> := [];
      var todo := localFiles.Keys;
      ghost var done: set<Path> := {};
      while todo != {}
        invariant localFiles == n.server.registered && manager.State().server == old(manager.State()).server
        invariant todo == localFiles.Keys - done && done <= localFiles.Keys
        invariant secondary.files == ExportedSoFar(n, done, now)
        invariant forall p :: p in eraseFilename <==> p in done && p !in local.files
      {
        var filename :| filename in todo;
        ExportNext(n, done, filename, now);
        assert filename in secondary.files ==> Lookup(n.secondary, filename) == Some(secondary.files[filename]);
        var isCopy := true;
        if filename in local.files {
          if filename in secondary.files {
            if local.files[filename].mtime <= secondary.files[filename].mtime {
              isCopy := false;
            }
          }
          if isCopy {
            secondary.files := secondary.files[filename := File(local.files[filename].data, now)];
          }
        } else {
          eraseFilename := eraseFilename + [filename];
        }
        todo, done := todo - {filename}, done + {filename};
      }
      EraseAll(eraseFilename);
      assert done == n.server.registered.Keys;
    }

    /** Erase the collected entries one by one. */
    method EraseAll(filenames: seq<Path>)
      modifies `localFiles
      ensures localFiles == map p | p in old(localFiles) && p !in filenames :: old(localFiles)[p]
    {
      for k := 0 to |filenames|
        invariant localFiles == map p | p in old(localFiles) && p !in filenames[..k] :: old(localFiles)[p]
      {
        localFiles := localFiles - {filenames[k]};
        assert filenames[..k + 1] == filenames[..k] + [filenames[k]];
      }
      assert filenames[..|filenames|] == filenames;
    }

    /** Register the files found below a directory; `path` is its name in the local storage. */
    method SearchLocalFiles(path: string, tree: Tree, ghost prefix: string)
      requires path == StoragePath(manager.local.root, "") + prefix
      modifies `localFiles
      ensures localFiles == old(localFiles) + Mtimes(manager.local.files, FilePaths(tree, prefix))
      decreases tree
    {
      var rest := tree;
      ghost var seen: set<Path> := {};
      assert localFiles == localFiles + Mtimes(manager.local.files, seen);
      while !rest.End?
        invariant localFiles == old(localFiles) + Mtimes(manager.local.files, seen)
        invariant FilePaths(tree, prefix) == seen + FilePaths(rest, prefix)
        invariant rest == tree || rest < tree
        decreases rest
      {
        var fname := path + "/" + rest.name;
        ghost var below := prefix + "/" + rest.name;
        SliceOfWalk(manager.local.root, prefix, rest.name);
        ghost var found: set<Path> := {};
        if rest.FileEntry? {
          found := {below};
          RegisterIsMtimes(State().server, below);
          var done := Register(fname[|StoragePath(manager.local.root, "")|..]);
        } else if !IsDot(rest.name) {
          found := FilePaths(rest.sub, below);
          assert fname == StoragePath(manager.local.root, "") + below;
          SearchLocalFiles(fname, rest.sub, below);
        } else {
          assert localFiles == localFiles + Mtimes(manager.local.files, {});
        }
        MtimesThen(old(localFiles), manager.local.files, seen, found);
        seen, rest := seen + found, rest.rest;
      }
    }

    /** A new server starts to watch every local file. */
    method Create(tree: Tree)
      requires FilePaths(tree, "") == manager.local.files.Keys
      modifies `localFiles
      ensures localFiles == Servers.Restart(State().server).registered
      ensures localFiles == map p | p in manager.local.files :: manager.local.files[p].mtime
    {
      localFiles := map[];
      SearchLocalFiles(StoragePath(manager.local.root, ""), tree, "");
    }

    /** After the search the exporter watches every local file, as after a restart. */
    method ReSearchLocalFiles(tree: Tree)
      requires FilePaths(tree, "") == manager.local.files.Keys
      modifies `localFiles
      ensures localFiles == Servers.Restart(State().server).registered
      ensures localFiles == map p | p in manager.local.files :: manager.local.files[p].mtime
    {
      UnregisterAll();
      SearchLocalFiles(StoragePath(manager.local.root, ""), tree, "");
    }
  }
}
