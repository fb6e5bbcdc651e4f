// The client: it routes a request for one file to the file's server and sends the others to every server.

module BurstBufferClients {
  import opened Basics
  import opened Descriptors
  import opened Servers
  import opened Clusters
  import opened Links
  import opened Storages
  import opened BurstBuffers
  import opened VirtualNames
  import opened TreeWalks
  import opened Attributes
  import Handles

  ghost function ServerOf(b: BurstBuffer): Server
    reads b.manager, b.exporter, b.local, b.process
  {
    Server(b.local.files, b.exporter.localFiles, b.manager.table, b.process.open)
  }

  lemma StateIsServerOf(b: BurstBuffer)
    requires b.Valid()
    ensures b.State() == Node(ServerOf(b), b.secondary.files)
  {
  }

  /** A cluster in which only the owner of `path` and the secondary tier changed. */
  lemma ChangedIsPut(c: Cluster, c': Cluster, path: Path, n: Node)
    requires Routed(c) && c'.owner == c.owner && |c'.servers| == |c.servers| && At(c', path) == n
    requires forall j :: 0 <= j < |c.servers| && j != c.owner(path) ==> c'.servers[j] == c.servers[j]
    ensures c' == Put(c, path, n, c'.clock)
  {
  }

  /** An unlink of one entry, on its own server or on all. */
  ghost function Unlinked(c: Cluster, path: Path, all: bool, now: int): Cluster
    requires Routed(c)
  {
    if all then UnlinkEverywhere(c, path, now) else Put(c, path, Servers.Unlink(At(c, path), path), now)
  }

  lemma ResolvedIsUnlinked(c: Cluster, path: Path, now: int, target: Path)
    requires Routed(c) && target == UnlinkTarget(c, path)
    ensures UnlinkResolved(c, path, now) == Unlinked(c, target, target == path, now)
  {
  }

  /** The states between the passes of a flush from server `k` on. */
  ghost predicate AreSteps(steps: seq<Cluster>, k: nat, times: seq<int>) {
    && k <= |times| && |steps| == |times| - k + 1
    && (forall i :: 0 <= i < |steps| ==> |steps[i].servers| == |times|)
    && forall i :: 0 <= i < |times| - k ==> IsNext(steps[i], steps[i + 1], k + i, times)
  }

  ghost predicate IsNext(c: Cluster, c': Cluster, k: nat, times: seq<int>) {
    k < |c.servers| == |times| && c' == ExportAt(c, k, times[k])
  }

  lemma {:induction false} FlushSteps(c: Cluster, k: nat, times: seq<int>) returns (steps: seq<Cluster>)
    requires k <= |c.servers| == |times|
    ensures AreSteps(steps, k, times) && steps[0] == c && steps[|times| - k] == Flushed(c, k, times)
    decreases |times| - k
  {
    if k == |times| {
      steps := [c];
    } else {
      var c' := ExportAt(c, k, times[k]);
      var rest := FlushSteps(c', k + 1, times);
      steps := [c] + rest;
      assert IsNext(c, c', k, times);
      forall i | 0 <= i < |times| - k ensures IsNext(steps[i], steps[i + 1], k + i, times) {
        if i > 0 {
          assert IsNext(rest[i - 1], rest[i - 1 + 1], k + 1 + (i - 1), times);
        }
      }
    }
  }

  lemma NextStep(steps: seq<Cluster>, k: nat, times: seq<int>, i: nat)
    requires AreSteps(steps, k, times) && i < |times| - k
    ensures steps[i + 1] == ExportAt(steps[i], k + i, times[k + i])
  {
    assert IsNext(steps[i], steps[i + 1], k + i, times);
  }

  /** A file's attributes agree with what the cluster's state says of links, and its size with the bytes seen. */
  lemma FileStatIsLinkPath(c: Cluster, local: Store, secondary: Store, p: Path)
    requires Routed(c) && At(c, p).server.local == local.files && c.secondary == secondary.files
    requires PlainPath(local, p) && PlainPath(secondary, p)
    ensures LinkPath(c, p) == match FileStat(local, secondary, p) case None => None case Some(a) => Some(a.linkPath)
    ensures View(c, p).Some? ==>
      var stat := FileStat(local, secondary, p).value.stat; stat.Some? && stat.value.size == |View(c, p).value|
  {
    RootDoesNotMatter(local.root, p);
    RootDoesNotMatter(secondary.root, p);
  }

  /** A slash-rooted path that is no directory and no real link of the tier, whose root has no extension. */
  predicate PlainPath(s: Store, p: Path) {
    && p != "" && p[0] == '/' && p !in s.dirs && p !in s.links
    && !IsVirtualSymlink(s.root) && !IsVirtualLink(s.root)
  }

  /** The attributes that the client reports: those of the symlink entry, else those of what the link entry
      points to, else those of the path. A link entry to nothing leaves them unset. */
  function Resolved(sym: Option<Attr>, link: Option<Attr>, target: Option<Attr>, plain: Option<Attr>): Option<Attr> {
    if sym.Some? then Some(if sym.value.linkPath != "" then sym.value.(marked := true) else sym.value)
    else if link.Some? then
      if link.value.linkPath == "" then link
      else if target.Some? then target
      else Some(Attr(Unset, false, None, ""))
    else plain
  }

  function WithLink(s: Store, path: Path, link: Path): Store {
    s.(links := LinkDirectory(s, path, link))
  }

  predicate IsDirectory(attr: Option<Attr>) {
    attr.Some? && attr.value.kind.Directory? && !attr.value.marked
  }

  // ----- the prefetch thread -----

  function LastSlash(p: Path): (k: nat)
    requires '/' in p
    ensures k < |p| && p[k] == '/' && '/' !in p[k + 1..]
  {
    if p[|p| - 1] == '/' then |p| - 1 else
      assert p == p[..|p| - 1] + [p[|p| - 1]];
      LastSlash(p[..|p| - 1])
  }

  /** `parent_path` and `filename` of a slash-rooted path. */
  function ParentPath(p: Path): string {
    if '/' !in p then "" else if LastSlash(p) == 0 then "/" else p[..LastSlash(p)]
  }

  function FileName(p: Path): string {
    if '/' !in p then p else p[LastSlash(p) + 1..]
  }

  /** The path that the thread asks for, and the path of the file of that name in the directory. */
  function AskedFor(dir: string, name: string): Path { dir + name }

  function InDirectory(dir: string, name: string): Path { if dir == "/" then "/" + name else dir + "/" + name }

  /** A path of a file as the kernel hands it down: one slash in front and none at the end. */
  predicate Canonical(p: Path) {
    |p| > 1 && p[0] == '/' && p[1] != '/' && p[|p| - 1] != '/'
  }

  lemma ParentAndName(p: Path)
    requires Canonical(p)
    ensures InDirectory(ParentPath(p), FileName(p)) == p && '/' !in FileName(p) && FileName(p) != ""
  {
    var k := LastSlash(p);
    assert p == p[..k] + "/" + p[k + 1..];
    if k > 1 {
      assert |p[..k]| > 1;
    }
  }

  lemma NoSlashAfter(p: Path, k: nat)
    requires k < |p| && '/' !in p[k + 1..]
    ensures forall i :: k < i < |p| ==> p[i] != '/'
  {
    forall i | k < i < |p| ensures p[i] != '/' {
      assert p[i] == p[k + 1..][i - k - 1];
    }
  }

  lemma LastSlashIs(p: Path, k: nat)
    requires k < |p| && p[k] == '/' && '/' !in p[k + 1..]
    ensures LastSlash(p) == k
  {
    NoSlashAfter(p, k);
    NoSlashAfter(p, LastSlash(p));
  }

  lemma RootIff(p: Path)
    requires Canonical(p)
    ensures ParentPath(p) == "/" <==> '/' !in p[1..]
    ensures '/' !in p[1..] ==> FileName(p) == p[1..]
    ensures '/' in p[1..] ==> |ParentPath(p)| > 1 && ParentPath(p)[0] == '/'
  {
    if '/' !in p[1..] {
      LastSlashIs(p, 0);
    } else {
      var i :| 0 <= i < |p[1..]| && p[1..][i] == '/';
      assert p[i + 1] == '/';
      NoSlashAfter(p, LastSlash(p));
    }
  }

  /** A name appended to a directory without a slash lies beside the directory. */
  lemma NotInside(dir: string, name: string)
    requires |dir| > 1 && dir[0] == '/' && name != "" && '/' !in name
    ensures ParentPath(dir + name) != dir
  {
    var p := dir + name;
    forall i | |dir| <= i < |p| ensures p[i] != '/' {
      assert p[i] == name[i - |dir|];
    }
    assert LastSlash(p) < |dir|;
  }

  /** The thread appends names to the directory without a slash: it prefetches the other files of the
      directory exactly for files in the root directory. */
  lemma PrefetchesSiblingsIff(p: Path, name: string)
    requires Canonical(p)
    ensures AskedFor(ParentPath(p), name) == InDirectory(ParentPath(p), name) <==> ParentPath(p) == "/"
  {
    var dir := ParentPath(p);
    assert |AskedFor(dir, name)| == |dir| + |name| && |InDirectory(dir, name)| == |name| + if dir == "/" then 1 else |dir| + 1;
  }

  /** A local tier after prefetches of the paths, each at its own time. */
  function FetchedTier(local: Tier, secondary: Tier, paths: set<Path>, times: Path -> int): Tier {
    local + map p | p in paths && p in secondary && (p in local ==> local[p].mtime < secondary[p].mtime)
              :: File(secondary[p].data, times(p))
  }

  function Fetched(s: Server, secondary: Tier, paths: set<Path>, times: Path -> int): Server {
    s.(local := FetchedTier(s.local, secondary, paths, times))
  }

  lemma FetchedAt(local: Tier, secondary: Tier, paths: set<Path>, times: Path -> int, q: Path)
    ensures Lookup(FetchedTier(local, secondary, paths, times), q) ==
      if q in paths && q in secondary && (q in local ==> local[q].mtime < secondary[q].mtime)
      then Some(File(secondary[q].data, times(q))) else Lookup(local, q)
  {
  }

  lemma FetchedNext(s: Server, secondary: Tier, paths: set<Path>, p: Path, times: Path -> int)
    requires p !in paths
    ensures Servers.Prefetch(Node(Fetched(s, secondary, paths, times), secondary), p, times(p)) ==
      Node(Fetched(s, secondary, paths + {p}, times), secondary)
  {
    var before := FetchedTier(s.local, secondary, paths, times);
    FetchedAt(s.local, secondary, paths, times, p);
    FetchedTierNext(s.local, secondary, paths, p, times, before);
  }

  lemma FetchedTierNext(local: Tier, secondary: Tier, paths: set<Path>, p: Path, times: Path -> int, before: Tier)
    requires p !in paths && before == FetchedTier(local, secondary, paths, times)
    ensures FetchedTier(local, secondary, paths + {p}, times) ==
      if p in secondary && (p in local ==> local[p].mtime < secondary[p].mtime)
      then before[p := File(secondary[p].data, times(p))] else before
  {
    var after := FetchedTier(local, secondary, paths + {p}, times);
    var want := if p in secondary && (p in local ==> local[p].mtime < secondary[p].mtime)
                then before[p := File(secondary[p].data, times(p))] else before;
    forall q ensures Lookup(after, q) == Lookup(want, q) {
      FetchedAt(local, secondary, paths, times, q);
      FetchedAt(local, secondary, paths + {p}, times, q);
    }
    SameTier(after, want);
  }

  class BurstBufferClient {
    const servers: seq<BurstBuffer>
    const secondary: Storage
    /** The routing of `SelectServer`. */
    const owner: Path -> nat
    const hosts: seq<string>
    const aton: string -> Option<Handles.Addr>
    var prevReadDir: string
    var targetFilename: string

    constructor (servers: seq<BurstBuffer>, secondary: Storage, owner: Path -> nat, hosts: seq<string>,
                 aton: string -> Option<Handles.Addr>)
      ensures this.servers == servers && this.secondary == secondary && this.owner == owner
      ensures this.hosts == hosts && this.aton == aton
    {
      this.servers, this.secondary, this.owner, this.hosts, this.aton := servers, secondary, owner, hosts, aton;
      prevReadDir, targetFilename := "", "";
    }

    /** The servers share the secondary storage and nothing else. */
    ghost predicate Valid() {
      && (forall p :: owner(p) < |servers|) && |hosts| == |servers|
      && (forall i :: 0 <= i < |servers| ==> servers[i].Valid() && servers[i].secondary == secondary)
      && (forall i, j :: 0 <= i < j < |servers| ==>
           servers[i].manager != servers[j].manager && servers[i].exporter != servers[j].exporter &&
           servers[i].local != servers[j].local && servers[i].process != servers[j].process)
    }

    ghost function Objects(): set<object> {
      {secondary} + (set b | b in servers :: b.manager) + (set b | b in servers :: b.exporter)
      + (set b | b in servers :: b.local) + (set b | b in servers :: b.process)
    }

    ghost function State(clock: int): (c: Cluster)
      requires Valid()
      reads Objects()
      ensures Routed(c)
    {
      Cluster(owner, seq(|servers|, i requires 0 <= i < |servers| reads Objects() => ServerOf(servers[i])),
              secondary.files, clock)
    }

    /** Server `k` and the secondary tier now are as in `n`; the other servers are as they were. */
    twostate predicate Became(k: nat, n: Node)
      requires k < |servers|
      reads Objects()
    {
      && ServerOf(servers[k]) == n.server && secondary.files == n.secondary
      && forall j :: 0 <= j < |servers| && j != k ==> ServerOf(servers[j]) == old(ServerOf(servers[j]))
    }

    // ----- one server -----

    method UnlinkOn(k: nat, path: Path)
      requires Valid() && k < |servers|
      modifies Objects()
      ensures Became(k, Servers.Unlink(Node(old(ServerOf(servers[k])), old(secondary.files)), path))
    {
      StateIsServerOf(servers[k]);
      servers[k].Unlink(path);
      StateIsServerOf(servers[k]);
    }

    method ExportOn(k: nat, now: int, ghost clock: int)
      requires Valid() && k < |servers|
      modifies Objects()
      ensures State(now) == ExportAt(old(State(clock)), k, now)
    {
      StateIsServerOf(servers[k]);
      servers[k].LocalFileExport(now);
      StateIsServerOf(servers[k]);
      assert State(now).servers == ExportAt(old(State(clock)), k, now).servers;
    }

    method SymlinkOn(k: nat, path: Path, entry: Path, now: int)
      requires Valid() && k < |servers| && IsVirtualSymlink(entry)
      modifies Objects()
      ensures Became(k, Node(WriteLine(old(ServerOf(servers[k])), entry, path, now), old(secondary.files)))
    {
      StateIsServerOf(servers[k]);
      var ok := servers[k].Symlink(path, entry, now);
      StateIsServerOf(servers[k]);
    }

    /** The server that `GetBurstBuffer` finds for a path. */
    ghost function OwnerOf(path: Path): Node
      requires Valid()
      reads Objects()
    {
      Node(ServerOf(servers[owner(path)]), secondary.files)
    }

    // ----- requests for one file -----

    /** The handle of a descriptor that the path's server returned. */
    function HandleFor(path: Path, reply: Reply): (file: Option<Handles.ClientFile>)
      requires Valid()
      ensures file.Some? <==> reply.Opened?
      ensures file.Some? ==>
        && file.value.path == path && file.value.host == hosts[owner(path)]
        && file.value.fdOrg as int == reply.fd as int
        && file.value.fd == Handles.Pack(Handles.AddrToBinary(aton, hosts[owner(path)]), file.value.fdOrg)
    {
      if reply.Opened? then Some(Handles.FileFor(aton, path, hosts[owner(path)], (reply.fd as int) as Handles.Int32)) else None
    }

    method Create(path: Path, flags: OpenFlags, fd: Fd, now: int) returns (file: Option<Handles.ClientFile>)
      requires Valid()
      modifies Objects()
      ensures var (n, r) := Servers.Create(old(OwnerOf(path)), path, flags, fd, now);
        Became(owner(path), n) && file == HandleFor(path, r)
    {
      StateIsServerOf(servers[owner(path)]);
      var reply := servers[owner(path)].Create(path, flags, fd, now);
      StateIsServerOf(servers[owner(path)]);
      file := HandleFor(path, reply);
    }

    /** A successful open starts the prefetch thread for the directory of the path. */
    method Open(path: Path, flags: OpenFlags, fd: Fd, now: int) returns (file: Option<Handles.ClientFile>)
      requires Valid() && this !in Objects()
      modifies this, Objects()
      ensures var (n, r) := Servers.Open(old(OwnerOf(path)), path, flags, fd, now);
        Became(owner(path), n) && file == HandleFor(path, r)
      ensures (prevReadDir, targetFilename) ==
        if file.Some? then (ParentPath(path), FileName(path)) else old((prevReadDir, targetFilename))
    {
      var reply := OpenOn(path, flags, fd, now);
      file := HandleFor(path, reply);
      ghost var all, files := All(), secondary.files;
      if file.Some? {
        StartPrevFileRead(path);
      }
      assert All() == all && secondary.files == files;
    }

    method OpenOn(path: Path, flags: OpenFlags, fd: Fd, now: int) returns (reply: Reply)
      requires Valid()
      modifies Objects()
      ensures var (n, r) := Servers.Open(old(OwnerOf(path)), path, flags, fd, now);
        Became(owner(path), n) && reply == r
    {
      StateIsServerOf(servers[owner(path)]);
      reply := servers[owner(path)].Open(path, flags, fd, now);
      StateIsServerOf(servers[owner(path)]);
    }

    method StartPrevFileRead(path: Path)
      modifies this
      ensures prevReadDir == ParentPath(path) && targetFilename == FileName(path)
    {
      prevReadDir := ParentPath(path);
      targetFilename := FileName(path);
    }

    method FilePrevRead(path: Path, now: int)
      requires Valid()
      modifies Objects()
      ensures Became(owner(path), Servers.Prefetch(old(OwnerOf(path)), path, now))
    {
      StateIsServerOf(servers[owner(path)]);
      servers[owner(path)].FilePrevRead(path, now);
      StateIsServerOf(servers[owner(path)]);
    }

    /** The paths asked for, of the names found in the secondary directory. */
    function Asked(names: set<string>): set<Path>
      reads this
    {
      set name | name in names && !IsDot(name) && name != targetFilename :: AskedFor(prevReadDir, name)
    }

    /** After the open of a file in the root directory the thread asks for every other name of that directory,
        and not for the file itself; after the open of any other file it asks for nothing in the file's
        directory. */
    lemma AskedAfterOpen(path: Path, names: set<string>, p: Path)
      requires Canonical(path) && prevReadDir == ParentPath(path) && targetFilename == FileName(path)
      requires forall name :: name in names ==> name != "" && '/' !in name
      ensures '/' !in path[1..] ==>
        (p in Asked(names) <==> |p| > 1 && p[0] == '/' && p[1..] in names && p[1..] !in {".", ".."} && p != path)
      ensures '/' in path[1..] && p in Asked(names) ==> ParentPath(p) != ParentPath(path)
    {
      ParentAndName(path);
      RootIff(path);
      if p in Asked(names) {
        var name :| name in names && !IsDot(name) && name != targetFilename && p == AskedFor(prevReadDir, name);
        if '/' in path[1..] {
          NotInside(ParentPath(path), name);
        }
      }
      if '/' !in path[1..] && |p| > 1 && p[0] == '/' {
        assert p == AskedFor(prevReadDir, p[1..]);
      }
    }

    ghost function All(): (r: seq<Server>)
      reads Objects()
      ensures |r| == |servers| && forall i :: 0 <= i < |r| ==> r[i] == ServerOf(servers[i])
    {
      seq(|servers|, i requires 0 <= i < |servers| reads Objects() => ServerOf(servers[i]))
    }

    /** Every server has fetched its own of the paths since it was as in `base`. */
    ghost predicate AllFetched(base: seq<Server>, paths: set<Path>, times: Path -> int)
      reads Objects()
    {
      |base| == |servers| && forall i :: 0 <= i < |servers| ==>
        ServerOf(servers[i]) == Fetched(base[i], secondary.files, OwnedBy(i, paths), times)
    }

    method FetchNext(path: Path, times: Path -> int, ghost base: seq<Server>, ghost done: set<Path>)
      requires Valid() && AllFetched(base, done, times) && path !in done
      modifies Objects()
      ensures secondary.files == old(secondary.files) && AllFetched(base, done + {path}, times)
    {
      ghost var o := owner(path);
      FetchedNext(base[o], secondary.files, OwnedBy(o, done), path, times);
      FilePrevRead(path, times(path));
      assert ServerOf(servers[o]) == Fetched(base[o], secondary.files, OwnedBy(o, done) + {path}, times);
      forall i | 0 <= i < |servers|
        ensures ServerOf(servers[i]) == Fetched(base[i], secondary.files, OwnedBy(i, done + {path}), times)
      {
        assert OwnedBy(i, done + {path}) == OwnedBy(i, done) + if i == o then {path} else {};
        assert i != o ==> OwnedBy(i, done) + {} == OwnedBy(i, done);
      }
    }

    lemma NothingFetched(times: Path -> int)
      ensures AllFetched(All(), {}, times)
    {
      forall i | 0 <= i < |servers| ensures Fetched(All()[i], secondary.files, OwnedBy(i, {}), times) == All()[i] {
        assert OwnedBy(i, {}) == {};
      }
    }

    /** The prefetch thread: in whatever order it asks, each server fetches its own. */
    method ThreadCall(names: set<string>, times: Path -> int)
      requires Valid() && this !in Objects()
      modifies Objects()
      ensures secondary.files == old(secondary.files) && AllFetched(old(All()), Asked(names), times)
    {
      var todo := Asked(names);
      ghost var base, done: set<Path> := All(), {};
      NothingFetched(times);
      while todo != {}
        invariant done + todo == Asked(names) && done !! todo && secondary.files == old(secondary.files)
        invariant AllFetched(base, done, times)
      {
        var path :| path in todo;
        FetchNext(path, times, base, done);
        todo, done := todo - {path}, done + {path};
      }
      assert done == Asked(names);
    }

    function OwnedBy(i: nat, paths: set<Path>): set<Path> {
      set p | p in paths && owner(p) == i
    }

    /** The file branch: the server of the old name does it all. */
    method Rename(oldPath: Path, newPath: Path, now: int) returns (reply: Reply)
      requires Valid()
      modifies Objects()
      ensures var (n, r) := Servers.Rename(old(OwnerOf(oldPath)), oldPath, newPath, now);
        Became(owner(oldPath), n) && reply == r
    {
      StateIsServerOf(servers[owner(oldPath)]);
      reply := servers[owner(oldPath)].RenameFile(oldPath, newPath, now);
      StateIsServerOf(servers[owner(oldPath)]);
    }

    // ----- links -----

    function StatOf(path: Path): Option<Attr>
      requires Valid()
      reads Objects()
    {
      FileStat(servers[owner(path)].local.Contents(), secondary.Contents(), path)
    }

    /** On the path's server neither tier has it as a directory or a real link. */
    predicate Plain(path: Path)
      requires Valid()
      reads Objects()
    {
      PlainPath(servers[owner(path)].local.Contents(), path) && PlainPath(secondary.Contents(), path)
    }

    /** On the two tiers of its server the path is at most one thing. */
    predicate Clear(path: Path)
      requires Valid()
      reads Objects()
    {
      OneThing(servers[owner(path)].local.Contents(), secondary.Contents(), path)
    }

    /** The attributes are those of what the two tiers of the path's server have. */
    predicate TellsOf(attr: Option<Attr>, path: Path)
      requires Valid()
      reads Objects()
    {
      Tells(attr, servers[owner(path)].local.Contents(), secondary.Contents(), path)
    }

    method GetAttrExInternal(path: Path, ghost clock: int) returns (attr: Option<Attr>)
      requires Valid()
      ensures attr == StatOf(path)
      ensures attr.None? <==> Missing(path)
      ensures Clear(path) ==> TellsOf(attr, path)
      ensures Clear(path) && SeenAt(path).Some? && (IsVirtualSymlink(path) || IsVirtualLink(path)) ==>
        attr.value.linkPath == FirstLine(SeenAt(path).value.data) &&
        (IsVirtualSymlink(path) ==> (attr.value.marked <==> attr.value.linkPath != ""))
      ensures Plain(path) ==> LinkPath(State(clock), path) == match attr case None => None case Some(a) => Some(a.linkPath)
      ensures Plain(path) && View(State(clock), path).Some? ==>
        attr.Some? && attr.value.stat.Some? && attr.value.stat.value.size == |View(State(clock), path).value|
    {
      attr := servers[owner(path)].GetAttr(path);
      if Clear(path) && SeenAt(path).Some? && (IsVirtualSymlink(path) || IsVirtualLink(path)) {
        EntryTells(servers[owner(path)].local.Contents(), secondary.Contents(), path);
      }
      if Plain(path) {
        FileStatIsLinkPath(State(clock), servers[owner(path)].local.Contents(), secondary.Contents(), path);
      }
    }

    function AttrOf(path: Path): Option<Attr>
      requires Valid()
      reads Objects()
    {
      var sym, link := StatOf(CreateVirtualSymlink(path)), StatOf(CreateVirtualLink(path));
      Resolved(sym, link, if link.Some? then StatOf(link.value.linkPath) else None, StatOf(path))
    }

    /** Neither tier of its server has anything of this name. */
    predicate Missing(path: Path)
      requires Valid()
      reads Objects()
    {
      !servers[owner(path)].local.Contents().Has(path) && !secondary.Contents().Has(path)
    }

    /** The file that a reader of the path sees. */
    function SeenAt(path: Path): Option<File>
      requires Valid()
      reads Objects()
    {
      FileSeen(servers[owner(path)].local.files, secondary.files, path)
    }

    lemma SeenIsView(path: Path, clock: int)
      requires Valid()
      ensures View(State(clock), path) == match SeenAt(path) case None => None case Some(file) => Some(file.data)
    {
    }

    /** A path without link entries has its own attributes. A symlink entry stands for it with the entry's
        attributes, its first line, and the mark of a link if that is not empty. A link entry alone stands for
        it with the attributes of what its first line names. */
    method GetAttrEx(path: Path) returns (attr: Option<Attr>)
      requires Valid()
      ensures attr == AttrOf(path)
      ensures var sym, link := CreateVirtualSymlink(path), CreateVirtualLink(path);
        && (Missing(sym) && Missing(link) && Clear(path) ==> TellsOf(attr, path))
        && (Clear(sym) && SeenAt(sym).Some? ==>
             attr.Some? && attr.value.linkPath == FirstLine(SeenAt(sym).value.data) && attr.value.kind.Regular? &&
             (attr.value.marked <==> attr.value.linkPath != ""))
        && (Missing(sym) && Clear(link) && SeenAt(link).Some? ==>
             var t := FirstLine(SeenAt(link).value.data);
             attr.Some? && (t == "" ==> TellsOf(attr, link)) &&
             (t != "" && Clear(t) ==> if Missing(t) then attr.value.kind.Unset? else TellsOf(attr, t)))
    {
      Recognisers(path);
      attr := GetAttrExInternal(CreateVirtualSymlink(path), 0);
      if attr.None? {
        attr := GetAttrExInternal(CreateVirtualLink(path), 0);
        if attr.None? {
          attr := GetAttrExInternal(path, 0);
        } else if attr.value.linkPath != "" {
          attr := GetAttrExInternal(attr.value.linkPath, 0);
          if attr.None? {
            attr := Some(Attr(Unset, false, None, ""));
          }
        }
      } else if attr.value.linkPath != "" {
        attr := Some(attr.value.(marked := true));
      }
    }

    /** The entries of a path are files or nothing. */
    predicate PlainEntries(path: Path)
      requires Valid()
      reads Objects()
    {
      Plain(CreateVirtualSymlink(path)) && Plain(CreateVirtualLink(path))
    }

    function TargetOf(path: Path, size: nat): Option<Data>
      requires Valid()
      reads Objects()
    {
      var sym, link := StatOf(CreateVirtualSymlink(path)), StatOf(CreateVirtualLink(path));
      if sym.Some? then Some(sym.value.linkPath)
      else if link.Some? then Some(link.value.linkPath)
      else ReadRealLink(servers[owner(path)].local.Contents(), secondary.Contents(), path, size)
    }

    /** A symlink entry's target, else a link entry's, else what a real link says. */
    method ReadLink(path: Path, size: nat, ghost clock: int) returns (target: Option<Data>)
      requires Valid()
      ensures target == TargetOf(path, size)
      ensures PlainEntries(path) ==>
        target == (var virtual := Links.ReadLink(State(clock), path);
          if virtual.Some? then virtual
          else ReadRealLink(servers[owner(path)].local.Contents(), secondary.Contents(), path, size))
    {
      var attr := GetAttrExInternal(CreateVirtualSymlink(path), clock);
      if attr.None? {
        attr := GetAttrExInternal(CreateVirtualLink(path), clock);
        if attr.None? {
          target := servers[owner(path)].ReadLink(path, size);
          return;
        }
      }
      return Some(attr.value.linkPath);
    }

    /** The path's attributes are a directory's. */
    predicate FoundDirectory(path: Path)
      requires Valid()
      reads Objects()
    {
      IsDirectory(AttrOf(path))
    }

    /** The path has no link entries and is at most one thing. */
    predicate Bare(path: Path)
      requires Valid()
      reads Objects()
    {
      Missing(CreateVirtualSymlink(path)) && Missing(CreateVirtualLink(path)) && Clear(path)
    }

    predicate NamesDirectory(path: Path)
      requires Valid()
      reads Objects()
    {
      path in servers[owner(path)].local.dirs || path in secondary.dirs
    }

    /** A directory is found exactly where one of the two tiers has one. */
    lemma FoundIsDirectory(path: Path)
      requires Valid() && Bare(path)
      ensures FoundDirectory(path) <==> NamesDirectory(path)
    {
      FileStatTells(servers[owner(path)].local.Contents(), secondary.Contents(), path);
    }

    method FindDirectory(path: Path) returns (directory: bool)
      requires Valid()
      ensures directory == old(FoundDirectory(path))
      ensures Bare(path) ==> (directory <==> NamesDirectory(path))
    {
      if Bare(path) {
        FoundIsDirectory(path);
      }
      var attr := GetAttrEx(path);
      directory := IsDirectory(attr);
    }

    ghost function Stores(): (r: seq<Store>)
      reads Objects()
      ensures |r| == |servers| && forall i :: 0 <= i < |r| ==> r[i] == servers[i].local.Contents()
    {
      seq(|servers|, i requires 0 <= i < |servers| reads Objects() => servers[i].local.Contents())
    }

    /** The first `k` servers have linked the directory on their tier and on the secondary one. */
    ghost predicate LinkedUpTo(k: nat, path: Path, link: Path, stores: seq<Store>, shared: Store)
      requires k <= |servers| == |stores|
      reads Objects()
    {
      && (forall j :: 0 <= j < |servers| ==>
           Stores()[j] == if j < k then WithLink(stores[j], path, link) else stores[j])
      && secondary.Contents() == if k == 0 then shared else WithLink(shared, path, link)
    }

    /** A link to a directory is made by every server, on both tiers; any other link is one entry on the
        entry's own server. */
    method Symlink(path: Path, link: Path, now: int, ghost clock: int)
      requires Valid()
      modifies Objects()
      ensures old(FoundDirectory(path)) && !IsVirtualSymlink(link) ==>
        && LinkedUpTo(|servers|, path, link, old(Stores()), old(secondary.Contents()))
        && All() == old(All())
      ensures old(FoundDirectory(path)) && IsVirtualSymlink(link) ==>
        WrittenUpTo(|servers|, path, link, now, old(All())) && secondary.files == old(secondary.files)
      ensures !old(FoundDirectory(path)) ==>
        State(now) == PutLine(old(State(clock)), CreateVirtualSymlink(link), path, now)
      ensures old(Bare(path)) && !old(NamesDirectory(path)) ==>
        State(now) == PutLine(old(State(clock)), CreateVirtualSymlink(link), path, now)
      ensures old(Bare(path)) && old(NamesDirectory(path)) && !IsVirtualSymlink(link) ==>
        LinkedUpTo(|servers|, path, link, old(Stores()), old(secondary.Contents())) && All() == old(All())
    {
      if Bare(path) {
        FoundIsDirectory(path);
      }
      var directory := FindDirectory(path);
      assert Stores() == old(Stores()) && All() == old(All());
      if directory {
        SymlinkDirectory(path, link, now);
      } else {
        SymlinkFile(path, link, now, clock);
      }
    }

    /** One server links the directory. */
    method LinkOn(k: nat, path: Path, link: Path, now: int)
      requires Valid() && k < |servers| && !IsVirtualSymlink(link)
      modifies Objects()
      ensures All() == old(All())
      ensures Stores() == old(Stores())[k := WithLink(old(Stores()[k]), path, link)]
      ensures secondary.Contents() == WithLink(old(secondary.Contents()), path, link)
    {
      StateIsServerOf(servers[k]);
      var ok := servers[k].Symlink(path, link, now);
      StateIsServerOf(servers[k]);
    }

    /** The first `k` servers have written the line of an entry that is not theirs to have. */
    ghost predicate WrittenUpTo(k: nat, path: Path, link: Path, now: int, all: seq<Server>)
      requires k <= |servers| == |all|
      reads Objects()
    {
      forall j :: 0 <= j < |servers| ==> All()[j] == if j < k then WriteLine(all[j], link, path, now) else all[j]
    }

    /** With the extension in its own name, a link to a directory becomes an entry on every server. */
    method SymlinkDirectory(path: Path, link: Path, now: int)
      requires Valid()
      modifies Objects()
      ensures !IsVirtualSymlink(link) ==>
        && LinkedUpTo(|servers|, path, link, old(Stores()), old(secondary.Contents()))
        && All() == old(All())
      ensures IsVirtualSymlink(link) ==>
        WrittenUpTo(|servers|, path, link, now, old(All())) && secondary.files == old(secondary.files)
    {
      if IsVirtualSymlink(link) {
        SymlinkEntries(path, link, now);
      } else {
        SymlinkReal(path, link, now);
      }
    }

    method SymlinkEntries(path: Path, link: Path, now: int)
      requires Valid() && IsVirtualSymlink(link)
      modifies Objects()
      ensures WrittenUpTo(|servers|, path, link, now, old(All())) && secondary.files == old(secondary.files)
    {
      for k := 0 to |servers|
        invariant WrittenUpTo(k, path, link, now, old(All())) && secondary.files == old(secondary.files)
      {
        SymlinkOn(k, path, link, now);
      }
    }

    method SymlinkReal(path: Path, link: Path, now: int)
      requires Valid() && !IsVirtualSymlink(link)
      modifies Objects()
      ensures LinkedUpTo(|servers|, path, link, old(Stores()), old(secondary.Contents())) && All() == old(All())
    {
      for k := 0 to |servers|
        invariant LinkedUpTo(k, path, link, old(Stores()), old(secondary.Contents())) && All() == old(All())
      {
        LinkOn(k, path, link, now);
      }
    }

    method SymlinkFile(path: Path, link: Path, now: int, ghost clock: int)
      requires Valid()
      modifies Objects()
      ensures State(now) == PutLine(old(State(clock)), CreateVirtualSymlink(link), path, now)
    {
      var entry := CreateVirtualSymlink(link);
      SymlinkEntryIsLink(link);
      SymlinkOn(owner(entry), path, entry, now);
      ghost var c := old(State(clock));
      ghost var n := At(c, entry);
      ChangedIsPut(c, State(now), entry, n.(server := WriteLine(n.server, entry, path, now)));
    }

    // ----- requests for every server -----

    method UnlinkOnAll(path: Path, ghost clock: int, ghost now: int)
      requires Valid()
      modifies Objects()
      ensures State(now) == UnlinkEverywhere(old(State(clock)), path, now)
    {
      for k := 0 to |servers|
        invariant forall j :: 0 <= j < k ==> (
          ServerOf(servers[j]) == Servers.Unlink(Node(old(ServerOf(servers[j])), old(secondary.files)), path).server)
        invariant forall j :: k <= j < |servers| ==> ServerOf(servers[j]) == old(ServerOf(servers[j]))
        invariant secondary.files == if k == 0 then old(secondary.files) else old(secondary.files) - {path}
      {
        UnlinkOn(k, path);
      }
      assert owner(path) < |servers|;
      assert State(now).servers == UnlinkEverywhere(old(State(clock)), path, now).servers;
    }

    method UnlinkInternal(path: Path, isAllServer: bool, ghost clock: int, ghost now: int)
      requires Valid()
      modifies Objects()
      ensures State(now) == Unlinked(old(State(clock)), path, isAllServer, now)
    {
      if isAllServer {
        UnlinkOnAll(path, clock, now);
      } else {
        UnlinkOn(owner(path), path);
        ghost var c := old(State(clock));
        ChangedIsPut(c, State(now), path, Servers.Unlink(At(c, path), path));
      }
    }

    /** Which entry stands for the path: its symlink entry, else its link entry, else the path itself. */
    method FindEntry(path: Path, ghost clock: int) returns (target: Path)
      requires Valid()
      ensures PlainEntries(path) ==> target == UnlinkTarget(State(clock), path)
    {
      target := CreateVirtualSymlink(path);
      var entry := GetAttrExInternal(target, clock);
      if entry.None? {
        target := CreateVirtualLink(path);
        entry := GetAttrExInternal(target, clock);
        if entry.None? {
          target := path;
        }
      }
    }

    method Unlink(path: Path, ghost clock: int, ghost now: int)
      requires Valid()
      modifies Objects()
      ensures old(PlainEntries(path)) ==> State(now) == UnlinkResolved(old(State(clock)), path, now)
    {
      ghost var c := State(clock);
      var target := FindEntry(path, clock);
      assert All() == old(All()) && State(clock) == c;
      if PlainEntries(path) {
        ResolvedIsUnlinked(c, path, now, target);
      }
      UnlinkInternal(target, target == path, clock, now);
    }

    /** A pass on every server in list order, each at its own time. */
    method LocalFileExport(times: seq<int>, ghost clock: int)
      requires Valid() && |times| == |servers|
      modifies Objects()
      ensures |servers| > 0 && State(times[|servers| - 1]) == Flushed(old(State(clock)), 0, times)
    {
      ghost var c := State(clock);
      ghost var steps := FlushSteps(c, 0, times);
      ExportAll(times, c, steps, Flushed(c, 0, times));
    }

    /** The loop; `steps` are the states between the passes. */
    method ExportAll(times: seq<int>, ghost start: Cluster, ghost steps: seq<Cluster>, ghost goal: Cluster)
      requires Valid() && |times| == |servers| && State(start.clock) == start
      requires AreSteps(steps, 0, times) && steps[0] == start && steps[|servers|] == goal
      modifies Objects()
      ensures |servers| > 0 && State(times[|servers| - 1]) == goal
    {
      assert owner("") < |servers|;
      for k := 0 to |servers|
        invariant State(steps[k].clock) == steps[k] && (k > 0 ==> steps[k].clock == times[k - 1])
      {
        NextStep(steps, 0, times, k);
        ExportOn(k, times[k], steps[k].clock);
      }
    }
  }
}
