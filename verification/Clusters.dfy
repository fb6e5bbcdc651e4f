// The cluster: servers with private local tiers, one shared secondary tier, and a routing function
// from paths to servers. `Step` is what the client's request makes the servers do; `FlatStep` is
// what the same request does to one flat file system.

module Clusters {
  import opened Basics
  import opened Descriptors
  import opened Servers
  import opened VirtualNames

  datatype Cluster = Cluster(owner: Path -> nat, servers: seq<Server>, secondary: Tier, clock: int)

  ghost predicate Routed(c: Cluster) {
    forall p :: c.owner(p) < |c.servers|
  }

  /** The server a path is routed to, with the secondary tier. */
  function At(c: Cluster, p: Path): Node
    requires c.owner(p) < |c.servers|
  {
    Node(c.servers[c.owner(p)], c.secondary)
  }

  function Put(c: Cluster, p: Path, n: Node, now: int): Cluster
    requires c.owner(p) < |c.servers|
  {
    c.(servers := c.servers[c.owner(p) := n.server], secondary := n.secondary, clock := now)
  }

  /** What a reader of `p` sees. */
  function View(c: Cluster, p: Path): Option<Data>
    requires c.owner(p) < |c.servers|
  {
    Look(At(c, p), p)
  }

  /** A client request, or background work on one server. The descriptor of `Create` and `Open` is
      the one the kernel hands out. */
  datatype Op =
    | Create(path: Path, flags: OpenFlags, fd: Fd)
    | Open(path: Path, flags: OpenFlags, fd: Fd)
    | Read(path: Path, fd: Fd, offset: int, size: nat)
    | Write(path: Path, fd: Fd, offset: int, buf: Data)
    | FTruncate(path: Path, fd: Fd, length: int)
    | Release(path: Path, fd: Fd)
    | Truncate(path: Path, length: int)
    | Unlink(path: Path)
    | Rename(source: Path, target: Path)
    | Symlink(referent: Path, link: Path)
    | Link(referent: Path, link: Path)
    | Prefetch(path: Path)
    | Export(server: nat)
    | Restart(server: nat)

  /** The server's Unlink sent to every server. */
  function UnlinkEverywhere(c: Cluster, p: Path, now: int): Cluster {
    c.(servers := seq(|c.servers|, i requires 0 <= i < |c.servers| =>
         Servers.Unlink(Node(c.servers[i], c.secondary), p).server),
       secondary := c.secondary - {p}, clock := now)
  }

  /** The entry that an unlink of `p` removes. */
  function UnlinkTarget(c: Cluster, p: Path): Path
    requires Routed(c)
  {
    if View(c, CreateVirtualSymlink(p)).Some? then CreateVirtualSymlink(p)
    else if View(c, CreateVirtualLink(p)).Some? then CreateVirtualLink(p)
    else p
  }

  /** A symlink entry of that name goes first, then a link entry, each on its own server only;
      a plain name goes from every server. */
  function UnlinkResolved(c: Cluster, p: Path, now: int): Cluster
    requires Routed(c)
  {
    var t := UnlinkTarget(c, p);
    if t != p then Put(c, t, Servers.Unlink(At(c, t), t), now) else UnlinkEverywhere(c, p, now)
  }

  function PutLine(c: Cluster, p: Path, text: Data, now: int): Cluster
    requires Routed(c)
  {
    var n := At(c, p);
    Put(c, p, n.(server := WriteLine(n.server, p, text, now)), now)
  }

  /** A `CheckLocalFiles` pass on server `i`. */
  function ExportAt(c: Cluster, i: nat, now: int): Cluster
    requires i < |c.servers|
  {
    var n := Servers.Export(Node(c.servers[i], c.secondary), now);
    c.(servers := c.servers[i := n.server], secondary := n.secondary, clock := now)
  }

  /** A pass on each server from `k` on, in list order, the pass on server `i` at times[i]. */
  function Flushed(c: Cluster, k: nat, times: seq<int>): (r: Cluster)
    requires k <= |c.servers| == |times|
    ensures r.owner == c.owner && |r.servers| == |c.servers|
    decreases |c.servers| - k
  {
    if k == |c.servers| then c else Flushed(ExportAt(c, k, times[k]), k + 1, times)
  }

  lemma FlushedFirst(c: Cluster, k: nat, times: seq<int>)
    requires k < |c.servers| == |times|
    ensures Flushed(c, k, times) == Flushed(ExportAt(c, k, times[k]), k + 1, times)
  {
  }

  function Step(c: Cluster, op: Op, now: int): (r: (Cluster, Reply))
    requires Routed(c)
    ensures r.0.owner == c.owner && |r.0.servers| == |c.servers|
  {
    match op
    case Create(p, flags, fd) =>
      var (n, r) := Servers.Create(At(c, p), p, flags, fd, now); (Put(c, p, n, now), r)
    case Open(p, flags, fd) =>
      var (n, r) := Servers.Open(At(c, p), p, flags, fd, now); (Put(c, p, n, now), r)
    case Read(p, fd, offset, size) =>
      (c.(clock := now), Servers.Read(At(c, p).server, fd, offset, size))
    case Write(p, fd, offset, buf) =>
      var (s, r) := Servers.Write(At(c, p).server, fd, offset, buf, now);
      (Put(c, p, At(c, p).(server := s), now), r)
    case FTruncate(p, fd, length) =>
      var (s, r) := Servers.FTruncate(At(c, p).server, fd, length, now);
      (Put(c, p, At(c, p).(server := s), now), r)
    case Release(p, fd) =>
      (Put(c, p, At(c, p).(server := Servers.Release(At(c, p).server, p, fd)), now), Done)
    case Truncate(p, length) =>
      var (n, r) := Servers.Truncate(At(c, p), p, length, now); (Put(c, p, n, now), r)
    case Unlink(p) => (UnlinkResolved(c, p, now), Done)
    case Rename(p, q) =>
      var (n, r) := Servers.Rename(At(c, p), p, q, now); (Put(c, p, n, now), r)
    case Symlink(t, l) => (PutLine(c, CreateVirtualSymlink(l), t, now), Done)
    case Link(t, l) => (PutLine(c, CreateVirtualLink(l), t, now), Done)
    case Prefetch(p) => (Put(c, p, Servers.Prefetch(At(c, p), p, now), now), Done)
    case Export(i) =>
      if i < |c.servers| then (ExportAt(c, i, now), Done) else (c, Failed)
    case Restart(i) =>
      if i < |c.servers| then
        (c.(servers := c.servers[i := Servers.Restart(c.servers[i])], clock := now), Done)
      else (c, Failed)
  }

  // ----- the flat file system -----

  /** One map from paths to bytes, and the open handles, each named by its path and descriptor. */
  datatype Flat = Flat(files: map<Path, Data>, handles: map<(Path, Fd), OpenFlags>)

  /** POSIX `open`. */
  function FlatOpen(f: Flat, p: Path, flags: OpenFlags, fd: Fd): (Flat, Reply) {
    if p in f.files then
      if flags.creat && flags.excl then (f, Failed)
      else (Flat(if flags.trunc then f.files[p := []] else f.files, f.handles[(p, fd) := flags]), Opened(fd))
    else if flags.creat then (Flat(f.files[p := []], f.handles[(p, fd) := flags]), Opened(fd))
    else (f, Failed)
  }

  function FlatUnlink(f: Flat, p: Path): Flat {
    Flat(f.files - {p}, map h | h in f.handles && h.0 != p :: f.handles[h])
  }

  function FlatStep(f: Flat, op: Op): (Flat, Reply) {
    match op
    case Create(p, flags, fd) => FlatOpen(f, p, flags, fd)
    case Open(p, flags, fd) => FlatOpen(f, p, flags, fd)
    case Read(p, fd, offset, size) =>
      if (p, fd) in f.handles && p in f.files && f.handles[(p, fd)].CanRead() && offset >= 0
      then (f, Bytes(ReadAt(f.files[p], offset, size))) else (f, Failed)
    case Write(p, fd, offset, buf) =>
      if (p, fd) in f.handles && p in f.files && f.handles[(p, fd)].CanWrite() && offset >= 0
      then (f.(files := f.files[p := WriteAt(f.files[p], offset, buf)]), Done) else (f, Failed)
    case FTruncate(p, fd, length) =>
      if (p, fd) in f.handles && p in f.files && f.handles[(p, fd)].CanWrite() && length >= 0
      then (f.(files := f.files[p := Resize(f.files[p], length)]), Done) else (f, Failed)
    case Release(p, fd) => (f.(handles := f.handles - {(p, fd)}), Done)
    case Truncate(p, length) =>
      if p in f.files && length >= 0
      then (f.(files := f.files[p := Resize(f.files[p], length)]), Done) else (f, Failed)
    case Unlink(p) =>
      (FlatUnlink(f, if CreateVirtualSymlink(p) in f.files then CreateVirtualSymlink(p)
                     else if CreateVirtualLink(p) in f.files then CreateVirtualLink(p) else p), Done)
    case Rename(p, q) =>
      if p in f.files then (f.(files := (f.files - {p})[q := f.files[p]]), Done) else (f, Done)
    case Symlink(t, l) => (f.(files := f.files[CreateVirtualSymlink(l) := t + "\n"]), Done)
    case Link(t, l) => (f.(files := f.files[CreateVirtualLink(l) := t + "\n"]), Done)
    case Prefetch(_) => (f, Done)
    case Export(_) => (f, Done)
    case Restart(_) => (f, Done)
  }

  // ----- what every step keeps -----

  /** Files and descriptors of server `i` are for paths routed to it. */
  ghost predicate Owned(c: Cluster, i: nat)
    requires i < |c.servers|
  {
    forall p :: p in c.servers[i].local ==> c.owner(p) == i
  }

  /** The table partitions the open descriptors by path, and each open file is in the local tier. */
  ghost predicate Sound(s: Server) {
    && Partition(s.table, s.open)
    && forall fd :: fd in s.open ==> s.open[fd].attached && s.open[fd].path in s.local
  }

  /** A local file that is older than the secondary one has the same bytes. */
  predicate Agree(local: Option<File>, secondary: Option<File>) {
    local.Some? && secondary.Some? && local.value.mtime < secondary.value.mtime ==>
      local.value.data == secondary.value.data
  }

  ghost predicate Coherent(n: Node) {
    forall p :: Agree(Lookup(n.server.local, p), Lookup(n.secondary, p))
  }

  predicate StampedBy(file: Option<File>, clock: int) {
    file.Some? ==> file.value.mtime <= clock
  }

  ghost predicate Stamped(tier: Tier, clock: int) {
    forall p :: StampedBy(Lookup(tier, p), clock)
  }

  ghost predicate Inv(c: Cluster) {
    && Routed(c)
    && Stamped(c.secondary, c.clock)
    && forall i :: 0 <= i < |c.servers| ==>
         Owned(c, i) && Sound(c.servers[i]) && Coherent(Node(c.servers[i], c.secondary)) &&
         Stamped(c.servers[i].local, c.clock)
  }

  /** The flat file system shows the same files and the same handles. */
  ghost predicate Shows(c: Cluster, f: Flat)
    requires Routed(c)
  {
    && (forall p :: View(c, p) == Lookup(f.files, p))
    && (forall p, fd :: Lookup(f.handles, (p, fd)) == HandleAt(At(c, p).server.open, p, fd))
  }

  // ----- when a request may run -----

  /** The handle is one that an Open or Create of this path returned and that is still open. */
  predicate Live(c: Cluster, p: Path, fd: Fd)
    requires c.owner(p) < |c.servers|
  {
    fd in Fds(At(c, p).server.table, p)
  }

  /** Creation looks at the local tier only: a name that only the secondary tier has must be meant to
      be emptied, and not exclusively. */
  predicate CreateFaithful(n: Node, p: Path, flags: OpenFlags) {
    p in n.server.local || p !in n.secondary ||
    (flags.creat && !flags.excl && (flags.trunc || n.secondary[p].data == []))
  }

  /** A file may be renamed onto a name that has no local copy and, if the file itself is local, no
      secondary one. */
  predicate RenameFaithful(c: Cluster, p: Path, q: Path)
    requires c.owner(p) < |c.servers| && c.owner(q) < |c.servers|
  {
    p == q || View(c, p).None? ||
    (q !in At(c, q).server.local && (p in At(c, p).server.local ==> q !in c.secondary))
  }

  ghost predicate Allowed(c: Cluster, op: Op)
    requires Routed(c)
  {
    match op
    case Create(p, flags, fd) => fd !in At(c, p).server.open && CreateFaithful(At(c, p), p, flags)
    case Open(p, flags, fd) => fd !in At(c, p).server.open
    case Read(p, fd, _, _) => Live(c, p, fd)
    case Write(p, fd, _, _) => Live(c, p, fd)
    case FTruncate(p, fd, _) => Live(c, p, fd)
    case Release(p, fd) => Live(c, p, fd)
    case Rename(p, q) => Fds(At(c, p).server.table, p) == {} && RenameFaithful(c, p, q)
    case Restart(i) => i < |c.servers| && c.servers[i].open == map[]
    case Export(i) => i < |c.servers|
    case _ => true
  }
}
