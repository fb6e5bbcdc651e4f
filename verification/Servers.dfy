// One burst buffer server over its private local tier and the shared secondary tier:
// the state it reads and writes, and the effect of each request on that state.

module Servers {
  import opened Basics
  import opened Descriptors

  /** A regular file of one tier: its bytes and its modification time. */
  datatype File = File(data: Data, mtime: int)

  type Tier = map<Path, File>

  /** `registered` is the exporter's `local_files_`, `table` the manager's `table_`,
      and `open` the descriptors of the server process. */
  datatype Server = Server(
    local: Tier,
    registered: map<Path, int>,
    table: map<Path, set<Fd>>,
    open: map<Fd, OpenFile>)

  /** What one request can touch: one server and the secondary tier. */
  datatype Node = Node(server: Server, secondary: Tier)

  datatype Reply = Done | Failed | Opened(fd: Fd) | Bytes(data: Data)

  /** The bytes found through `target_path`: the local copy if there is one, else the secondary one. */
  function Look(n: Node, p: Path): Option<Data> {
    if p in n.server.local then Some(n.server.local[p].data)
    else if p in n.secondary then Some(n.secondary[p].data)
    else None
  }

  // ----- the kernel -----

  /** `open` on one tier; None is an error return. */
  function OpenIn(tier: Tier, p: Path, flags: OpenFlags, now: int): Option<Tier> {
    if p in tier then
      if flags.creat && flags.excl then None
      else if flags.trunc then Some(tier[p := File([], now)])
      else Some(tier)
    else if flags.creat then Some(tier[p := File([], now)])
    else None
  }

  /** The bytes of the local file behind an attached descriptor become `data`. */
  function Store(s: Server, fd: Fd, data: Data, now: int): Server
    requires fd in s.open
  {
    var f := s.open[fd];
    if f.attached && f.path in s.local then s.(local := s.local[f.path := File(data, now)]) else s
  }

  function DataOf(s: Server, fd: Fd): Data
    requires fd in s.open
  {
    var f := s.open[fd];
    if f.attached && f.path in s.local then s.local[f.path].data else []
  }

  /** Tiers with the same files are equal. */
  lemma SameTier(t: Tier, t': Tier)
    requires forall p :: Lookup(t, p) == Lookup(t', p)
    ensures t == t'
  {
    forall p ensures p in t <==> p in t' {
      assert Lookup(t, p) == Lookup(t', p);
    }
    forall p | p in t ensures t[p] == t'[p] {
      assert Lookup(t, p) == Lookup(t', p);
    }
  }

  // ----- requests -----

  /** `LocalFileExporter::Register`: only a file that exists locally is registered. */
  function Register(s: Server, p: Path): Server {
    if p in s.local then s.(registered := s.registered[p := s.local[p].mtime]) else s
  }

  /** `CopySecondaryToLocal`: fetch the secondary file unless the local one is at least as new. */
  function Prefetch(n: Node, p: Path, now: int): Node {
    if p in n.secondary && (p in n.server.local ==> n.server.local[p].mtime < n.secondary[p].mtime)
    then n.(server := n.server.(local := n.server.local[p := File(n.secondary[p].data, now)]))
    else n
  }

  function OpenLocal(s: Server, p: Path, flags: OpenFlags, fd: Fd, now: int): (Server, Reply) {
    match OpenIn(s.local, p, flags, now)
    case None => (s, Failed)
    case Some(local) =>
      (s.(local := local, table := TableAdd(s.table, p, fd), open := s.open[fd := OpenFile(p, flags, true)]),
       Opened(fd))
  }

  /** Creation unregisters the path before it tries to open it, and looks at the local tier only. */
  function Create(n: Node, p: Path, flags: OpenFlags, fd: Fd, now: int): (Node, Reply) {
    var (s, reply) := OpenLocal(n.server.(registered := n.server.registered - {p}), p, flags, fd, now);
    (n.(server := s), reply)
  }

  /** `flags & (O_WRONLY | O_RDWR) != 0` is `flags & 1`: only the write-only bit unregisters. */
  function Open(n: Node, p: Path, flags: OpenFlags, fd: Fd, now: int): (Node, Reply) {
    var m := if flags.wronly then n.(server := n.server.(registered := n.server.registered - {p})) else n;
    var k := if p in m.secondary && p !in m.server.local then Prefetch(m, p, now) else m;
    var (s, reply) := OpenLocal(k.server, p, flags, fd, now);
    (k.(server := s), reply)
  }

  function Read(s: Server, fd: Fd, offset: int, size: nat): Reply {
    if fd !in s.open || !s.open[fd].flags.CanRead() || offset < 0 then Failed
    else Bytes(ReadAt(DataOf(s, fd), offset, size))
  }

  function Write(s: Server, fd: Fd, offset: int, buf: Data, now: int): (Server, Reply) {
    if fd !in s.open || !s.open[fd].flags.CanWrite() || offset < 0 then (s, Failed)
    else if buf == [] then (s, Done)
    else (Store(s, fd, WriteAt(DataOf(s, fd), offset, buf), now), Done)
  }

  function FTruncate(s: Server, fd: Fd, size: int, now: int): (Server, Reply) {
    if fd !in s.open || !s.open[fd].flags.CanWrite() || size < 0 then (s, Failed)
    else (Store(s, fd, Resize(DataOf(s, fd), size), now), Done)
  }

  /** Close the descriptor, forget it, then register the path for export. */
  function Release(s: Server, p: Path, fd: Fd): Server {
    Register(s.(open := s.open - {fd}, table := TableDrop(s.table, p, fd)), p)
  }

  /** The local file goes with its registration and all its descriptors; then the secondary file goes. */
  function Unlink(n: Node, p: Path): Node {
    var s := n.server;
    var s' := if p in s.local
      then s.(local := s.local - {p}, registered := s.registered - {p},
              table := s.table - {p}, open := s.open - Fds(s.table, p))
      else s;
    Node(s', n.secondary - {p})
  }

  /** The file branch of `Rename`. A local file moves to the secondary tier, but `copy_file` does not
      overwrite; a file that is only secondary is renamed there, and `rename` does overwrite. */
  function Rename(n: Node, source: Path, target: Path, now: int): (Node, Reply) {
    var s, sec := n.server, n.secondary;
    if source in s.local then
      var sec1 := sec - {source};
      var s' := s.(local := s.local - {source}, registered := s.registered - {source}, open := Detach(s.open, source));
      if target in sec1 then (Node(s', sec1), Failed)
      else (Node(s', sec1[target := File(s.local[source].data, now)]), Done)
    else if source in sec then
      (Node(s, if target == source then sec else (sec - {source})[target := sec[source]]), Done)
    else (n, Done)
  }

  /** `truncate` on `target_path`: no registration follows. */
  function Truncate(n: Node, p: Path, size: int, now: int): (Node, Reply) {
    if size < 0 then (n, Failed)
    else if p in n.server.local then
      (n.(server := n.server.(local := n.server.local[p := File(Resize(n.server.local[p].data, size), now)])), Done)
    else if p in n.secondary then
      (n.(secondary := n.secondary[p := File(Resize(n.secondary[p].data, size), now)]), Done)
    else (n, Failed)
  }

  /** `write_one_line` into the local tier; nothing is registered. */
  function WriteLine(s: Server, p: Path, text: Data, now: int): Server {
    s.(local := s.local[p := File(text + "\n", now)])
  }

  /** A file is exported when the secondary tier lacks it or has an older one. */
  predicate NeedsExport(n: Node, p: Path) {
    p in n.server.local && (p in n.secondary ==> n.secondary[p].mtime < n.server.local[p].mtime)
  }

  /** One `CheckLocalFiles` pass. */
  function Export(n: Node, now: int): Node {
    var s := n.server;
    Node(s.(registered := map p | p in s.registered && p in s.local :: s.registered[p]),
         n.secondary + map p | p in s.registered && NeedsExport(n, p) :: File(s.local[p].data, now))
  }

  /** A server starts: no descriptors, and the tree search registers every local file. */
  function Restart(s: Server): Server {
    Server(s.local, map p | p in s.local :: s.local[p].mtime, map[], map[])
  }
}
