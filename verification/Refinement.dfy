// Over every run of allowed requests the cluster shows one flat file system: same bytes at every
// path, same handles, same replies.

module Refinement {
  import opened Basics
  import opened Descriptors
  import opened Servers
  import opened VirtualNames
  import opened Clusters

  // ----- a request that touches one path on the server that owns it -----

  /** `n'` differs from `n` at path `p` only, in either tier. */
  ghost predicate OnlyAt(n: Node, n': Node, p: Path) {
    forall q :: q != p ==>
      Lookup(n'.server.local, q) == Lookup(n.server.local, q) && Lookup(n'.secondary, q) == Lookup(n.secondary, q)
  }

  /** At `p`, `n'` is no newer than `now`, and coherent. */
  ghost predicate FineAt(n': Node, p: Path, now: int) {
    && StampedBy(Lookup(n'.server.local, p), now)
    && StampedBy(Lookup(n'.secondary, p), now)
    && Agree(Lookup(n'.server.local, p), Lookup(n'.secondary, p))
  }

  /** One path `q` of one server `i` after the change. */
  lemma PutAt(c: Cluster, p: Path, n': Node, now: int, i: nat, q: Path)
    requires Inv(c) && c.clock <= now && i < |c.servers|
    requires OnlyAt(At(c, p), n', p) && FineAt(n', p, now)
    ensures var local', sec' := Lookup(Put(c, p, n', now).servers[i].local, q), Lookup(n'.secondary, q);
      && (q != p ==> sec' == Lookup(c.secondary, q))
      && (q != p ==> local' == Lookup(c.servers[i].local, q))
      && StampedBy(sec', now) && StampedBy(local', now) && Agree(local', sec')
      && (local'.Some? ==> c.owner(q) == i)
  {
  }

  lemma PutKeepsInv(c: Cluster, p: Path, n': Node, now: int)
    requires Inv(c) && c.clock <= now
    requires OnlyAt(At(c, p), n', p) && FineAt(n', p, now) && Sound(n'.server)
    ensures Inv(Put(c, p, n', now))
  {
    var c' := Put(c, p, n', now);
    forall q ensures StampedBy(Lookup(c'.secondary, q), now) { PutAt(c, p, n', now, c.owner(p), q); }
    forall i | 0 <= i < |c.servers|
      ensures Owned(c', i) && Coherent(Node(c'.servers[i], c'.secondary)) && Stamped(c'.servers[i].local, now)
    {
      forall q
        ensures StampedBy(Lookup(c'.servers[i].local, q), now)
        ensures Agree(Lookup(c'.servers[i].local, q), Lookup(c'.secondary, q))
        ensures q in c'.servers[i].local ==> c.owner(q) == i
      {
        PutAt(c, p, n', now, i, q);
      }
    }
  }

  lemma PutView(c: Cluster, p: Path, n': Node, now: int, q: Path)
    requires Inv(c) && OnlyAt(At(c, p), n', p)
    ensures View(Put(c, p, n', now), q) == if q == p then Look(n', p) else View(c, q)
  {
    assert q != p ==> Lookup(n'.server.local, q) == Lookup(At(c, p).server.local, q);
    assert q != p ==> Lookup(n'.secondary, q) == Lookup(c.secondary, q);
  }

  /** The descriptors of other paths are as they were. */
  ghost predicate SameHandles(s: Server, s': Server, p: Path) {
    forall q, fd :: q != p ==> HandleAt(s'.open, q, fd) == HandleAt(s.open, q, fd)
  }

  /** At `p` the flat file system has the file and the handles of `n`; elsewhere those of `f`. */
  ghost predicate FlatOnlyAt(f: Flat, f': Flat, n: Node, p: Path) {
    && Lookup(f'.files, p) == Look(n, p)
    && (forall q :: q != p ==> Lookup(f'.files, q) == Lookup(f.files, q))
    && (forall q, fd :: Lookup(f'.handles, (q, fd)) ==
          if q == p then HandleAt(n.server.open, p, fd) else Lookup(f.handles, (q, fd)))
  }

  /** What is known of one path of the server that owns it, and of the flat file system there. */
  ghost predicate Point(n: Node, f: Flat, p: Path, clock: int) {
    Sound(n.server) && FineAt(n, p, clock) && FlatOnlyAt(f, f, n, p)
  }

  /** A change of `n` into `n'` at `p`, matched by one of `f` into `f'`. */
  ghost predicate Moves(n: Node, f: Flat, n': Node, f': Flat, p: Path, now: int) {
    && OnlyAt(n, n', p) && FineAt(n', p, now) && Sound(n'.server)
    && SameHandles(n.server, n'.server, p) && FlatOnlyAt(f, f', n', p)
  }

  lemma PointOf(c: Cluster, f: Flat, p: Path)
    requires Inv(c) && Shows(c, f)
    ensures Point(At(c, p), f, p, c.clock)
  {
  }

  /** Lift a change at one path of the owner to the cluster. */
  lemma PutShows(c: Cluster, f: Flat, p: Path, n': Node, f': Flat, now: int)
    requires Inv(c) && Shows(c, f) && c.clock <= now && Moves(At(c, p), f, n', f', p, now)
    ensures Inv(Put(c, p, n', now)) && Shows(Put(c, p, n', now), f')
  {
    PutKeepsInv(c, p, n', now);
    var c' := Put(c, p, n', now);
    forall q ensures View(c', q) == Lookup(f'.files, q) { PutView(c, p, n', now, q); }
    forall q, fd ensures Lookup(f'.handles, (q, fd)) == HandleAt(At(c', q).server.open, q, fd) {
      assert Lookup(f.handles, (q, fd)) == HandleAt(At(c, q).server.open, q, fd);
      assert q != p ==> HandleAt(n'.server.open, q, fd) == HandleAt(At(c, p).server.open, q, fd);
    }
  }

  // ----- what each request does at its path -----

  /** At the path itself, opening in the local tier does to the bytes what POSIX does on the flat map. */
  lemma OpenLocalBytes(n: Node, f: Flat, p: Path, flags: OpenFlags, fd: Fd, clock: int, now: int)
    requires FineAt(n, p, now) && StampedBy(Lookup(n.secondary, p), clock) && clock <= now
    requires Look(n, p) == Lookup(f.files, p) && CreateFaithful(n, p, flags)
    ensures var (s', r) := OpenLocal(n.server, p, flags, fd, now);
      var (f', r') := FlatOpen(f, p, flags, fd);
      && FineAt(n.(server := s'), p, now) && Look(n.(server := s'), p) == Lookup(f'.files, p)
      && (r == r' == Failed || r == r' == Opened(fd))
  {
  }

  lemma OpenLocalFds(s: Server, local: Tier, p: Path, flags: OpenFlags, fd: Fd)
    requires Sound(s) && fd !in s.open && p in local && forall q :: q in s.local ==> q in local
    ensures var s' := s.(local := local, table := TableAdd(s.table, p, fd), open := s.open[fd := OpenFile(p, flags, true)]);
      Sound(s') &&
      forall q, d :: HandleAt(s'.open, q, d) == if (q, d) == (p, fd) then Some(flags) else HandleAt(s.open, q, d)
  {
    AddKeepsPartition(s.table, s.open, p, fd, flags);
  }

  lemma OpenLocalMoves(n: Node, f: Flat, p: Path, flags: OpenFlags, fd: Fd, clock: int, now: int)
    requires Point(n, f, p, now) && StampedBy(Lookup(n.secondary, p), clock) && clock <= now
    requires fd !in n.server.open && CreateFaithful(n, p, flags)
    ensures var (s', r) := OpenLocal(n.server, p, flags, fd, now);
      var (f', r') := FlatOpen(f, p, flags, fd);
      Moves(n, f, n.(server := s'), f', p, now) && r == r'
  {
    var s := n.server;
    OpenLocalBytes(n, f, p, flags, fd, clock, now);
    match OpenIn(s.local, p, flags, now)
    case None =>
    case Some(local) =>
      OpenLocalFds(s, local, p, flags, fd);
      var s', f' := OpenLocal(s, p, flags, fd, now).0, FlatOpen(f, p, flags, fd).0;
      forall q, d ensures Lookup(f'.handles, (q, d)) ==
        if q == p then HandleAt(s'.open, p, d) else Lookup(f.handles, (q, d))
      {
        assert Lookup(f.handles, (q, d)) == if q == p then HandleAt(s.open, p, d) else Lookup(f.handles, (q, d));
        assert HandleAt(s'.open, q, d) == if (q, d) == (p, fd) then Some(flags) else HandleAt(s.open, q, d);
      }
  }

  lemma StoreMoves(n: Node, f: Flat, p: Path, fd: Fd, data: Data, clock: int, now: int)
    requires Point(n, f, p, clock) && clock <= now && fd in Fds(n.server.table, p)
    ensures fd in n.server.open && p in f.files && DataOf(n.server, fd) == f.files[p]
    ensures (p, fd) in f.handles && f.handles[(p, fd)] == n.server.open[fd].flags
    ensures Moves(n, f, n.(server := Store(n.server, fd, data, now)), f.(files := f.files[p := data]), p, now)
  {
  }

  lemma ReleaseMoves(n: Node, f: Flat, p: Path, fd: Fd, clock: int)
    requires Point(n, f, p, clock) && fd in Fds(n.server.table, p)
    ensures Moves(n, f, n.(server := Servers.Release(n.server, p, fd)), f.(handles := f.handles - {(p, fd)}), p, clock)
  {
    DropKeepsPartition(n.server.table, n.server.open, p, fd);
    assert fd in Fds(n.server.table, p) <==> fd in n.server.open && n.server.open[fd].path == p;
  }

  lemma TruncateMoves(n: Node, f: Flat, p: Path, length: int, clock: int, now: int)
    requires Point(n, f, p, clock) && clock <= now
    ensures var (n', r) := Servers.Truncate(n, p, length, now);
      var (f', r') := FlatStep(f, Truncate(p, length));
      Moves(n, f, n', f', p, now) && r == r'
  {
  }

  lemma WriteLineMoves(n: Node, f: Flat, p: Path, text: Data, clock: int, now: int)
    requires Point(n, f, p, clock) && clock <= now
    ensures Moves(n, f, n.(server := WriteLine(n.server, p, text, now)),
                  f.(files := f.files[p := text + "\n"]), p, now)
  {
  }

  /** Prefetch overwrites an older local copy, yet no reader sees a difference. */
  lemma PrefetchMoves(n: Node, f: Flat, p: Path, clock: int, now: int)
    requires Point(n, f, p, clock) && clock <= now
    ensures Moves(n, f, Servers.Prefetch(n, p, now), f, p, now)
  {
  }

  lemma UnlinkMoves(n: Node, f: Flat, p: Path, clock: int)
    requires Point(n, f, p, clock)
    ensures Moves(n, f, Servers.Unlink(n, p), FlatUnlink(f, p), p, clock)
  {
    var s := n.server;
    DropPathKeepsPartition(s.table, s.open, p);
    forall fd ensures fd in Fds(s.table, p) <==> HandleAt(s.open, p, fd).Some? {
      assert fd in Fds(s.table, p) <==> fd in s.open && s.open[fd].path == p;
    }
  }

  // ----- one lemma per request -----

  /** The new state shows the new flat state, and both give the same reply. */
  ghost predicate Simulates(c: Cluster, f: Flat, op: Op, now: int)
    requires Routed(c)
  {
    var (c', r) := Step(c, op, now);
    var (f', r') := FlatStep(f, op);
    Inv(c') && Shows(c', f') && r == r' && c'.clock == now
  }

  lemma CreateSimulates(c: Cluster, f: Flat, p: Path, flags: OpenFlags, fd: Fd, now: int)
    requires Inv(c) && Shows(c, f) && c.clock <= now && Allowed(c, Create(p, flags, fd))
    ensures Simulates(c, f, Create(p, flags, fd), now)
  {
    PointOf(c, f, p);
    var n := At(c, p);
    var m := n.(server := n.server.(registered := n.server.registered - {p}));
    OpenLocalMoves(m, f, p, flags, fd, c.clock, now);
    var (s', r) := OpenLocal(m.server, p, flags, fd, now);
    PutShows(c, f, p, n.(server := s'), FlatOpen(f, p, flags, fd).0, now);
  }

  lemma OpenSimulates(c: Cluster, f: Flat, p: Path, flags: OpenFlags, fd: Fd, now: int)
    requires Inv(c) && Shows(c, f) && c.clock <= now && Allowed(c, Open(p, flags, fd))
    ensures Simulates(c, f, Open(p, flags, fd), now)
  {
    PointOf(c, f, p);
    var n := At(c, p);
    var m := if flags.wronly then n.(server := n.server.(registered := n.server.registered - {p})) else n;
    PrefetchMoves(m, f, p, c.clock, now);
    var k := if p in m.secondary && p !in m.server.local then Servers.Prefetch(m, p, now) else m;
    OpenLocalMoves(k, f, p, flags, fd, c.clock, now);
    var (s', r) := OpenLocal(k.server, p, flags, fd, now);
    forall q | q != p ensures Lookup(s'.local, q) == Lookup(n.server.local, q) {
      assert Lookup(k.server.local, q) == Lookup(n.server.local, q);
    }
    PutShows(c, f, p, k.(server := s'), FlatOpen(f, p, flags, fd).0, now);
  }

  /** Local files and descriptors stay, and at `q` the secondary file may only change unseen. */
  ghost predicate QuietAt(c: Cluster, c': Cluster, q: Path)
    requires Routed(c) && c'.owner == c.owner && |c'.servers| == |c.servers|
  {
    && StampedBy(Lookup(c'.secondary, q), c'.clock)
    && View(c', q) == View(c, q)
    && forall j :: 0 <= j < |c.servers| ==> Agree(Lookup(c.servers[j].local, q), Lookup(c'.secondary, q))
  }

  predicate SameFilesAndFds(s: Server, s': Server) {
    s'.local == s.local && s'.table == s.table && s'.open == s.open
  }

  lemma QuietShows(c: Cluster, f: Flat, c': Cluster)
    requires Inv(c) && Shows(c, f) && c.clock <= c'.clock
    requires c'.owner == c.owner && |c'.servers| == |c.servers|
    requires forall j :: 0 <= j < |c.servers| ==> SameFilesAndFds(c.servers[j], c'.servers[j])
    requires forall q :: QuietAt(c, c', q)
    ensures Inv(c') && Shows(c', f)
  {
    forall j | 0 <= j < |c.servers|
      ensures Owned(c', j) && Sound(c'.servers[j])
      ensures Coherent(Node(c'.servers[j], c'.secondary)) && Stamped(c'.servers[j].local, c'.clock)
    {
      assert Owned(c, j) && Sound(c.servers[j]) && Stamped(c.servers[j].local, c.clock);
      forall q
        ensures StampedBy(Lookup(c'.servers[j].local, q), c'.clock)
        ensures Agree(Lookup(c'.servers[j].local, q), Lookup(c'.secondary, q))
      {
        assert QuietAt(c, c', q);
        assert StampedBy(Lookup(c.servers[j].local, q), c.clock);
      }
    }
    forall q ensures StampedBy(Lookup(c'.secondary, q), c'.clock) && View(c', q) == Lookup(f.files, q) {
      assert QuietAt(c, c', q);
      assert View(c, q) == Lookup(f.files, q);
    }
    forall q, fd
      ensures (q, fd) in f.handles <==> fd in Fds(At(c', q).server.table, q)
      ensures (q, fd) in f.handles && fd in At(c', q).server.open ==>
                f.handles[(q, fd)] == At(c', q).server.open[fd].flags
    {
    }
  }

  lemma SameSecondaryIsQuiet(c: Cluster, c': Cluster, q: Path)
    requires Inv(c) && c'.owner == c.owner && |c'.servers| == |c.servers| && c.clock <= c'.clock
    requires c'.secondary == c.secondary
    requires forall j :: 0 <= j < |c.servers| ==> c'.servers[j].local == c.servers[j].local
    ensures QuietAt(c, c', q)
  {
  }

  /** A step that leaves every server and the secondary tier as they were. */
  lemma IdleShows(c: Cluster, f: Flat, c': Cluster)
    requires Inv(c) && Shows(c, f) && c.clock <= c'.clock
    requires c'.owner == c.owner && c'.servers == c.servers && c'.secondary == c.secondary
    ensures Inv(c') && Shows(c', f)
  {
  }

  lemma ReadSimulates(c: Cluster, f: Flat, p: Path, fd: Fd, offset: int, size: nat, now: int)
    requires Inv(c) && Shows(c, f) && c.clock <= now && Live(c, p, fd)
    ensures Simulates(c, f, Read(p, fd, offset, size), now)
  {
    PointOf(c, f, p);
    StoreMoves(At(c, p), f, p, fd, [], c.clock, now);
    IdleShows(c, f, c.(clock := now));
  }

  /** What the server stores behind a live descriptor of `p` lands on the local file `p`. */
  lemma StoreShows(c: Cluster, f: Flat, p: Path, fd: Fd, data: Data, now: int)
    requires Inv(c) && Shows(c, f) && c.clock <= now && Live(c, p, fd)
    ensures fd in At(c, p).server.open && p in f.files && DataOf(At(c, p).server, fd) == f.files[p]
    ensures (p, fd) in f.handles && f.handles[(p, fd)] == At(c, p).server.open[fd].flags
    ensures var c' := Put(c, p, At(c, p).(server := Store(At(c, p).server, fd, data, now)), now);
      Inv(c') && Shows(c', f.(files := f.files[p := data]))
  {
    PointOf(c, f, p);
    var n := At(c, p);
    StoreMoves(n, f, p, fd, data, c.clock, now);
    PutShows(c, f, p, n.(server := Store(n.server, fd, data, now)), f.(files := f.files[p := data]), now);
  }

  lemma WriteSimulates(c: Cluster, f: Flat, p: Path, fd: Fd, offset: int, buf: Data, now: int)
    requires Inv(c) && Shows(c, f) && c.clock <= now && Live(c, p, fd)
    ensures Simulates(c, f, Write(p, fd, offset, buf), now)
  {
    var n := At(c, p);
    StoreShows(c, f, p, fd, if offset >= 0 then WriteAt(DataOf(n.server, fd), offset, buf) else [], now);
    if buf == [] {
      assert f.files[p := f.files[p]] == f.files;
    }
    IdleShows(c, f, Put(c, p, n, now));
  }

  lemma FTruncateSimulates(c: Cluster, f: Flat, p: Path, fd: Fd, length: int, now: int)
    requires Inv(c) && Shows(c, f) && c.clock <= now && Live(c, p, fd)
    ensures Simulates(c, f, FTruncate(p, fd, length), now)
  {
    var n := At(c, p);
    StoreShows(c, f, p, fd, if length >= 0 then Resize(DataOf(n.server, fd), length) else [], now);
    IdleShows(c, f, Put(c, p, n, now));
  }

  lemma ReleaseSimulates(c: Cluster, f: Flat, p: Path, fd: Fd, now: int)
    requires Inv(c) && Shows(c, f) && c.clock <= now && Live(c, p, fd)
    ensures Simulates(c, f, Release(p, fd), now)
  {
    PointOf(c, f, p);
    var n := At(c, p);
    ReleaseMoves(n, f, p, fd, c.clock);
    PutShows(c, f, p, n.(server := Servers.Release(n.server, p, fd)), f.(handles := f.handles - {(p, fd)}), now);
  }

  lemma TruncateSimulates(c: Cluster, f: Flat, p: Path, length: int, now: int)
    requires Inv(c) && Shows(c, f) && c.clock <= now
    ensures Simulates(c, f, Truncate(p, length), now)
  {
    PointOf(c, f, p);
    TruncateMoves(At(c, p), f, p, length, c.clock, now);
    PutShows(c, f, p, Servers.Truncate(At(c, p), p, length, now).0, FlatStep(f, Truncate(p, length)).0, now);
  }

  lemma PutLineShows(c: Cluster, f: Flat, p: Path, text: Data, now: int)
    requires Inv(c) && Shows(c, f) && c.clock <= now
    ensures Inv(PutLine(c, p, text, now)) && Shows(PutLine(c, p, text, now), f.(files := f.files[p := text + "\n"]))
  {
    PointOf(c, f, p);
    var n := At(c, p);
    WriteLineMoves(n, f, p, text, c.clock, now);
    PutShows(c, f, p, n.(server := WriteLine(n.server, p, text, now)), f.(files := f.files[p := text + "\n"]), now);
  }

  lemma PrefetchSimulates(c: Cluster, f: Flat, p: Path, now: int)
    requires Inv(c) && Shows(c, f) && c.clock <= now
    ensures Simulates(c, f, Prefetch(p), now)
  {
    PointOf(c, f, p);
    PrefetchMoves(At(c, p), f, p, c.clock, now);
    PutShows(c, f, p, Servers.Prefetch(At(c, p), p, now), f, now);
  }

  // ----- unlink -----

  lemma UnlinkOneShows(c: Cluster, f: Flat, p: Path, now: int)
    requires Inv(c) && Shows(c, f) && c.clock <= now
    ensures var c' := Put(c, p, Servers.Unlink(At(c, p), p), now); Inv(c') && Shows(c', FlatUnlink(f, p))
  {
    PointOf(c, f, p);
    UnlinkMoves(At(c, p), f, p, c.clock);
    PutShows(c, f, p, Servers.Unlink(At(c, p), p), FlatUnlink(f, p), now);
  }

  /** The servers that do not own the path have nothing to remove. */
  lemma UnlinkEverywhereIsAtOwner(c: Cluster, p: Path, now: int)
    requires Inv(c)
    ensures UnlinkEverywhere(c, p, now) == Put(c, p, Servers.Unlink(At(c, p), p), now)
  {
  }

  lemma UnlinkIsAtOwner(c: Cluster, p: Path, now: int)
    requires Inv(c)
    ensures var t := UnlinkTarget(c, p);
      UnlinkResolved(c, p, now) == Put(c, t, Servers.Unlink(At(c, t), t), now)
  {
  }

  lemma UnlinkSimulates(c: Cluster, f: Flat, p: Path, now: int)
    requires Inv(c) && Shows(c, f) && c.clock <= now
    ensures Simulates(c, f, Unlink(p), now)
  {
    var s, l := CreateVirtualSymlink(p), CreateVirtualLink(p);
    assert View(c, s) == Lookup(f.files, s) && View(c, l) == Lookup(f.files, l);
    UnlinkOneShows(c, f, UnlinkTarget(c, p), now);
    UnlinkIsAtOwner(c, p, now);
  }

  // ----- rename -----

  lemma DetachNothing(s: Server, p: Path)
    requires Sound(s) && Fds(s.table, p) == {}
    ensures Detach(s.open, p) == s.open
  {
  }

  /** The file leaves its old name: gone from its server and from the secondary tier. */
  lemma LeaveShows(c: Cluster, f: Flat, p: Path, s': Server, now: int)
    requires Inv(c) && Shows(c, f) && c.clock <= now && Fds(At(c, p).server.table, p) == {}
    requires var s := At(c, p).server; s'.local == s.local - {p} && s'.table == s.table && s'.open == s.open
    ensures var c' := Put(c, p, Node(s', c.secondary - {p}), now); Inv(c') && Shows(c', f.(files := f.files - {p}))
  {
    PointOf(c, f, p);
    forall fd | fd in s'.open ensures s'.open[fd].path in s'.local {
      assert fd in Fds(s'.table, p) <==> s'.open[fd].path == p;
    }
    PutShows(c, f, p, Node(s', c.secondary - {p}), f.(files := f.files - {p}), now);
  }

  /** A secondary file appears under a name with no local copy. */
  lemma ArriveShows(c: Cluster, f: Flat, q: Path, file: File, now: int)
    requires Inv(c) && Shows(c, f) && c.clock <= now && q !in At(c, q).server.local && file.mtime <= now
    ensures var c' := Put(c, q, At(c, q).(secondary := c.secondary[q := file]), now);
      Inv(c') && Shows(c', f.(files := f.files[q := file.data]))
  {
    PointOf(c, f, q);
    var n := At(c, q);
    PutShows(c, f, q, n.(secondary := c.secondary[q := file]), f.(files := f.files[q := file.data]), now);
  }

  lemma RenameShows(c: Cluster, f: Flat, p: Path, q: Path, s': Server, file: File, now: int)
    requires Inv(c) && Shows(c, f) && c.clock <= now && Fds(At(c, p).server.table, p) == {}
    requires var s := At(c, p).server; s'.local == s.local - {p} && s'.table == s.table && s'.open == s.open
    requires p == q || q !in At(c, q).server.local
    requires View(c, p) == Some(file.data) && file.mtime <= now
    ensures var c' := Put(c, p, Node(s', (c.secondary - {p})[q := file]), now);
      Inv(c') && Shows(c', f.(files := (f.files - {p})[q := f.files[p]]))
    ensures p in f.files
  {
    assert View(c, p) == Lookup(f.files, p);
    LeaveShows(c, f, p, s', now);
    var c1 := Put(c, p, Node(s', c.secondary - {p}), now);
    ArriveShows(c1, f.(files := f.files - {p}), q, file, now);
    var c2 := Put(c1, q, At(c1, q).(secondary := c1.secondary[q := file]), now);
    assert c2.servers == c1.servers;
  }

  lemma RenameSimulates(c: Cluster, f: Flat, p: Path, q: Path, now: int)
    requires Inv(c) && Shows(c, f) && c.clock <= now && Allowed(c, Rename(p, q))
    ensures Simulates(c, f, Rename(p, q), now)
  {
    var n := At(c, p);
    PointOf(c, f, p);
    DetachNothing(n.server, p);
    assert View(c, p) == Lookup(f.files, p);
    if p in n.server.local {
      var s := n.server;
      var s' := s.(local := s.local - {p}, registered := s.registered - {p}, open := Detach(s.open, p));
      RenameShows(c, f, p, q, s', File(s.local[p].data, now), now);
    } else if p in c.secondary {
      assert n.server.local - {p} == n.server.local;
      assert n.secondary == c.secondary;
      if p == q {
        assert (c.secondary - {p})[q := c.secondary[p]] == c.secondary;
      }
      RenameShows(c, f, p, q, n.server, c.secondary[p], now);
    } else {
      IdleShows(c, f, Put(c, p, n, now));
    }
  }

  // ----- background work -----

  lemma ExportIsQuiet(c: Cluster, i: nat, now: int, q: Path)
    requires Inv(c) && c.clock <= now && i < |c.servers|
    ensures QuietAt(c, Step(c, Export(i), now).0, q)
  {
    assert Owned(c, i) && Coherent(Node(c.servers[i], c.secondary)) && Stamped(c.servers[i].local, c.clock);
    assert StampedBy(Lookup(c.secondary, q), c.clock) && StampedBy(Lookup(c.servers[i].local, q), c.clock);
    forall j | 0 <= j < |c.servers|
      ensures Agree(Lookup(c.servers[j].local, q), Lookup(Step(c, Export(i), now).0.secondary, q))
    {
      assert Owned(c, j) && Coherent(Node(c.servers[j], c.secondary));
    }
  }

  lemma ExportSimulates(c: Cluster, f: Flat, i: nat, now: int)
    requires Inv(c) && Shows(c, f) && c.clock <= now && i < |c.servers|
    ensures Simulates(c, f, Export(i), now)
  {
    var c' := Step(c, Export(i), now).0;
    forall q ensures QuietAt(c, c', q) { ExportIsQuiet(c, i, now, q); }
    QuietShows(c, f, c');
  }

  lemma RestartSimulates(c: Cluster, f: Flat, i: nat, now: int)
    requires Inv(c) && Shows(c, f) && c.clock <= now && Allowed(c, Restart(i))
    ensures Simulates(c, f, Restart(i), now)
  {
    var c' := Step(c, Restart(i), now).0;
    NothingOpenNothingListed(c.servers[i].table, c.servers[i].open);
    forall q ensures QuietAt(c, c', q) { SameSecondaryIsQuiet(c, c', q); }
    QuietShows(c, f, c');
  }

  // ----- every step, every run -----

  lemma StepSimulates(c: Cluster, f: Flat, op: Op, now: int)
    requires Inv(c) && Shows(c, f) && c.clock <= now && Allowed(c, op)
    ensures Simulates(c, f, op, now)
  {
    match op
    case Create(p, flags, fd) => CreateSimulates(c, f, p, flags, fd, now);
    case Open(p, flags, fd) => OpenSimulates(c, f, p, flags, fd, now);
    case Read(p, fd, offset, size) => ReadSimulates(c, f, p, fd, offset, size, now);
    case Write(p, fd, offset, buf) => WriteSimulates(c, f, p, fd, offset, buf, now);
    case FTruncate(p, fd, length) => FTruncateSimulates(c, f, p, fd, length, now);
    case Release(p, fd) => ReleaseSimulates(c, f, p, fd, now);
    case Truncate(p, length) => TruncateSimulates(c, f, p, length, now);
    case Unlink(p) => UnlinkSimulates(c, f, p, now);
    case Rename(p, q) => RenameSimulates(c, f, p, q, now);
    case Symlink(t, l) => PutLineShows(c, f, CreateVirtualSymlink(l), t, now);
    case Link(t, l) => PutLineShows(c, f, CreateVirtualLink(l), t, now);
    case Prefetch(p) => PrefetchSimulates(c, f, p, now);
    case Export(i) => ExportSimulates(c, f, i, now);
    case Restart(i) => RestartSimulates(c, f, i, now);
  }

  /** Requests with the times at which they run, oldest first. */
  type Trace = seq<(Op, int)>

  function Run(c: Cluster, ops: Trace): (r: (Cluster, seq<Reply>))
    requires Routed(c)
    ensures r.0.owner == c.owner && |r.0.servers| == |c.servers|
    decreases |ops|
  {
    if ops == [] then (c, []) else
      var (c', r) := Step(c, ops[0].0, ops[0].1);
      var (end, rs) := Run(c', ops[1..]);
      (end, [r] + rs)
  }

  function FlatRun(f: Flat, ops: Trace): (Flat, seq<Reply>)
    decreases |ops|
  {
    if ops == [] then (f, []) else
      var (f', r) := FlatStep(f, ops[0].0);
      var (end, rs) := FlatRun(f', ops[1..]);
      (end, [r] + rs)
  }

  /** Time does not go back, and each request is allowed where it runs. */
  ghost predicate AllowedRun(c: Cluster, ops: Trace)
    requires Routed(c)
    decreases |ops|
  {
    ops == [] ||
    (c.clock <= ops[0].1 && Allowed(c, ops[0].0) && AllowedRun(Step(c, ops[0].0, ops[0].1).0, ops[1..]))
  }

  /** Every run gives the replies of the flat file system and ends in a state that shows it. */
  lemma {:induction false} RunRefinesFlat(c: Cluster, f: Flat, ops: Trace)
    requires Inv(c) && Shows(c, f) && AllowedRun(c, ops)
    ensures var (c', rs) := Run(c, ops);
      var (f', rs') := FlatRun(f, ops);
      Inv(c') && Shows(c', f') && rs == rs'
    decreases |ops|
  {
    if ops != [] {
      StepSimulates(c, f, ops[0].0, ops[0].1);
      RunRefinesFlat(Step(c, ops[0].0, ops[0].1).0, FlatStep(f, ops[0].0).0, ops[1..]);
    }
  }

  /** Freshly started servers over any secondary tier show exactly that tier. */
  lemma StartShows(c: Cluster)
    requires Routed(c) && Stamped(c.secondary, c.clock)
    requires forall i :: 0 <= i < |c.servers| ==> c.servers[i] == Server(map[], map[], map[], map[])
    ensures Inv(c) && Shows(c, Flat(map p | p in c.secondary :: c.secondary[p].data, map[]))
  {
  }

  // ----- the two guards are exact -----

  /** Creation behaves as on the flat file system exactly when it is faithful. */
  lemma CreateExact(c: Cluster, f: Flat, p: Path, flags: OpenFlags, fd: Fd, now: int)
    requires Inv(c) && Shows(c, f) && c.clock <= now && fd !in At(c, p).server.open
    ensures Simulates(c, f, Create(p, flags, fd), now) <==> CreateFaithful(At(c, p), p, flags)
  {
    if CreateFaithful(At(c, p), p, flags) {
      CreateSimulates(c, f, p, flags, fd, now);
    } else {
      var c' := Step(c, Create(p, flags, fd), now).0;
      var f' := FlatStep(f, Create(p, flags, fd)).0;
      assert View(c, p) == Lookup(f.files, p);
      if flags.creat && !flags.excl {
        assert View(c', p) != Lookup(f'.files, p);
      }
    }
  }

  /** After a rename every path shows what it should exactly when the rename is faithful, or the file
      already visible under the new name has the same bytes; otherwise that file stays and the
      renamed bytes are visible nowhere. */
  lemma RenameExact(c: Cluster, f: Flat, p: Path, q: Path, now: int)
    requires Inv(c) && Shows(c, f) && c.clock <= now && Fds(At(c, p).server.table, p) == {}
    ensures var c' := Step(c, Rename(p, q), now).0;
      var f' := FlatStep(f, Rename(p, q)).0;
      && ((forall r :: View(c', r) == Lookup(f'.files, r)) <==>
          RenameFaithful(c, p, q) || View(c, q) == View(c, p))
      && (!RenameFaithful(c, p, q) ==> View(c', p) == None && forall r :: r != p ==> View(c', r) == View(c, r))
  {
    var c' := Step(c, Rename(p, q), now).0;
    var f' := FlatStep(f, Rename(p, q)).0;
    if RenameFaithful(c, p, q) {
      RenameSimulates(c, f, p, q, now);
    } else {
      assert View(c, p) == Lookup(f.files, p);
      UnfaithfulRename(c, p, q, now);
      assert View(c', q) == View(c, q);
      forall r | View(c, q) == View(c, p) ensures View(c', r) == Lookup(f'.files, r) {
        assert View(c, r) == Lookup(f.files, r);
        assert r != p ==> View(c', r) == View(c, r);
      }
    }
  }

  lemma UnfaithfulRename(c: Cluster, p: Path, q: Path, now: int)
    requires Inv(c) && c.clock <= now && !RenameFaithful(c, p, q)
    ensures var c' := Step(c, Rename(p, q), now).0;
      View(c', p) == None && forall r :: r != p ==> View(c', r) == View(c, r)
  {
    var c' := Step(c, Rename(p, q), now).0;
    forall r | r != p ensures View(c', r) == View(c, r) {
      assert Owned(c, c.owner(q)) && Owned(c, c.owner(p));
    }
  }
}
