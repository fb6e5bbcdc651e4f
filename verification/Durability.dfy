// What reaches the secondary tier: which local files an export pass copies, which requests keep every
// unexported file within the exporter's reach, and when the secondary tier alone is the whole view.

module Durability {
  import opened Basics
  import opened Descriptors
  import opened Servers
  import opened VirtualNames
  import opened Clusters
  import opened Refinement

  // ----- one pass -----

  /** A pass leaves the secondary tier with the bytes of a registered local file exactly when the
      secondary file was missing, older, or equal. */
  lemma PassExports(n: Node, p: Path, now: int)
    requires p in n.server.registered && p in n.server.local
    ensures var sec' := Servers.Export(n, now).secondary;
      p in sec' &&
      (sec'[p].data == n.server.local[p].data <==>
         NeedsExport(n, p) || n.secondary[p].data == n.server.local[p].data)
  {
  }

  /** Everything else stays: a secondary file that no registered local one replaces, and every entry except
      those whose local file has vanished. */
  lemma PassKeepsTheRest(n: Node, p: Path, now: int)
    ensures var n' := Servers.Export(n, now);
      && (p in n'.server.registered <==> p in n.server.registered && p in n.server.local)
      && (!(p in n.server.registered && NeedsExport(n, p)) ==> Lookup(n'.secondary, p) == Lookup(n.secondary, p))
      && (Coherent(n) ==> Look(n', p) == Look(n, p))
  {
  }

  lemma SecondPassAt(n: Node, t1: int, t2: int, p: Path)
    ensures var n1 := Servers.Export(n, t1);
      Lookup(Servers.Export(n1, t2).secondary, p) == Lookup(n1.secondary, p) <==>
      t1 == t2 || (p in n.server.registered && NeedsExport(n, p) ==> n.server.local[p].mtime <= t1)
  {
  }

  /** A second pass does nothing exactly when no copied file is stamped later than its copy, or both passes
      stamp their copies alike. */
  lemma SecondPassIsIdle(n: Node, t1: int, t2: int)
    ensures Servers.Export(Servers.Export(n, t1), t2) == Servers.Export(n, t1) <==>
      t1 == t2 || forall p :: p in n.server.registered && NeedsExport(n, p) ==> n.server.local[p].mtime <= t1
  {
    var n1 := Servers.Export(n, t1);
    var n2 := Servers.Export(n1, t2);
    assert n2.server == n1.server;
    forall p ensures Lookup(n2.secondary, p) == Lookup(n1.secondary, p) <==>
      t1 == t2 || (p in n.server.registered && NeedsExport(n, p) ==> n.server.local[p].mtime <= t1)
    {
      SecondPassAt(n, t1, t2, p);
    }
    if forall p :: Lookup(n2.secondary, p) == Lookup(n1.secondary, p) {
      SameTier(n2.secondary, n1.secondary);
    }
  }

  /** Passes at these times, with nothing between them. */
  function Passes(n: Node, times: seq<int>): Node
    decreases |times|
  {
    if times == [] then n else Passes(Servers.Export(n, times[0]), times[1..])
  }

  lemma {:induction false} PassesExport(n: Node, p: Path, times: seq<int>)
    requires times != [] && p in n.server.registered && p in n.server.local
    ensures var n' := Passes(n, times);
      && Lookup(n'.server.local, p) == Lookup(n.server.local, p) && p in n'.server.registered && p in n'.secondary
      && (n'.secondary[p].data == n.server.local[p].data <==>
            NeedsExport(n, p) || n.secondary[p].data == n.server.local[p].data)
    decreases |times|
  {
    var n1 := Servers.Export(n, times[0]);
    PassExports(n, p, times[0]);
    if |times| > 1 {
      PassesExport(n1, p, times[1..]);
    } else {
      assert Passes(n1, []) == n1;
    }
  }

  /** Modification times have one-second resolution. A pass copies `p` at time `t`; then the file is written
      at time `tw` and closed. However many passes follow, and whenever they run, the written bytes reach the
      secondary tier exactly when the write came in a later second, or changed nothing. */
  lemma WriteAfterExportReachesIff(n: Node, p: Path, fd: Fd, offset: int, buf: Data, t: int, tw: int, times: seq<int>)
    requires p in n.server.registered && NeedsExport(n, p) && times != []
    requires fd in n.server.open && n.server.open[fd].path == p && n.server.open[fd].attached
    requires n.server.open[fd].flags.CanWrite() && offset >= 0 && buf != []
    ensures var n1 := Servers.Export(n, t);
      var s2 := Servers.Write(n1.server, fd, offset, buf, tw).0;
      var n3 := Passes(n1.(server := Servers.Release(s2, p, fd)), times);
      var written := WriteAt(n.server.local[p].data, offset, buf);
      && p in n3.server.registered && p in n3.server.local && n3.server.local[p].data == written
      && p in n3.secondary
      && (n3.secondary[p].data == written <==> t < tw || written == n.server.local[p].data)
  {
    var n1 := Servers.Export(n, t);
    var s2 := Servers.Write(n1.server, fd, offset, buf, tw).0;
    PassesExport(n1.(server := Servers.Release(s2, p, fd)), p, times);
  }

  // ----- every unexported file stays within the exporter's reach -----

  predicate Exported(s: Server, secondary: Tier, p: Path) {
    p in s.local && p in secondary && secondary[p].data == s.local[p].data
  }

  /** A local file is exported; or it is newer than its secondary copy, and registered for export or still
      open and so registered on close. */
  predicate Reached(s: Server, secondary: Tier, p: Path) {
    p in s.local ==> Exported(s, secondary, p) ||
                     (NeedsExport(Node(s, secondary), p) && (p in s.registered || Fds(s.table, p) != {}))
  }

  ghost predicate Durable(c: Cluster) {
    forall i, p :: 0 <= i < |c.servers| ==> Reached(c.servers[i], c.secondary, p)
  }

  /** Reached even if it is no longer registered. */
  predicate ReachedUnregistered(n: Node, p: Path) {
    Exported(n.server, n.secondary, p) || (NeedsExport(n, p) && Fds(n.server.table, p) != {})
  }

  /** Reached if the local file becomes `data` now: the secondary copy has these bytes already, or it is
      from an earlier second, and the path is registered or open afterwards. */
  predicate ReachedWith(n: Node, p: Path, data: Data, now: int, watched: bool) {
    (p in n.secondary && n.secondary[p].data == data) || ((p in n.secondary ==> n.secondary[p].mtime < now) && watched)
  }

  predicate Watched(n: Node, p: Path) {
    p in n.server.registered || Fds(n.server.table, p) != {}
  }

  predicate Writable(n: Node, p: Path, fd: Fd) {
    p in n.server.local && HandleAt(n.server.open, p, fd).Some? && HandleAt(n.server.open, p, fd).value.CanWrite()
  }

  /** What a request must look out for: a creation (or write-only open) that fails on an existing name has
      already unregistered it; a truncation by path or a new link entry is not registered at all; and nothing
      may change a file's bytes in the second in which its secondary copy was stamped. */
  predicate KeepsReach(c: Cluster, op: Op, now: int)
    requires forall p :: c.owner(p) < |c.servers|
  {
    match op
    case Create(p, flags, _) =>
      var n := At(c, p);
      if p in n.server.local && flags.creat && flags.excl then ReachedUnregistered(n, p)
      else (if p in n.server.local then flags.trunc else flags.creat) ==> ReachedWith(n, p, [], now, true)
    case Open(p, flags, _) =>
      var n := At(c, p);
      if flags.creat && flags.excl then flags.wronly && p in n.server.local ==> ReachedUnregistered(n, p)
      else flags.trunc ==> ReachedWith(n, p, [], now, true)
    case Write(p, fd, offset, buf) =>
      var n := At(c, p);
      Writable(n, p, fd) && offset >= 0 && buf != [] ==>
        ReachedWith(n, p, WriteAt(n.server.local[p].data, offset, buf), now, true)
    case FTruncate(p, fd, length) =>
      var n := At(c, p);
      Writable(n, p, fd) && length >= 0 ==>
        ReachedWith(n, p, Resize(n.server.local[p].data, length), now, true)
    case Truncate(p, length) =>
      var n := At(c, p);
      length >= 0 && p in n.server.local ==>
        ReachedWith(n, p, Resize(n.server.local[p].data, length), now, Watched(n, p))
    case Symlink(t, l) =>
      var e := CreateVirtualSymlink(l); ReachedWith(At(c, e), e, t + "\n", now, Watched(At(c, e), e))
    case Link(t, l) =>
      var e := CreateVirtualLink(l); ReachedWith(At(c, e), e, t + "\n", now, Watched(At(c, e), e))
    case _ => true
  }

  /** Registration and descriptors of other paths are as they were. */
  ghost predicate SameReachElsewhere(s: Server, s': Server, p: Path) {
    forall q :: q != p ==> (q in s'.registered <==> q in s.registered) && Fds(s'.table, q) == Fds(s.table, q)
  }

  lemma PutDurable(c: Cluster, p: Path, n': Node, now: int)
    requires Inv(c) && Durable(c)
    requires OnlyAt(At(c, p), n', p) && SameReachElsewhere(At(c, p).server, n'.server, p)
    ensures Durable(Put(c, p, n', now)) <==> Reached(n'.server, n'.secondary, p)
  {
    var c' := Put(c, p, n', now);
    var o := c.owner(p);
    assert c'.servers[o] == n'.server && c'.secondary == n'.secondary;
    if Reached(n'.server, n'.secondary, p) {
      forall i, q | 0 <= i < |c.servers| ensures Reached(c'.servers[i], c'.secondary, q) {
        assert Reached(c.servers[i], c.secondary, q);
        assert Owned(c, i);
        assert q != p ==> Lookup(n'.server.local, q) == Lookup(c.servers[o].local, q);
        assert q != p ==> Lookup(n'.secondary, q) == Lookup(c.secondary, q);
      }
    }
  }

  lemma OpenLocalReach(s: Server, p: Path, flags: OpenFlags, fd: Fd, now: int)
    ensures var (s', r) := OpenLocal(s, p, flags, fd, now);
      && SameReachElsewhere(s, s', p)
      && (forall q :: q != p ==> Lookup(s'.local, q) == Lookup(s.local, q))
      && (r != Failed ==> fd in Fds(s'.table, p))
  {
  }

  lemma CreateDurable(c: Cluster, p: Path, flags: OpenFlags, fd: Fd, now: int)
    requires Inv(c) && Durable(c)
    ensures Durable(Step(c, Create(p, flags, fd), now).0) <==> KeepsReach(c, Create(p, flags, fd), now)
  {
    var n := At(c, p);
    assert Reached(n.server, n.secondary, p);
    OpenLocalReach(n.server.(registered := n.server.registered - {p}), p, flags, fd, now);
    PutDurable(c, p, Servers.Create(n, p, flags, fd, now).0, now);
  }

  lemma OpenDurable(c: Cluster, p: Path, flags: OpenFlags, fd: Fd, now: int)
    requires Inv(c) && Durable(c)
    ensures Durable(Step(c, Open(p, flags, fd), now).0) <==> KeepsReach(c, Open(p, flags, fd), now)
  {
    var n := At(c, p);
    assert Reached(n.server, n.secondary, p);
    var m := if flags.wronly then n.(server := n.server.(registered := n.server.registered - {p})) else n;
    var k := if p in m.secondary && p !in m.server.local then Servers.Prefetch(m, p, now) else m;
    OpenLocalReach(k.server, p, flags, fd, now);
    var n' := Servers.Open(n, p, flags, fd, now).0;
    forall q | q != p ensures Lookup(n'.server.local, q) == Lookup(n.server.local, q) {
      assert Lookup(k.server.local, q) == Lookup(n.server.local, q);
    }
    PutDurable(c, p, n', now);
  }

  /** New bytes behind a live handle. */
  lemma StoreDurable(c: Cluster, p: Path, fd: Fd, data: Data, now: int)
    requires Inv(c) && Durable(c) && Live(c, p, fd)
    ensures var n := At(c, p);
      && fd in n.server.open && HandleAt(n.server.open, p, fd) == Some(n.server.open[fd].flags)
      && p in n.server.local && DataOf(n.server, fd) == n.server.local[p].data
      && (Durable(Put(c, p, n.(server := Store(n.server, fd, data, now)), now)) <==> ReachedWith(n, p, data, now, true))
  {
    var n := At(c, p);
    assert Sound(n.server);
    assert fd in Fds(n.server.table, p);
    PutDurable(c, p, n.(server := Store(n.server, fd, data, now)), now);
  }

  lemma SameServersDurable(c: Cluster, c': Cluster)
    requires Durable(c) && c'.servers == c.servers && c'.secondary == c.secondary
    ensures Durable(c')
  {
  }

  lemma WriteDurable(c: Cluster, p: Path, fd: Fd, offset: int, buf: Data, now: int)
    requires Inv(c) && Durable(c) && Live(c, p, fd)
    ensures Durable(Step(c, Write(p, fd, offset, buf), now).0) <==> KeepsReach(c, Write(p, fd, offset, buf), now)
  {
    var n := At(c, p);
    StoreDurable(c, p, fd, if offset >= 0 then WriteAt(DataOf(n.server, fd), offset, buf) else [], now);
    SameServersDurable(c, Put(c, p, n, now));
  }

  lemma FTruncateDurable(c: Cluster, p: Path, fd: Fd, length: int, now: int)
    requires Inv(c) && Durable(c) && Live(c, p, fd)
    ensures Durable(Step(c, FTruncate(p, fd, length), now).0) <==> KeepsReach(c, FTruncate(p, fd, length), now)
  {
    var n := At(c, p);
    StoreDurable(c, p, fd, if length >= 0 then Resize(DataOf(n.server, fd), length) else [], now);
    SameServersDurable(c, Put(c, p, n, now));
  }

  lemma ReleaseDurable(c: Cluster, p: Path, fd: Fd, now: int)
    requires Inv(c) && Durable(c)
    ensures Durable(Step(c, Release(p, fd), now).0)
  {
    var n := At(c, p);
    assert Reached(n.server, c.secondary, p);
    PutDurable(c, p, n.(server := Servers.Release(n.server, p, fd)), now);
  }

  lemma TruncateDurable(c: Cluster, p: Path, length: int, now: int)
    requires Inv(c) && Durable(c)
    ensures Durable(Step(c, Truncate(p, length), now).0) <==> KeepsReach(c, Truncate(p, length), now)
  {
    assert Reached(At(c, p).server, c.secondary, p);
    PutDurable(c, p, Servers.Truncate(At(c, p), p, length, now).0, now);
  }

  lemma PutLineDurable(c: Cluster, p: Path, text: Data, now: int)
    requires Inv(c) && Durable(c)
    ensures Durable(PutLine(c, p, text, now)) <==> ReachedWith(At(c, p), p, text + "\n", now, Watched(At(c, p), p))
  {
    var n := At(c, p);
    PutDurable(c, p, n.(server := WriteLine(n.server, p, text, now)), now);
  }

  lemma UnlinkOneDurable(c: Cluster, p: Path, now: int)
    requires Inv(c) && Durable(c)
    ensures Durable(Put(c, p, Servers.Unlink(At(c, p), p), now))
  {
    PutDurable(c, p, Servers.Unlink(At(c, p), p), now);
  }

  lemma UnlinkDurable(c: Cluster, p: Path, now: int)
    requires Inv(c) && Durable(c)
    ensures Durable(Step(c, Unlink(p), now).0)
  {
    UnlinkIsAtOwner(c, p, now);
    UnlinkOneDurable(c, UnlinkTarget(c, p), now);
  }

  lemma RenameDurable(c: Cluster, p: Path, q: Path, now: int)
    requires Inv(c) && Durable(c) && Allowed(c, Rename(p, q))
    ensures Durable(Step(c, Rename(p, q), now).0)
  {
    var c' := Step(c, Rename(p, q), now).0;
    forall i, r | 0 <= i < |c.servers| ensures Reached(c'.servers[i], c'.secondary, r) {
      assert Reached(c.servers[i], c.secondary, r);
      assert Owned(c, i);
    }
  }

  lemma ExportDurable(c: Cluster, i: nat, now: int)
    requires Inv(c) && Durable(c) && i < |c.servers|
    ensures Durable(Step(c, Export(i), now).0)
  {
    var c' := Step(c, Export(i), now).0;
    forall j, p | 0 <= j < |c.servers| ensures Reached(c'.servers[j], c'.secondary, p) {
      assert Reached(c.servers[j], c.secondary, p);
      assert Owned(c, i) && Owned(c, j);
    }
  }

  lemma RestartDurable(c: Cluster, i: nat, now: int)
    requires Durable(c) && Routed(c) && i < |c.servers|
    ensures Durable(Step(c, Restart(i), now).0)
  {
  }

  /** A request keeps every unexported file reachable exactly when `KeepsReach` holds before it. */
  lemma StepDurableIff(c: Cluster, op: Op, now: int)
    requires Inv(c) && Durable(c) && Allowed(c, op)
    ensures Durable(Step(c, op, now).0) <==> KeepsReach(c, op, now)
  {
    match op
    case Create(p, flags, fd) => CreateDurable(c, p, flags, fd, now);
    case Open(p, flags, fd) => OpenDurable(c, p, flags, fd, now);
    case Read(_, _, _, _) => SameServersDurable(c, Step(c, op, now).0);
    case Write(p, fd, offset, buf) => WriteDurable(c, p, fd, offset, buf, now);
    case FTruncate(p, fd, length) => FTruncateDurable(c, p, fd, length, now);
    case Release(p, fd) => ReleaseDurable(c, p, fd, now);
    case Truncate(p, length) => TruncateDurable(c, p, length, now);
    case Unlink(p) => UnlinkDurable(c, p, now);
    case Rename(p, q) => RenameDurable(c, p, q, now);
    case Symlink(t, l) => PutLineDurable(c, CreateVirtualSymlink(l), t, now);
    case Link(t, l) => PutLineDurable(c, CreateVirtualLink(l), t, now);
    case Prefetch(p) =>
      assert Reached(At(c, p).server, c.secondary, p);
      PutDurable(c, p, Servers.Prefetch(At(c, p), p, now), now);
    case Export(i) => ExportDurable(c, i, now);
    case Restart(i) => RestartDurable(c, i, now);
  }

  ghost predicate KeepsReachRun(c: Cluster, ops: Trace)
    requires Routed(c)
    decreases |ops|
  {
    ops == [] || (KeepsReach(c, ops[0].0, ops[0].1) && KeepsReachRun(Step(c, ops[0].0, ops[0].1).0, ops[1..]))
  }

  lemma {:induction false} RunDurable(c: Cluster, f: Flat, ops: Trace)
    requires Inv(c) && Shows(c, f) && Durable(c) && AllowedRun(c, ops) && KeepsReachRun(c, ops)
    ensures Durable(Run(c, ops).0)
    decreases |ops|
  {
    if ops != [] {
      StepSimulates(c, f, ops[0].0, ops[0].1);
      StepDurableIff(c, ops[0].0, ops[0].1);
      RunDurable(Step(c, ops[0].0, ops[0].1).0, FlatStep(f, ops[0].0).0, ops[1..]);
    }
  }

  // ----- flushing the whole cluster -----

  /** The secondary tier has the bytes of the view at `p`, and so has nothing where the view has none. */
  predicate Whole(c: Cluster, p: Path)
    requires c.owner(p) < |c.servers|
  {
    View(c, p) == if p in c.secondary then Some(c.secondary[p].data) else None
  }

  lemma ExportMakesWhole(c: Cluster, i: nat, now: int, p: Path)
    requires Inv(c) && i < |c.servers|
    requires Whole(c, p) || (c.owner(p) == i && Reached(c.servers[i], c.secondary, p) && Fds(c.servers[i].table, p) == {})
    ensures Whole(ExportAt(c, i, now), p)
  {
    assert Owned(c, i) && Coherent(Node(c.servers[i], c.secondary));
    assert Agree(Lookup(c.servers[i].local, p), Lookup(c.secondary, p));
  }

  lemma FlushStep(c: Cluster, f: Flat, k: nat, now: int, p: Path)
    requires Inv(c) && Shows(c, f) && Durable(c) && c.clock <= now && k < |c.servers|
    requires Fds(At(c, p).server.table, p) == {} && (c.owner(p) < k ==> Whole(c, p))
    ensures var c' := ExportAt(c, k, now);
      && Inv(c') && Shows(c', f) && Durable(c')
      && Fds(At(c', p).server.table, p) == {} && (c.owner(p) <= k ==> Whole(c', p))
  {
    StepSimulates(c, f, Export(k), now);
    ExportDurable(c, k, now);
    assert Reached(c.servers[k], c.secondary, p);
    if c.owner(p) <= k {
      ExportMakesWhole(c, k, now, p);
    }
  }

  /** The times of the passes from server `k` on do not go back. */
  predicate InOrder(clock: int, k: nat, times: seq<int>) {
    (k < |times| ==> clock <= times[k]) && forall i, j :: k <= i <= j < |times| ==> times[i] <= times[j]
  }

  lemma {:induction false} FlushWhole(c: Cluster, f: Flat, k: nat, times: seq<int>, p: Path, c': Cluster)
    requires Inv(c) && Shows(c, f) && Durable(c) && k <= |c.servers| == |times| && InOrder(c.clock, k, times)
    requires Fds(At(c, p).server.table, p) == {} && (c.owner(p) < k ==> Whole(c, p))
    requires c' == Flushed(c, k, times)
    ensures Inv(c') && Shows(c', f) && Whole(c', p)
    decreases |c.servers| - k
  {
    if k < |c.servers| {
      FlushStep(c, f, k, times[k], p);
      var c1 := ExportAt(c, k, times[k]);
      assert c1.owner == c.owner && c1.clock == times[k];
      assert |c1.servers| == |c.servers|;
      assert c' == Flushed(c1, k + 1, times) by { FlushedFirst(c, k, times); }
      FlushWhole(c1, f, k + 1, times, p, c');
    }
  }

  /** After one pass on every server, the secondary tier alone is the flat file system at every path
      that nobody holds open. */
  lemma FlushMakesSecondaryWhole(c: Cluster, f: Flat, times: seq<int>)
    requires Inv(c) && Shows(c, f) && Durable(c) && |c.servers| == |times| && InOrder(c.clock, 0, times)
    ensures var c' := Flushed(c, 0, times);
      forall p :: Fds(At(c, p).server.table, p) == {} ==>
        (p in c'.secondary <==> p in f.files) && (p in f.files ==> c'.secondary[p].data == f.files[p])
  {
    var c' := Flushed(c, 0, times);
    forall p | Fds(At(c, p).server.table, p) == {}
      ensures (p in c'.secondary <==> p in f.files) && (p in f.files ==> c'.secondary[p].data == f.files[p])
    {
      FlushWhole(c, f, 0, times, p, c');
      assert View(c', p) == Lookup(f.files, p);
    }
  }

  // ----- the write window -----

  /** After a successful open the path is unregistered exactly when it was, or only the write-only bit
      is set; a read-write open leaves it registered. */
  lemma OpenClosesWindow(n: Node, p: Path, flags: OpenFlags, fd: Fd, now: int)
    requires Servers.Open(n, p, flags, fd, now).1 == Opened(fd)
    ensures p !in Servers.Open(n, p, flags, fd, now).0.server.registered <==> flags.wronly || p !in n.server.registered
  {
  }

  lemma CreateClosesWindow(n: Node, p: Path, flags: OpenFlags, fd: Fd, now: int)
    ensures p !in Servers.Create(n, p, flags, fd, now).0.server.registered
  {
  }

  /** No pass in the run touches the secondary file of `p`. */
  ghost predicate NeverExported(c: Cluster, ops: Trace, p: Path)
    requires Routed(c)
    decreases |ops|
  {
    ops == [] ||
    var c' := Step(c, ops[0].0, ops[0].1).0;
    (ops[0].0.Export? ==> Lookup(c'.secondary, p) == Lookup(c.secondary, p)) && NeverExported(c', ops[1..], p)
  }

  /** Only a close of the path, or a restart of its server, registers it. */
  predicate Registers(c: Cluster, op: Op, p: Path) {
    (op.Release? && op.path == p) || (op.Restart? && op.server == c.owner(p))
  }

  predicate Unregistered(c: Cluster, p: Path)
    requires c.owner(p) < |c.servers|
  {
    p !in At(c, p).server.registered
  }

  lemma PutUnregistered(c: Cluster, q: Path, n': Node, now: int, p: Path)
    requires Routed(c) && Unregistered(c, p)
    requires p in n'.server.registered ==> p in At(c, q).server.registered
    ensures Unregistered(Put(c, q, n', now), p)
  {
  }

  /** A request that runs on the owner of `q` alone. */
  lemma WindowOwner(c: Cluster, op: Op, now: int, p: Path)
    requires Routed(c) && Unregistered(c, p) && !Registers(c, op, p)
    requires op.Create? || op.Open? || op.Write? || op.FTruncate? || op.Release? || op.Truncate? || op.Prefetch?
    ensures Unregistered(Step(c, op, now).0, p)
  {
    var n := At(c, op.path);
    assert op.path == p ==> p !in n.server.registered;
  }

  /** Of all requests, only a close of the path or a restart of its server can register it. */
  lemma WindowStep(c: Cluster, op: Op, now: int, p: Path)
    requires Inv(c) && Unregistered(c, p) && !Registers(c, op, p)
    ensures Unregistered(Step(c, op, now).0, p)
    ensures op.Export? ==> Lookup(Step(c, op, now).0.secondary, p) == Lookup(c.secondary, p)
  {
    match op
    case Read(_, _, _, _) =>
    case Unlink(q) =>
      var t := UnlinkTarget(c, q);
      UnlinkIsAtOwner(c, q, now);
      PutUnregistered(c, t, Servers.Unlink(At(c, t), t), now, p);
    case Rename(q, r) => PutUnregistered(c, q, Servers.Rename(At(c, q), q, r, now).0, now, p);
    case Symlink(_, _) =>
    case Link(_, _) =>
    case Export(i) =>
    case Restart(i) =>
    case _ => WindowOwner(c, op, now, p);
  }

  /** From an unregistered state, no pass copies `p` until it is closed or its server restarts. */
  lemma {:induction false} WriteWindow(c: Cluster, f: Flat, ops: Trace, p: Path)
    requires Inv(c) && Shows(c, f) && AllowedRun(c, ops) && Unregistered(c, p)
    requires forall k :: 0 <= k < |ops| ==> !Registers(c, ops[k].0, p)
    ensures NeverExported(c, ops, p)
    decreases |ops|
  {
    if ops != [] {
      StepSimulates(c, f, ops[0].0, ops[0].1);
      assert !Registers(c, ops[0].0, p);
      WindowStep(c, ops[0].0, ops[0].1, p);
      var c' := Step(c, ops[0].0, ops[0].1).0;
      forall k | 0 <= k < |ops[1..]| ensures !Registers(c', ops[1..][k].0, p) {
        assert !Registers(c, ops[k + 1].0, p);
      }
      WriteWindow(c', FlatStep(f, ops[0].0).0, ops[1..], p);
    }
  }

  /** A local file that is not exported and that no pass will export. */
  predicate Missed(c: Cluster, p: Path)
    requires c.owner(p) < |c.servers|
  {
    var n := At(c, p);
    p in n.server.local && !Exported(n.server, n.secondary, p) && !(NeedsExport(n, p) && p in n.server.registered)
  }

  lemma ExportMisses(c: Cluster, k: nat, now: int, p: Path)
    requires Inv(c) && Missed(c, p) && k < |c.servers|
    ensures Missed(ExportAt(c, k, now), p)
  {
    assert Owned(c, k);
  }

  lemma {:induction false} FlushMisses(c: Cluster, f: Flat, k: nat, times: seq<int>, p: Path, c': Cluster)
    requires Inv(c) && Shows(c, f) && k <= |c.servers| == |times| && InOrder(c.clock, k, times) && Missed(c, p)
    requires c' == Flushed(c, k, times)
    ensures Inv(c') && Shows(c', f) && Missed(c', p)
    decreases |c.servers| - k
  {
    if k < |c.servers| {
      StepSimulates(c, f, Export(k), times[k]);
      ExportMisses(c, k, times[k], p);
      FlushedFirst(c, k, times);
      FlushMisses(ExportAt(c, k, times[k]), f, k + 1, times, p, c');
    }
  }

  /** With every file closed, one pass per server makes the secondary tier the whole flat file system exactly
      when every unexported file is reached. */
  lemma FlushClosedClusterIff(c: Cluster, f: Flat, times: seq<int>)
    requires Inv(c) && Shows(c, f) && |c.servers| == |times| && InOrder(c.clock, 0, times)
    requires forall i :: 0 <= i < |c.servers| ==> c.servers[i].table == map[]
    ensures var c' := Flushed(c, 0, times);
      (map p | p in c'.secondary :: c'.secondary[p].data) == f.files <==> Durable(c)
  {
    if Durable(c) {
      FlushClosedCluster(c, f, times);
    } else {
      var i, p :| 0 <= i < |c.servers| && !Reached(c.servers[i], c.secondary, p);
      MissedShows(c, f, times, i, p);
    }
  }

  lemma MissedShows(c: Cluster, f: Flat, times: seq<int>, i: nat, p: Path)
    requires Inv(c) && Shows(c, f) && |c.servers| == |times| && InOrder(c.clock, 0, times)
    requires i < |c.servers| && !Reached(c.servers[i], c.secondary, p) && c.servers[i].table == map[]
    ensures var c' := Flushed(c, 0, times); (map p | p in c'.secondary :: c'.secondary[p].data) != f.files
  {
    assert Owned(c, i);
    var c' := Flushed(c, 0, times);
    FlushMisses(c, f, 0, times, p, c');
    assert View(c', p) == Lookup(f.files, p);
  }

  lemma FlushClosedCluster(c: Cluster, f: Flat, times: seq<int>)
    requires Inv(c) && Shows(c, f) && Durable(c) && |c.servers| == |times| && InOrder(c.clock, 0, times)
    requires forall i :: 0 <= i < |c.servers| ==> c.servers[i].table == map[]
    ensures var c' := Flushed(c, 0, times); (map p | p in c'.secondary :: c'.secondary[p].data) == f.files
  {
    FlushMakesSecondaryWhole(c, f, times);
    var c' := Flushed(c, 0, times);
    forall p ensures (p in c'.secondary <==> p in f.files) && (p in f.files ==> c'.secondary[p].data == f.files[p]) {
      assert Fds(At(c, p).server.table, p) == {};
    }
  }

  /** From freshly started servers, after any allowed run that leaves nothing open: one pass per server puts
      exactly the flat file system into the secondary tier if and only if the run ends with every unexported
      file reached; and a run of requests that keep files reached ends so. */
  lemma EverythingReachesSecondary(c: Cluster, ops: Trace, times: seq<int>)
    requires Routed(c) && Stamped(c.secondary, c.clock) && |c.servers| == |times|
    requires forall i :: 0 <= i < |c.servers| ==> c.servers[i] == Server(map[], map[], map[], map[])
    requires AllowedRun(c, ops) && InOrder(Run(c, ops).0.clock, 0, times)
    requires forall i :: 0 <= i < |c.servers| ==> Run(c, ops).0.servers[i].table == map[]
    ensures var end, start := Run(c, ops).0, Flat(map p | p in c.secondary :: c.secondary[p].data, map[]);
      var c' := Flushed(end, 0, times);
      && ((map p | p in c'.secondary :: c'.secondary[p].data) == FlatRun(start, ops).0.files <==> Durable(end))
      && (KeepsReachRun(c, ops) ==> Durable(end))
  {
    var f := Flat(map p | p in c.secondary :: c.secondary[p].data, map[]);
    StartShows(c);
    RunRefinesFlat(c, f, ops);
    if KeepsReachRun(c, ops) {
      RunDurable(c, f, ops);
    }
    FlushClosedClusterIff(Run(c, ops).0, FlatRun(f, ops).0, times);
  }
}
