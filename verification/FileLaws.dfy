// What each request does, said of the views and of the bits of the `open` flags alone: a descriptor can write if
// and only if exactly one of its two access bits is set, and it can read if and only if the write-only bit is clear.

module FileLaws {
  import opened Basics
  import opened Descriptors
  import opened Servers
  import opened Clusters
  import opened Refinement
  import opened VirtualNames

  /** Every path shows what it did. */
  ghost predicate Same(c: Cluster, c': Cluster)
    requires Routed(c) && Routed(c')
  {
    forall q :: View(c', q) == View(c, q)
  }

  /** `p` shows this, and every other path what it did. */
  ghost predicate Becomes(c: Cluster, c': Cluster, p: Path, bytes: Option<Data>)
    requires Routed(c) && Routed(c')
  {
    View(c', p) == bytes && forall q :: q != p ==> View(c', q) == View(c, q)
  }

  ghost predicate FlatBecomes(f: Flat, f': Flat, p: Path, bytes: Option<Data>) {
    Lookup(f'.files, p) == bytes && forall q :: q != p ==> Lookup(f'.files, q) == Lookup(f.files, q)
  }

  lemma Carry(c: Cluster, c': Cluster, f: Flat, f': Flat, p: Path, bytes: Option<Data>)
    requires Routed(c) && Routed(c') && Shows(c, f) && Shows(c', f') && FlatBecomes(f, f', p, bytes)
    ensures Becomes(c, c', p, bytes)
  {
    forall q | q != p ensures View(c', q) == View(c, q) {
      assert View(c, q) == Lookup(f.files, q);
    }
  }

  lemma CarrySame(c: Cluster, c': Cluster, f: Flat, f': Flat)
    requires Routed(c) && Routed(c') && Shows(c, f) && Shows(c', f') && f'.files == f.files
    ensures Same(c, c')
  {
    forall q ensures View(c', q) == View(c, q) {
      assert View(c, q) == Lookup(f.files, q);
    }
  }

  /** The descriptor is open on the path's server, for this path, with these flags. */
  predicate HasFlags(c: Cluster, p: Path, fd: Fd, flags: OpenFlags)
    requires c.owner(p) < |c.servers|
  {
    var open := At(c, p).server.open;
    fd in open && open[fd].path == p && open[fd].flags == flags
  }

  // ----- opening -----

  /** `open` fails on a name that exclusive creation finds, and on one that is missing and not to be created. */
  predicate Refused(was: Option<Data>, flags: OpenFlags) {
    if was.Some? then flags.creat && flags.excl else !flags.creat
  }

  lemma FlatOpenLaw(f: Flat, p: Path, flags: OpenFlags, fd: Fd)
    ensures var (f', r), was := FlatOpen(f, p, flags, fd), Lookup(f.files, p);
      if Refused(was, flags) then r == Failed && f' == f else
        && r == Opened(fd) && Lookup(f'.handles, (p, fd)) == Some(flags)
        && FlatBecomes(f, f', p, if was.None? || flags.trunc then Some([]) else was)
  {
  }

  /** An open that is not refused hands out the descriptor; a new file, and one to be truncated, is empty. */
  lemma OpenLaw(c: Cluster, f: Flat, op: Op, now: int)
    requires Inv(c) && Shows(c, f) && c.clock <= now && (op.Create? || op.Open?)
    requires op.fd !in At(c, op.path).server.open && (op.Create? ==> CreateFaithful(At(c, op.path), op.path, op.flags))
    ensures var (c', r), p, was := Step(c, op, now), op.path, View(c, op.path);
      if Refused(was, op.flags) then r == Failed && Same(c, c') else
        && r == Opened(op.fd) && HasFlags(c', p, op.fd, op.flags)
        && Becomes(c, c', p, if was.None? || op.flags.trunc then Some([]) else was)
  {
    StepSimulates(c, f, op, now);
    var p, was := op.path, View(c, op.path);
    assert was == Lookup(f.files, p);
    FlatOpenLaw(f, p, op.flags, op.fd);
    var c', f' := Step(c, op, now).0, FlatOpen(f, p, op.flags, op.fd).0;
    if Refused(was, op.flags) {
      CarrySame(c, c', f, f');
    } else {
      assert Lookup(f'.handles, (p, op.fd)) == HandleAt(At(c', p).server.open, p, op.fd);
      Carry(c, c', f, f', p, if was.None? || op.flags.trunc then Some([]) else was);
    }
  }

  /** What a successful open leaves in the local tier: an empty file if it is to be truncated, else the local
      file as it was, else the secondary bytes, fetched now, else a new empty file. A creation does not fetch. */
  lemma OpenFetchLaw(n: Node, p: Path, flags: OpenFlags, fd: Fd, now: int)
    ensures var (n', r) := Servers.Open(n, p, flags, fd, now);
      r != Failed ==> Lookup(n'.server.local, p) == Some(
        if flags.trunc then File([], now)
        else if p in n.server.local then n.server.local[p]
        else File(if p in n.secondary then n.secondary[p].data else [], now))
    ensures var (n', r) := Servers.Create(n, p, flags, fd, now);
      r != Failed ==> Lookup(n'.server.local, p) == Some(
        if !flags.trunc && p in n.server.local then n.server.local[p] else File([], now))
  {
  }

  // ----- open descriptors -----

  /** The request closes the descriptor, or removes its file. */
  predicate Closes(op: Op, p: Path, fd: Fd) {
    op == Op.Release(p, fd) ||
    (op.Unlink? && p in {op.path, CreateVirtualSymlink(op.path), CreateVirtualLink(op.path)})
  }

  lemma LiveHasFile(c: Cluster, f: Flat, p: Path, fd: Fd, flags: OpenFlags)
    requires Inv(c) && Shows(c, f) && HasFlags(c, p, fd, flags)
    ensures Live(c, p, fd) && (p, fd) in f.handles && f.handles[(p, fd)] == flags && p in f.files
    ensures View(c, p) == Some(f.files[p])
  {
    assert Lookup(f.handles, (p, fd)) == HandleAt(At(c, p).server.open, p, fd);
    assert View(c, p) == Lookup(f.files, p);
  }

  lemma FlatKeepsHandle(f: Flat, op: Op, p: Path, fd: Fd)
    requires (p, fd) in f.handles && !Closes(op, p, fd) && !((op.Create? || op.Open?) && (op.path, op.fd) == (p, fd))
    ensures Lookup(FlatStep(f, op).0.handles, (p, fd)) == Lookup(f.handles, (p, fd))
  {
  }

  lemma StepKeepsHandle(c: Cluster, f: Flat, op: Op, now: int, p: Path, fd: Fd, flags: OpenFlags)
    requires Inv(c) && Shows(c, f) && c.clock <= now && Allowed(c, op)
    requires HasFlags(c, p, fd, flags) && !Closes(op, p, fd)
    ensures HasFlags(Step(c, op, now).0, p, fd, flags)
  {
    LiveHasFile(c, f, p, fd, flags);
    StepSimulates(c, f, op, now);
    FlatKeepsHandle(f, op, p, fd);
    var c', f' := Step(c, op, now).0, FlatStep(f, op).0;
    assert Lookup(f'.handles, (p, fd)) == HandleAt(At(c', p).server.open, p, fd);
  }

  /** A descriptor keeps its flags until it is closed or its file removed. */
  lemma {:induction false} RunKeepsHandle(c: Cluster, f: Flat, ops: Trace, p: Path, fd: Fd, flags: OpenFlags)
    requires Inv(c) && Shows(c, f) && AllowedRun(c, ops) && HasFlags(c, p, fd, flags)
    requires forall o :: o in ops ==> !Closes(o.0, p, fd)
    ensures var (c', f') := (Run(c, ops).0, FlatRun(f, ops).0); Inv(c') && Shows(c', f') && HasFlags(c', p, fd, flags)
    decreases |ops|
  {
    if ops != [] {
      assert ops[0] in ops;
      StepSimulates(c, f, ops[0].0, ops[0].1);
      StepKeepsHandle(c, f, ops[0].0, ops[0].1, p, fd, flags);
      RunKeepsHandle(Step(c, ops[0].0, ops[0].1).0, FlatStep(f, ops[0].0).0, ops[1..], p, fd, flags);
    }
  }

  // ----- using a descriptor -----

  lemma WriteLaw(c: Cluster, f: Flat, p: Path, fd: Fd, flags: OpenFlags, offset: int, buf: Data, now: int)
    requires Inv(c) && Shows(c, f) && c.clock <= now && HasFlags(c, p, fd, flags)
    ensures View(c, p).Some?
    ensures var (c', r) := Step(c, Write(p, fd, offset, buf), now);
      if offset >= 0 && flags.wronly != flags.rdwr
      then r == Done && Becomes(c, c', p, Some(WriteAt(View(c, p).value, offset, buf)))
      else r == Failed && Same(c, c')
  {
    var op := Write(p, fd, offset, buf);
    LiveHasFile(c, f, p, fd, flags);
    StepSimulates(c, f, op, now);
    var c', f' := Step(c, op, now).0, FlatStep(f, op).0;
    if offset >= 0 && flags.wronly != flags.rdwr {
      Carry(c, c', f, f', p, Some(WriteAt(f.files[p], offset, buf)));
    } else {
      CarrySame(c, c', f, f');
    }
  }

  lemma FTruncateLaw(c: Cluster, f: Flat, p: Path, fd: Fd, flags: OpenFlags, length: int, now: int)
    requires Inv(c) && Shows(c, f) && c.clock <= now && HasFlags(c, p, fd, flags)
    ensures View(c, p).Some?
    ensures var (c', r) := Step(c, FTruncate(p, fd, length), now);
      if length >= 0 && flags.wronly != flags.rdwr
      then r == Done && Becomes(c, c', p, Some(Resize(View(c, p).value, length)))
      else r == Failed && Same(c, c')
  {
    var op := FTruncate(p, fd, length);
    LiveHasFile(c, f, p, fd, flags);
    StepSimulates(c, f, op, now);
    var c', f' := Step(c, op, now).0, FlatStep(f, op).0;
    if length >= 0 && flags.wronly != flags.rdwr {
      Carry(c, c', f, f', p, Some(Resize(f.files[p], length)));
    } else {
      CarrySame(c, c', f, f');
    }
  }

  lemma ReadLaw(c: Cluster, f: Flat, p: Path, fd: Fd, flags: OpenFlags, offset: int, size: nat, now: int)
    requires Inv(c) && Shows(c, f) && c.clock <= now && HasFlags(c, p, fd, flags)
    ensures View(c, p).Some?
    ensures var (c', r) := Step(c, Read(p, fd, offset, size), now);
      Same(c, c') && r == if offset >= 0 && !flags.wronly then Bytes(ReadAt(View(c, p).value, offset, size)) else Failed
  {
    var op := Read(p, fd, offset, size);
    LiveHasFile(c, f, p, fd, flags);
    StepSimulates(c, f, op, now);
    CarrySame(c, Step(c, op, now).0, f, FlatStep(f, op).0);
  }

  /** Through a descriptor that an open with these flags handed out, and that nothing has closed since, a write
      and a truncation change the file if and only if exactly one access bit is set, and a read gives its bytes
      if and only if the write-only bit is clear; what is refused changes nothing. */
  lemma AccessLaw(c: Cluster, f: Flat, opening: Op, start: int, ops: Trace, now: int, offset: nat, buf: Data, size: nat)
    requires Inv(c) && Shows(c, f) && (opening.Create? || opening.Open?)
    requires AllowedRun(c, [(opening, start)] + ops) && Step(c, opening, start).1 != Failed
    requires Run(c, [(opening, start)] + ops).0.clock <= now
    requires forall o :: o in ops ==> !Closes(o.0, opening.path, opening.fd)
    ensures var c1, p, fd, flags := Run(c, [(opening, start)] + ops).0, opening.path, opening.fd, opening.flags;
      var ((c2, w), (c3, t), (_, r)) :=
        (Step(c1, Write(p, fd, offset, buf), now), Step(c1, FTruncate(p, fd, size), now), Step(c1, Read(p, fd, offset, size), now));
      && View(c1, p).Some?
      && (w == Done <==> flags.wronly != flags.rdwr) && (t == Done <==> flags.wronly != flags.rdwr)
      && (r != Failed <==> !flags.wronly)
      && (if w == Done then Becomes(c1, c2, p, Some(WriteAt(View(c1, p).value, offset, buf))) else w == Failed && Same(c1, c2))
      && (if t == Done then Becomes(c1, c3, p, Some(Resize(View(c1, p).value, size))) else t == Failed && Same(c1, c3))
      && (r != Failed ==> r == Bytes(ReadAt(View(c1, p).value, offset, size)))
  {
    var run, p, fd, flags := [(opening, start)] + ops, opening.path, opening.fd, opening.flags;
    assert run[0] == (opening, start) && run[1..] == ops;
    OpenLaw(c, f, opening, start);
    StepSimulates(c, f, opening, start);
    var c0, f0 := Step(c, opening, start).0, FlatStep(f, opening).0;
    RunKeepsHandle(c0, f0, ops, p, fd, flags);
    var c1, f1 := Run(c0, ops).0, FlatRun(f0, ops).0;
    assert Run(c, run).0 == c1;
    WriteLaw(c1, f1, p, fd, flags, offset, buf, now);
    FTruncateLaw(c1, f1, p, fd, flags, size, now);
    ReadLaw(c1, f1, p, fd, flags, offset, size, now);
  }

  // ----- the other requests -----

  /** All descriptors but those of a path, or but one of them, are as they were. */
  ghost predicate SameFlags(c: Cluster, c': Cluster, p: Path, fds: set<Fd>)
    requires Routed(c) && Routed(c')
  {
    forall q, d, flags :: HasFlags(c', q, d, flags) <==> HasFlags(c, q, d, flags) && !(q == p && d in fds)
  }

  lemma CarryFlags(c: Cluster, c': Cluster, f: Flat, f': Flat, p: Path, fds: set<Fd>)
    requires Routed(c) && Routed(c') && Shows(c, f) && Shows(c', f')
    requires forall q, d :: Lookup(f'.handles, (q, d)) == if q == p && d in fds then None else Lookup(f.handles, (q, d))
    ensures SameFlags(c, c', p, fds)
  {
    forall q, d, flags
      ensures HasFlags(c', q, d, flags) <==> HasFlags(c, q, d, flags) && !(q == p && d in fds)
    {
      assert HandleAt(At(c', q).server.open, q, d) == Lookup(f'.handles, (q, d));
      assert HandleAt(At(c, q).server.open, q, d) == Lookup(f.handles, (q, d));
    }
  }

  /** A release closes its own descriptor and no other. */
  lemma ReleaseLaw(c: Cluster, f: Flat, p: Path, fd: Fd, now: int)
    requires Inv(c) && Shows(c, f) && c.clock <= now && Live(c, p, fd)
    ensures var c' := Step(c, Op.Release(p, fd), now).0; Same(c, c') && SameFlags(c, c', p, {fd})
  {
    var op := Op.Release(p, fd);
    StepSimulates(c, f, op, now);
    CarrySame(c, Step(c, op, now).0, f, FlatStep(f, op).0);
    CarryFlags(c, Step(c, op, now).0, f, FlatStep(f, op).0, p, {fd});
  }

  lemma FlatUnlinkLaw(f: Flat, t: Path)
    ensures FlatBecomes(f, FlatUnlink(f, t), t, None)
    ensures forall q, d :: Lookup(FlatUnlink(f, t).handles, (q, d)) == if q == t then None else Lookup(f.handles, (q, d))
  {
  }

  /** Only listed descriptors of a path are open. */
  lemma ListedOnly(c: Cluster, f: Flat, t: Path, d: Fd)
    requires Inv(c) && Shows(c, f) && d !in Fds(At(c, t).server.table, t)
    ensures Lookup(f.handles, (t, d)) == None
  {
    assert Lookup(f.handles, (t, d)) == HandleAt(At(c, t).server.open, t, d);
  }

  lemma UnlinkedLaw(c: Cluster, c': Cluster, f: Flat, t: Path)
    requires Inv(c) && Routed(c') && Shows(c, f) && Shows(c', FlatUnlink(f, t))
    ensures Becomes(c, c', t, None) && SameFlags(c, c', t, Fds(At(c, t).server.table, t))
  {
    var fds := Fds(At(c, t).server.table, t);
    FlatUnlinkLaw(f, t);
    Carry(c, c', f, FlatUnlink(f, t), t, None);
    forall q, d ensures Lookup(FlatUnlink(f, t).handles, (q, d)) ==
      if q == t && d in fds then None else Lookup(f.handles, (q, d))
    {
      if q == t && d !in fds {
        ListedOnly(c, f, t, d);
      }
    }
    CarryFlags(c, c', f, FlatUnlink(f, t), t, fds);
  }

  /** An unlink removes the symlink entry if there is one, else the link entry if there is one, else the path,
      and closes what was open of it. */
  lemma UnlinkLaw(c: Cluster, f: Flat, p: Path, now: int)
    requires Inv(c) && Shows(c, f) && c.clock <= now
    ensures var c', s, l := Step(c, Op.Unlink(p), now).0, CreateVirtualSymlink(p), CreateVirtualLink(p);
      var t := if View(c, s).Some? then s else if View(c, l).Some? then l else p;
      Becomes(c, c', t, None) && SameFlags(c, c', t, Fds(At(c, t).server.table, t))
  {
    var op, s, l := Op.Unlink(p), CreateVirtualSymlink(p), CreateVirtualLink(p);
    assert View(c, s) == Lookup(f.files, s) && View(c, l) == Lookup(f.files, l);
    UnlinkSimulates(c, f, p, now);
    UnlinkedLaw(c, Step(c, op, now).0, f, if View(c, s).Some? then s else if View(c, l).Some? then l else p);
  }

  /** A faithful rename moves the bytes, and replaces those of the new name. */
  lemma RenameLaw(c: Cluster, f: Flat, p: Path, q: Path, now: int)
    requires Inv(c) && Shows(c, f) && c.clock <= now && Fds(At(c, p).server.table, p) == {} && RenameFaithful(c, p, q)
    ensures var (c', r) := Step(c, Rename(p, q), now);
      && r == Done
      && (if p == q || View(c, p).None? then Same(c, c') else
            && View(c', p) == None && View(c', q) == View(c, p)
            && forall o :: o != p && o != q ==> View(c', o) == View(c, o))
  {
    var op := Rename(p, q);
    StepSimulates(c, f, op, now);
    var c', f' := Step(c, op, now).0, FlatStep(f, op).0;
    assert View(c, p) == Lookup(f.files, p);
    forall o ensures View(c', o) == Lookup(f'.files, o) && View(c, o) == Lookup(f.files, o) {
    }
  }

  lemma TruncateLaw(c: Cluster, f: Flat, p: Path, length: int, now: int)
    requires Inv(c) && Shows(c, f) && c.clock <= now
    ensures var (c', r), was := Step(c, Truncate(p, length), now), View(c, p);
      if was.Some? && length >= 0 then r == Done && Becomes(c, c', p, Some(Resize(was.value, length)))
      else r == Failed && Same(c, c')
  {
    var op := Truncate(p, length);
    StepSimulates(c, f, op, now);
    var c', f' := Step(c, op, now).0, FlatStep(f, op).0;
    assert View(c, p) == Lookup(f.files, p);
    if View(c, p).Some? && length >= 0 {
      Carry(c, c', f, f', p, Some(Resize(f.files[p], length)));
    } else {
      CarrySame(c, c', f, f');
    }
  }

  /** A link becomes one line in its own entry: the symlink extension for the one kind, the link extension for
      the other. */
  lemma LinkLaw(c: Cluster, f: Flat, t: Path, l: Path, now: int)
    requires Inv(c) && Shows(c, f) && c.clock <= now
    ensures Becomes(c, Step(c, Symlink(t, l), now).0, CreateVirtualSymlink(l), Some(t + "\n"))
    ensures Becomes(c, Step(c, Link(t, l), now).0, CreateVirtualLink(l), Some(t + "\n"))
  {
    StepSimulates(c, f, Symlink(t, l), now);
    Carry(c, Step(c, Symlink(t, l), now).0, f, FlatStep(f, Symlink(t, l)).0, CreateVirtualSymlink(l), Some(t + "\n"));
    StepSimulates(c, f, Link(t, l), now);
    Carry(c, Step(c, Link(t, l), now).0, f, FlatStep(f, Link(t, l)).0, CreateVirtualLink(l), Some(t + "\n"));
  }

  /** Prefetches, passes and restarts change nothing that is seen, and close nothing. */
  lemma BackgroundLaw(c: Cluster, f: Flat, op: Op, now: int)
    requires Inv(c) && Shows(c, f) && c.clock <= now && (op.Prefetch? || op.Export? || op.Restart?)
    requires !op.Prefetch? ==> op.server < |c.servers|
    requires op.Restart? ==> c.servers[op.server].open == map[]
    ensures var c' := Step(c, op, now).0; Same(c, c') && SameFlags(c, c', "", {})
  {
    StepSimulates(c, f, op, now);
    CarrySame(c, Step(c, op, now).0, f, FlatStep(f, op).0);
    CarryFlags(c, Step(c, op, now).0, f, FlatStep(f, op).0, "", {});
  }
}
