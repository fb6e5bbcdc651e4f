// Virtual symbolic links across the cluster: an entry on the link's own server holds the target, whatever
// server owns the target.

module Links {
  import opened Basics
  import opened Servers
  import opened VirtualNames
  import opened Attributes
  import opened Clusters
  import opened Refinement

  lemma {:induction false} FirstLineOfLine(text: Data)
    ensures FirstLine(text + "\n") == FirstLine(text)
    ensures FirstLine(text) == text <==> '\n' !in text
  {
    if text == [] {
      assert text + "\n" == "\n";
    } else {
      var rest := text[1..];
      assert (text + "\n")[0] == text[0] && (text + "\n")[1..] == rest + "\n";
      FirstLineOfLine(rest);
      assert text == [text[0]] + rest;
    }
  }

  /** The `link_path` that `GetFileStat` reports for an existing path; None if the path does not exist. */
  function LinkPath(c: Cluster, p: Path): Option<Data>
    requires Routed(c)
  {
    if View(c, p).None? then None
    else if IsVirtualSymlink(p) || IsVirtualLink(p) then Some(FirstLine(View(c, p).value))
    else Some("")
  }

  /** The client's `ReadLink`: the symlink entry's target, else the link entry's. What is left is
      `readlink` on the plain path, which is never a link here. */
  function ReadLink(c: Cluster, p: Path): Option<Data>
    requires Routed(c)
  {
    if LinkPath(c, CreateVirtualSymlink(p)).Some? then LinkPath(c, CreateVirtualSymlink(p))
    else LinkPath(c, CreateVirtualLink(p))
  }

  /** The request names the entry `e`, directly or as a link. */
  predicate Touches(op: Op, e: Path) {
    match op
    case Unlink(p) => p == e || CreateVirtualSymlink(p) == e || CreateVirtualLink(p) == e
    case Rename(p, q) => p == e || q == e
    case Symlink(_, l) => CreateVirtualSymlink(l) == e
    case Link(_, l) => CreateVirtualLink(l) == e
    case Export(_) => false
    case Restart(_) => false
    case _ => op.path == e
  }

  lemma {:induction false} FlatRunKeeps(f: Flat, ops: Trace, e: Path)
    requires forall o :: o in ops ==> !Touches(o.0, e)
    ensures Lookup(FlatRun(f, ops).0.files, e) == Lookup(f.files, e)
    decreases |ops|
  {
    if ops != [] {
      assert ops[0] in ops;
      FlatStepKeeps(f, ops[0].0, e);
      FlatRunKeeps(FlatStep(f, ops[0].0).0, ops[1..], e);
    }
  }

  lemma FlatStepKeeps(f: Flat, op: Op, e: Path)
    requires !Touches(op, e)
    ensures Lookup(FlatStep(f, op).0.files, e) == Lookup(f.files, e)
  {
  }

  lemma SymlinkEntryIsLink(l: Path)
    ensures IsVirtualSymlink(CreateVirtualSymlink(l))
  {
    Recognisers(l);
  }

  /** Once `Symlink(t, l)` has run, and until a request names the link again, reading the link gives the
      first line of `t`: that is `t` itself exactly when `t` has no newline. */
  lemma ReadLinkReturnsTarget(c: Cluster, f: Flat, t: Data, l: Path, now: int, ops: Trace)
    requires Inv(c) && Shows(c, f) && AllowedRun(c, [(Symlink(t, l), now)] + ops)
    requires forall o :: o in ops ==> !Touches(o.0, CreateVirtualSymlink(l))
    ensures ReadLink(Run(c, [(Symlink(t, l), now)] + ops).0, l) == Some(FirstLine(t))
    ensures ReadLink(Run(c, [(Symlink(t, l), now)] + ops).0, l) == Some(t) <==> '\n' !in t
  {
    var e, first := CreateVirtualSymlink(l), Op.Symlink(t, l);
    var whole := [(first, now)] + ops;
    assert whole[1..] == ops;
    RunRefinesFlat(c, f, whole);
    var c' := Run(c, whole).0;
    var f1 := FlatStep(f, first).0;
    FlatRunKeeps(f1, ops, e);
    assert FlatRun(f, whole).0 == FlatRun(f1, ops).0;
    assert View(c', e) == Lookup(FlatRun(f, whole).0.files, e);
    SymlinkEntryIsLink(l);
    FirstLineOfLine(t);
  }

  /** The same for a hard link, as long as no symlink of that name stands before it. */
  lemma ReadLinkReturnsHardLink(c: Cluster, f: Flat, t: Data, l: Path, now: int, ops: Trace)
    requires Inv(c) && Shows(c, f) && AllowedRun(c, [(Link(t, l), now)] + ops)
    requires View(c, CreateVirtualSymlink(l)).None?
    requires forall o :: o in ops ==> !Touches(o.0, CreateVirtualSymlink(l)) && !Touches(o.0, CreateVirtualLink(l))
    ensures ReadLink(Run(c, [(Link(t, l), now)] + ops).0, l) == Some(FirstLine(t))
  {
    var s, e, first := CreateVirtualSymlink(l), CreateVirtualLink(l), Op.Link(t, l);
    var whole := [(first, now)] + ops;
    assert whole[1..] == ops;
    RunRefinesFlat(c, f, whole);
    var c', f1 := Run(c, whole).0, FlatStep(f, first).0;
    EncodingsNeverCollide(l, l);
    FlatRunKeeps(f1, ops, s);
    FlatRunKeeps(f1, ops, e);
    assert FlatRun(f, whole).0 == FlatRun(f1, ops).0;
    assert View(c, s) == Lookup(f.files, s);
    assert View(c', s) == Lookup(FlatRun(f, whole).0.files, s) == None;
    assert View(c', e) == Lookup(FlatRun(f, whole).0.files, e) == Some(t + "\n");
    Recognisers(l);
    FirstLineOfLine(t);
  }

  /** Unlinking a symbolic link removes its entry and changes nothing else that can be seen. */
  lemma UnlinkRemovesOnlyTheLink(c: Cluster, f: Flat, l: Path, now: int)
    requires Inv(c) && Shows(c, f) && c.clock <= now && View(c, CreateVirtualSymlink(l)).Some?
    ensures var c', e := Step(c, Op.Unlink(l), now).0, CreateVirtualSymlink(l);
      Inv(c') && View(c', e) == None && forall q :: q != e ==> View(c', q) == View(c, q)
  {
    UnlinkSimulates(c, f, l, now);
    var c', e := Step(c, Op.Unlink(l), now).0, CreateVirtualSymlink(l);
    forall q ensures View(c', q) == if q == e then None else View(c, q) {
      assert View(c, q) == Lookup(f.files, q) && View(c, e) == Lookup(f.files, e);
    }
  }
}
