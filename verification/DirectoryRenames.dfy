// Renaming a directory: every server in turn copies its local files out, drops its local directory and, if it
// is the first, renames the secondary directory; the later ones merge into the new directory.

module DirectoryRenames {
  import opened Basics
  import opened TreeWalks
  import opened DirectoryWalks

  type Files = map<Rel, Data>

  /** One tier. */
  datatype Disk = Disk(files: Files, dirs: set<Rel>)

  datatype Host = Host(disk: Disk, registered: set<Rel>)

  datatype World = World(owner: Rel -> nat, hosts: seq<Host>, secondary: Disk)

  // ----- maps of files -----

  function Without(files: Files, top: Rel): Files {
    map p | p in files && !(top <= p) :: files[p]
  }

  /** The files at `from` + r, for r in `rels`, as files at `to` + r. */
  function Transplant(files: Files, from: Rel, to: Rel, rels: set<Rel>): Files {
    map p | p in (set r | r in rels && from + r in files :: to + r) && from + p[|to|..] in files :: files[from + p[|to|..]]
  }

  lemma TransplantAt(files: Files, from: Rel, to: Rel, rels: set<Rel>, p: Rel)
    ensures Lookup(Transplant(files, from, to, rels), p) ==
      if to <= p && p[|to|..] in rels then Lookup(files, from + p[|to|..]) else None
  {
    if to <= p {
      assert p == to + p[|to|..];
    }
    forall r | p == to + r ensures to <= p && p[|to|..] == r {
    }
  }

  function RelsBelow(files: Files, top: Rel): set<Rel> {
    set p | p in files && top <= p :: p[|top|..]
  }

  /** `rename` of a directory. */
  function Move(disk: Disk, from: Rel, to: Rel): Disk {
    Disk(Without(disk.files, from) + Transplant(disk.files, from, to, RelsBelow(disk.files, from)),
         (set d | d in disk.dirs && !(from <= d)) + (set d | d in disk.dirs && from <= d :: to + d[|from|..]))
  }

  lemma MoveAt(disk: Disk, from: Rel, to: Rel, p: Rel)
    requires !(from <= to) && !(to <= from) && forall q :: q in disk.files ==> !(to <= q)
    ensures Lookup(Move(disk, from, to).files, p) ==
      if from <= p then None
      else if to <= p then Lookup(disk.files, from + p[|to|..])
      else Lookup(disk.files, p)
  {
    TransplantAt(disk.files, from, to, RelsBelow(disk.files, from), p);
    if to <= p {
      var r := p[|to|..];
      assert from <= from + r && (from + r)[|from|..] == r;
      Diverge(from, to, p);
    }
  }

  /** Two directories, neither in the other, have no path in common. */
  lemma Diverge(a: Rel, b: Rel, p: Rel)
    requires !(a <= b) && !(b <= a) && b <= p
    ensures !(a <= p)
  {
  }

  lemma PrefixSplit(a: Rel, p: Rel)
    requires a <= p
    ensures p == a + p[|a|..]
  {
  }

  lemma MoveDirsAt(disk: Disk, from: Rel, to: Rel, x: Rel)
    requires !(from <= to) && !(to <= from) && forall d :: d in disk.dirs ==> !(to <= d)
    ensures to + x in Move(disk, from, to).dirs <==> from + x in disk.dirs
    ensures from + x !in Move(disk, from, to).dirs
  {
    assert from <= from + x && (from + x)[|from|..] == x && to <= to + x;
    Diverge(from, to, to + x);
    Diverge(to, from, from + x);
    forall d | from <= d && to + x == to + d[|from|..] ensures d == from + x {
      assert x == (to + x)[|to|..] == d[|from|..];
    }
    forall d | from <= d ensures to + d[|from|..] != from + x {
      assert to <= to + d[|from|..];
    }
  }

  // ----- one server -----

  /** Where the local files are copied to: the new secondary directory if there is one. */
  function Base(secondary: Disk, source: Rel, target: Rel): Rel {
    if target in secondary.dirs then target else source
  }

  /** `copy_file` throws for a directory, and if the destination is one or has no parent. */
  predicate Fits(local: Disk, secondary: Disk, from: Rel, parent: Rel, to: Rel) {
    from !in local.dirs && (from in local.files ==> parent in secondary.dirs && to !in secondary.dirs)
  }

  predicate CopyFits(local: Disk, secondary: Disk, source: Rel, base: Rel, r: Rel) {
    r != [] && Fits(local, secondary, source + r, base + r[..|r| - 1], base + r)
  }

  ghost predicate AllFit(local: Disk, secondary: Disk, source: Rel, base: Rel, looked: set<Rel>) {
    forall r :: r in looked ==> CopyFits(local, secondary, source, base, r)
  }

  /** The secondary rename works, or is not needed. */
  predicate CanMove(secondary: Disk, source: Rel, target: Rel) {
    target in secondary.dirs ||
    (source in secondary.dirs && target !in secondary.files && target != [] &&
     target[..|target| - 1] in secondary.dirs && !(source <= target))
  }

  function CopiedOut(local: Disk, secondary: Disk, source: Rel, base: Rel, looked: set<Rel>): Disk {
    secondary.(files := secondary.files + Transplant(local.files, source, base, looked))
  }

  function Prefixes(p: Rel): set<Rel> {
    set k | 0 <= k <= |p| :: p[..k]
  }

  /** The local directories made from the walk of the new secondary directory. */
  function Recreated(dirs: set<Rel>, target: Rel, made: seq<Entry>): set<Rel> {
    dirs + Prefixes(target) + set d | d in Entered(made, []) :: target + d
  }

  /** `create_directories` throws if a regular file is in the way of the new directories. */
  ghost predicate Room(files: Files, target: Rel, made: seq<Entry>) {
    Recreated({}, target, made) !! files.Keys
  }

  /** Nothing is thrown on the way. */
  ghost predicate Smooth(local: Disk, secondary: Disk, source: Rel, target: Rel, walk: seq<Entry>, made: seq<Entry>) {
    && AllFit(local, secondary, source, Base(secondary, source, target), Looked(walk, []))
    && CanMove(secondary, source, target)
    && Room(Without(local.files, source), target, made)
  }

  /** The whole request on one server, for a directory that exists there. `walk` and `made` are the local
      tree of `source` and the secondary tree of `target` as the iterators yield them. */
  function Renamed(h: Host, secondary: Disk, source: Rel, target: Rel, walk: seq<Entry>, made: seq<Entry>): (Host, Disk) {
    var copied := CopiedOut(h.disk, secondary, source, Base(secondary, source, target), Looked(walk, []));
    var files := Without(h.disk.files, source);
    var dirs := set d | d in h.disk.dirs && !(source <= d);
    (Host(Disk(files, Recreated(dirs, target, made)), files.Keys),
     if target in secondary.dirs then copied else Move(copied, source, target))
  }

  /** Where an exception ends the request: at an entry of the walk; after a secondary rename that failed, when
      the new directory is not there to be walked; or at a local directory. */
  datatype Break = Copying(entry: nat) | Moving | Making

  /** What a server leaves when the request breaks there. It has forgotten all registrations before the first
      copy, and it has removed its local directory before the secondary rename. In the last case it
      has made some of the local directories again. */
  ghost predicate Broken(b: Break, h: Host, secondary: Disk, source: Rel, target: Rel, walk: seq<Entry>, made: seq<Entry>,
                         h': Host, secondary': Disk)
  {
    var base := Base(secondary, source, target);
    var copied := CopiedOut(h.disk, secondary, source, base, Looked(walk, []));
    var files := Without(h.disk.files, source);
    h'.registered == {} &&
    match b
    case Copying(k) =>
      && k < |walk| && AllFit(h.disk, secondary, source, base, Looked(walk[..k], []))
      && !AllFit(h.disk, secondary, source, base, Looked(walk[..k + 1], []))
      && h'.disk == h.disk && secondary' == CopiedOut(h.disk, secondary, source, base, Looked(walk[..k], []))
    case Moving =>
      && AllFit(h.disk, secondary, source, base, Looked(walk, [])) && !CanMove(secondary, source, target)
      && h'.disk == Disk(files, (set d | d in h.disk.dirs && !(source <= d)) +
                                if Prefixes(target) !! files.Keys then Prefixes(target) else {})
      && secondary' == copied
    case Making =>
      && AllFit(h.disk, secondary, source, base, Looked(walk, [])) && CanMove(secondary, source, target)
      && !Room(files, target, made)
      && h'.disk.files == files
      && (var kept := set d | d in h.disk.dirs && !(source <= d);
           kept <= h'.disk.dirs <= kept + Recreated({}, target, made))
      && secondary' == if target in secondary.dirs then copied else Move(copied, source, target)
  }

  ghost predicate Breaks(h: Host, secondary: Disk, source: Rel, target: Rel, walk: seq<Entry>, made: seq<Entry>,
                         h': Host, secondary': Disk)
  {
    exists b :: Broken(b, h, secondary, source, target, walk, made, h', secondary')
  }

  lemma NextEntry(walk: seq<Entry>, k: nat)
    requires k < |walk|
    ensures var prefix, name := DirNames(walk[..k]), walk[k].name;
      && DirNames(walk[..k + 1]) == (if walk[k].DirNamed? then prefix + [name] else prefix)
      && Looked(walk[..k + 1], []) ==
           (if walk[k].DirNamed? then Looked(walk[..k], []) else Looked(walk[..k], []) + {prefix + [name]})
      && Entered(walk[..k + 1], []) ==
           (if walk[k].DirNamed? then Entered(walk[..k], []) + {prefix + [name]} else Entered(walk[..k], []))
  {
    var front, last := walk[..k], [walk[k]];
    assert walk[..k + 1] == front + last && last[1..] == [];
    assert [] + DirNames(front) == DirNames(front);
    DirNamesConcat(front, last);
    WalkConcat(front, last, []);
  }

  lemma TransplantNext(files: Files, from: Rel, to: Rel, rels: set<Rel>, r: Rel)
    ensures Transplant(files, from, to, rels + {r}) ==
      if from + r in files then Transplant(files, from, to, rels)[to + r := files[from + r]]
      else Transplant(files, from, to, rels)
  {
  }

  lemma CopyStep(local: Disk, secondary: Disk, source: Rel, base: Rel, looked: set<Rel>, prefix: Rel, name: string)
    ensures var f, parent, g, r := source + prefix + [name], base + prefix, base + prefix + [name], prefix + [name];
      && (AllFit(local, secondary, source, base, looked + {r}) <==>
           (AllFit(local, secondary, source, base, looked) && Fits(local, secondary, f, parent, g)))
      && CopiedOut(local, secondary, source, base, looked + {r}) ==
           (var d := CopiedOut(local, secondary, source, base, looked);
            if f in local.files then d.(files := d.files[g := local.files[f]]) else d)
  {
    var r := prefix + [name];
    assert source + prefix + [name] == source + r && base + prefix + [name] == base + r && r[..|r| - 1] == prefix;
    TransplantNext(local.files, source, base, looked, r);
    var less := Transplant(local.files, source, base, looked);
    if source + r in local.files {
      assert secondary.files + less[base + r := local.files[source + r]] ==
             (secondary.files + less)[base + r := local.files[source + r]];
    }
  }

  class Volume {
    var disk: Disk

    constructor (disk: Disk)
      ensures this.disk == disk
    {
      this.disk := disk;
    }
  }

  class RenameServer {
    const local: Volume
    const secondary: Volume
    var localFiles: set<Rel>

    constructor (local: Volume, secondary: Volume)
      ensures this.local == local && this.secondary == secondary && localFiles == {}
    {
      this.local, this.secondary, localFiles := local, secondary, {};
    }

    /** The directory branch of `Rename`. False is an exception thrown on the way. */
    method Rename(source: Rel, target: Rel, walk: seq<Entry>, made: seq<Entry>) returns (ok: bool)
      requires local != secondary && source in local.disk.dirs
      modifies this, local, secondary
      ensures ok <==> old(Smooth(local.disk, secondary.disk, source, target, walk, made))
      ensures ok ==> (
        (Host(local.disk, localFiles), secondary.disk) ==
        Renamed(Host(old(local.disk), old(localFiles)), old(secondary.disk), source, target, walk, made))
      ensures !ok ==>
        Breaks(Host(old(local.disk), old(localFiles)), old(secondary.disk), source, target, walk, made,
               Host(local.disk, localFiles), secondary.disk)
    {
      ghost var h, sec := Host(local.disk, localFiles), secondary.disk;
      localFiles := {};
      var isRename := target !in secondary.disk.dirs;
      ghost var entry;
      ok, entry := CopyOut(source, if isRename then source else target, walk);
      if !ok {
        assert Broken(Copying(entry), h, sec, source, target, walk, made, Host(local.disk, localFiles), secondary.disk);
        LookedGrows(walk, entry + 1);
        return false;
      }
      local.disk := Disk(Without(local.disk.files, source), set d | d in local.disk.dirs && !(source <= d));
      if isRename {
        ok := RenameSecondary(source, target);
        if !ok {
          ok := MakeDirectories(target);
          assert Broken(Moving, h, sec, source, target, walk, made, Host(local.disk, localFiles), secondary.disk);
          return false;
        }
      }
      ok := Recreate(target, made);
      if ok {
        localFiles := local.disk.files.Keys;
      } else {
        assert Broken(Making, h, sec, source, target, walk, made, Host(local.disk, localFiles), secondary.disk);
      }
    }

    /** `rename` of the secondary directory to a name that is no directory: it needs a source and a parent, and
        does not replace a file or move a directory into itself. */
    method RenameSecondary(source: Rel, target: Rel) returns (ok: bool)
      modifies secondary
      ensures ok <==>
        var d := old(secondary.disk);
        && source in d.dirs && target !in d.files && target != [] && target[..|target| - 1] in d.dirs
        && !(source <= target)
      ensures secondary.disk == if ok then Move(old(secondary.disk), source, target) else old(secondary.disk)
    {
      ok := source in secondary.disk.dirs && target !in secondary.disk.files && target != [] && !(source <= target);
      if ok {
        ok := target[..|target| - 1] in secondary.disk.dirs;
      }
      if ok {
        secondary.disk := Move(secondary.disk, source, target);
      }
    }

    /** Copy every local file that is found on the walk, up to the first that does not fit. */
    method CopyOut(source: Rel, base: Rel, walk: seq<Entry>) returns (ok: bool, ghost entry: nat)
      requires local != secondary
      modifies secondary
      ensures ok <==> AllFit(local.disk, old(secondary.disk), source, base, Looked(walk, []))
      ensures ok ==> secondary.disk == CopiedOut(local.disk, old(secondary.disk), source, base, Looked(walk, []))
      ensures !ok ==>
        && entry < |walk| && AllFit(local.disk, old(secondary.disk), source, base, Looked(walk[..entry], []))
        && !AllFit(local.disk, old(secondary.disk), source, base, Looked(walk[..entry + 1], []))
        && secondary.disk == CopiedOut(local.disk, old(secondary.disk), source, base, Looked(walk[..entry], []))
    {
      ghost var before := secondary.disk;
      assert before.files + map[] == before.files;
      var from, second := source, base;
      for k := 0 to |walk|
        invariant from == source + DirNames(walk[..k]) && second == base + DirNames(walk[..k])
        invariant local.disk == old(local.disk)
        invariant secondary.disk == CopiedOut(local.disk, before, source, base, Looked(walk[..k], []))
        invariant AllFit(local.disk, before, source, base, Looked(walk[..k], []))
      {
        NextEntry(walk, k);
        var name := walk[k].name;
        if walk[k].DirNamed? {
          assert source + (DirNames(walk[..k]) + [name]) == from + [name];
          assert base + (DirNames(walk[..k]) + [name]) == second + [name];
          from, second := from + [name], second + [name];
        } else {
          CopyStep(local.disk, before, source, base, Looked(walk[..k], []), DirNames(walk[..k]), name);
          LookedGrows(walk, k + 1);
          ok := CopyFile(from + [name], second, second + [name]);
          if !ok {
            return false, k;
          }
        }
      }
      assert walk[..|walk|] == walk;
      return true, |walk|;
    }

    /** `copy_file`, if the source exists at all. */
    method CopyFile(from: Rel, parent: Rel, to: Rel) returns (ok: bool)
      requires local != secondary
      modifies secondary
      ensures ok <==> (
        from !in local.disk.dirs &&
        (from in local.disk.files ==> parent in old(secondary.disk).dirs && to !in old(secondary.disk).dirs))
      ensures secondary.disk == if ok && from in local.disk.files
        then old(secondary.disk).(files := old(secondary.disk).files[to := local.disk.files[from]])
        else old(secondary.disk)
    {
      if from in local.disk.dirs {
        return false;
      } else if from in local.disk.files {
        if parent !in secondary.disk.dirs || to in secondary.disk.dirs {
          return false;
        }
        secondary.disk := secondary.disk.(files := secondary.disk.files[to := local.disk.files[from]]);
      }
      return true;
    }

    /** `create_directories`. */
    method MakeDirectories(path: Rel) returns (ok: bool)
      modifies local
      ensures ok <==> Prefixes(path) !! old(local.disk).files.Keys
      ensures local.disk == if ok then old(local.disk).(dirs := old(local.disk).dirs + Prefixes(path)) else old(local.disk)
    {
      ok := forall k | 0 <= k <= |path| :: path[..k] !in local.disk.files;
      if ok {
        local.disk := local.disk.(dirs := local.disk.dirs + Prefixes(path));
      }
    }

    /** Make the directories met on the walk of the new secondary directory. */
    method Recreate(target: Rel, made: seq<Entry>) returns (ok: bool)
      modifies local
      ensures ok <==> Room(old(local.disk).files, target, made)
      ensures ok ==> local.disk == Disk(old(local.disk).files, Recreated(old(local.disk).dirs, target, made))
      ensures local.disk.files == old(local.disk).files
      ensures old(local.disk).dirs <= local.disk.dirs <= old(local.disk).dirs + Recreated({}, target, made)
    {
      ghost var files, dirs := local.disk.files, local.disk.dirs;
      var path := target;
      RecreatedGrows(target, made, 0);
      ok := MakeDirectories(path);
      if !ok {
        return;
      }
      for k := 0 to |made|
        invariant path == target + DirNames(made[..k])
        invariant local.disk == Disk(files, Recreated(dirs, target, made[..k]))
        invariant Prefixes(path) <= Recreated({}, target, made[..k]) && Room(files, target, made[..k])
      {
        NextEntry(made, k);
        if made[k].DirNamed? {
          PrefixesNext(path, made[k].name);
          RecreatedNext(dirs, target, made, k);
          RecreatedNext({}, target, made, k);
          RecreatedGrows(target, made, k + 1);
          RecreatedGrows(target, made, k);
          path := path + [made[k].name];
          assert path == target + (DirNames(made[..k]) + [made[k].name]);
          ok := MakeDirectories(path);
          if !ok {
            return;
          }
        }
      }
      assert made[..|made|] == made;
    }
  }

  lemma RecreatedNext(dirs: set<Rel>, target: Rel, made: seq<Entry>, k: nat)
    requires k < |made| && made[k].DirNamed?
    ensures Recreated(dirs, target, made[..k + 1]) ==
      Recreated(dirs, target, made[..k]) + {target + (DirNames(made[..k]) + [made[k].name])}
  {
    NextEntry(made, k);
  }

  lemma {:induction false} RecreatedGrows(target: Rel, made: seq<Entry>, k: nat)
    requires k <= |made|
    ensures Recreated({}, target, made[..k]) <= Recreated({}, target, made)
    decreases |made| - k
  {
    if k < |made| {
      NextEntry(made, k);
      RecreatedGrows(target, made, k + 1);
    } else {
      assert made[..k] == made;
    }
  }

  lemma PrefixesNext(p: Rel, name: string)
    ensures Prefixes(p + [name]) == Prefixes(p) + {p + [name]}
  {
    var q := p + [name];
    forall k | 0 <= k <= |p| ensures q[..k] == p[..k] {
    }
    assert q[..|q|] == q;
    forall x | x in Prefixes(p) ensures x in Prefixes(q) {
      var k :| 0 <= k <= |p| && x == p[..k];
      assert q[..k] == x;
    }
  }

  lemma {:induction false} LookedGrows(walk: seq<Entry>, k: nat)
    requires k <= |walk|
    ensures Looked(walk[..k], []) <= Looked(walk, [])
    decreases |walk| - k
  {
    if k < |walk| {
      NextEntry(walk, k);
      LookedGrows(walk, k + 1);
    } else {
      assert walk[..k] == walk;
    }
  }

  lemma RecreatedAvoids(dirs: set<Rel>, source: Rel, target: Rel, made: seq<Entry>)
    requires !(source <= target) && !(target <= source) && forall d :: d in dirs ==> !(source <= d)
    ensures forall d :: d in Recreated(dirs, target, made) ==> !(source <= d)
  {
  }

  // ----- every server in turn -----

  /** An exception on one server ends the client's request: the later servers do not get it. */
  datatype Progress = Through(world: World) | Thrown

  /** A server without the local directory leaves everything as it is. */
  ghost function Turn(w: World, i: nat, source: Rel, target: Rel, walk: seq<Entry>, made: seq<Entry>): (r: Progress)
    requires i < |w.hosts|
    ensures r.Through? ==> |r.world.hosts| == |w.hosts| && r.world.owner == w.owner
  {
    if source !in w.hosts[i].disk.dirs then Through(w)
    else if !Smooth(w.hosts[i].disk, w.secondary, source, target, walk, made) then Thrown
    else
      var (h, sec) := Renamed(w.hosts[i], w.secondary, source, target, walk, made);
      Through(w.(hosts := w.hosts[i := h], secondary := sec))
  }

  /** After the first `k` servers. */
  ghost function After(w: World, k: nat, source: Rel, target: Rel, walks: seq<seq<Entry>>, mades: seq<seq<Entry>>):
    (r: Progress)
    requires k <= |w.hosts| == |walks| == |mades|
    ensures r.Through? ==> |r.world.hosts| == |w.hosts| && r.world.owner == w.owner
  {
    if k == 0 then Through(w) else
      var before := After(w, k - 1, source, target, walks, mades);
      if before.Thrown? then Thrown else Turn(before.world, k - 1, source, target, walks[k - 1], mades[k - 1])
  }

  ghost predicate Routed(w: World) {
    forall p :: w.owner(p) < |w.hosts|
  }

  /** What a reader of a file sees. */
  function View(w: World, p: Rel): Option<Data>
    requires Routed(w)
  {
    var local := w.hosts[w.owner(p)].disk.files;
    if p in local then Some(local[p]) else Lookup(w.secondary.files, p)
  }

  ghost predicate Nothing(disk: Disk, top: Rel) {
    (forall p :: p in disk.files ==> !(top <= p)) && forall d :: d in disk.dirs ==> !(top <= d)
  }

  /** Local files are at their owners and in local directories; `source` is a secondary directory, `target`
      a fresh name, and neither lies in the other. */
  ghost predicate Ready(w: World, source: Rel, target: Rel) {
    && Routed(w)
    && (forall i, p :: 0 <= i < |w.hosts| && p in w.hosts[i].disk.files ==> w.owner(p) == i)
    && (forall i :: 0 <= i < |w.hosts| && source !in w.hosts[i].disk.dirs ==> Nothing(w.hosts[i].disk, source))
    && source in w.secondary.dirs && !(source <= target) && !(target <= source)
    && Nothing(w.secondary, target) && forall i :: 0 <= i < |w.hosts| ==> Nothing(w.hosts[i].disk, target)
  }

  /** Some of the first `k` servers have the directory. */
  predicate Begun(w: World, k: nat, source: Rel)
    requires k <= |w.hosts|
  {
    exists i :: 0 <= i < k && source in w.hosts[i].disk.dirs
  }

  /** Where the first `k` servers have put the file at `source` + r. */
  function Merged(w: World, k: nat, source: Rel, walks: seq<seq<Entry>>, r: Rel): Option<Data>
    requires k <= |w.hosts| == |walks|
  {
    var o := w.owner(source + r);
    if o < k && r in Looked(walks[o], []) && source + r in w.hosts[o].disk.files
    then Some(w.hosts[o].disk.files[source + r])
    else Lookup(w.secondary.files, source + r)
  }

  /** The secondary files and directories after the first `k` servers. */
  ghost predicate SecondaryAfter(w: World, k: nat, source: Rel, target: Rel, walks: seq<seq<Entry>>, sec: Disk)
    requires k <= |w.hosts| == |walks|
  {
    if !Begun(w, k, source) then sec == w.secondary else
      && (forall p :: Lookup(sec.files, p) ==
           if source <= p then None
           else if target <= p then Merged(w, k, source, walks, p[|target|..])
           else Lookup(w.secondary.files, p))
      && (forall x :: target + x in sec.dirs <==> source + x in w.secondary.dirs)
      && (forall x :: source + x !in sec.dirs)
      && SameDirsElsewhere(w.secondary.dirs, sec.dirs, source, target)
  }

  /** Directories below neither name are as they were. */
  ghost predicate SameDirsElsewhere(dirs: set<Rel>, dirs': set<Rel>, source: Rel, target: Rel) {
    forall d :: !(source <= d) && !(target <= d) ==> (d in dirs' <==> d in dirs)
  }

  /** So are they on a server, but for those that lead to the new name. */
  ghost predicate SameLocalDirs(dirs: set<Rel>, dirs': set<Rel>, source: Rel, target: Rel) {
    && (forall d :: !(source <= d) && d in dirs ==> d in dirs')
    && forall d :: !(target <= d) && d !in Prefixes(target) && d in dirs' ==> d in dirs
  }

  lemma RecreatedIsNew(dirs: set<Rel>, source: Rel, target: Rel, made: seq<Entry>)
    requires !(target <= source)
    ensures SameLocalDirs(dirs, Recreated((set d | d in dirs && !(source <= d)), target, made), source, target)
  {
  }

  ghost predicate HostsAfter(w: World, k: nat, source: Rel, target: Rel, hosts: seq<Host>)
    requires k <= |w.hosts| == |hosts|
  {
    forall i :: 0 <= i < |hosts| ==>
      if i < k && source in w.hosts[i].disk.dirs
      then hosts[i].disk.files == Without(w.hosts[i].disk.files, source) && Nothing(hosts[i].disk, source) &&
           hosts[i].registered == hosts[i].disk.files.Keys &&
           SameLocalDirs(w.hosts[i].disk.dirs, hosts[i].disk.dirs, source, target) &&
           Prefixes(target) <= hosts[i].disk.dirs
      else hosts[i] == w.hosts[i]
  }

  lemma BegunNext(w: World, k: nat, source: Rel)
    requires k < |w.hosts|
    ensures Begun(w, k + 1, source) <==> Begun(w, k, source) || source in w.hosts[k].disk.dirs
  {
  }

  lemma MergedNext(w: World, k: nat, source: Rel, target: Rel, walks: seq<seq<Entry>>, r: Rel)
    requires Ready(w, source, target) && k < |w.hosts| == |walks|
    ensures Merged(w, k + 1, source, walks, r) ==
      if r in Looked(walks[k], []) && source + r in w.hosts[k].disk.files
      then Some(w.hosts[k].disk.files[source + r]) else Merged(w, k, source, walks, r)
    ensures !Begun(w, k, source) ==> Merged(w, k, source, walks, r) == Lookup(w.secondary.files, source + r)
  {
  }

  /** The first server that has the directory renames it. */
  lemma FirstTurn(w: World, k: nat, source: Rel, target: Rel, walks: seq<seq<Entry>>)
    requires Ready(w, source, target) && k < |w.hosts| == |walks|
    requires !Begun(w, k, source) && source in w.hosts[k].disk.dirs
    ensures var copied := CopiedOut(w.hosts[k].disk, w.secondary, source, source, Looked(walks[k], []));
      SecondaryAfter(w, k + 1, source, target, walks, Move(copied, source, target))
  {
    BegunNext(w, k, source);
    var local, looked := w.hosts[k].disk.files, Looked(walks[k], []);
    var copied := CopiedOut(w.hosts[k].disk, w.secondary, source, source, looked);
    forall q | q in copied.files ensures !(target <= q) {
      TransplantAt(local, source, source, looked, q);
      if source <= q {
        Diverge(target, source, q);
      }
    }
    forall p ensures Lookup(Move(copied, source, target).files, p) ==
      if source <= p then None
      else if target <= p then Merged(w, k + 1, source, walks, p[|target|..])
      else Lookup(w.secondary.files, p)
    {
      MoveAt(copied, source, target, p);
      FirstCopied(w, k, source, target, walks, p);
    }
    forall x
      ensures target + x in Move(copied, source, target).dirs <==> source + x in w.secondary.dirs
      ensures source + x !in Move(copied, source, target).dirs
    {
      MoveDirsAt(copied, source, target, x);
    }
  }

  lemma FirstCopied(w: World, k: nat, source: Rel, target: Rel, walks: seq<seq<Entry>>, p: Rel)
    requires Ready(w, source, target) && k < |w.hosts| == |walks|
    requires !Begun(w, k, source) && source in w.hosts[k].disk.dirs
    ensures var copied := CopiedOut(w.hosts[k].disk, w.secondary, source, source, Looked(walks[k], []));
      && (!(source <= p) ==> Lookup(copied.files, p) == Lookup(w.secondary.files, p))
      && (target <= p ==>
           Lookup(copied.files, source + p[|target|..]) == Merged(w, k + 1, source, walks, p[|target|..]))
  {
  }

  /** The later ones merge into it. */
  lemma LaterTurn(w: World, k: nat, source: Rel, target: Rel, walks: seq<seq<Entry>>, sec: Disk)
    requires Ready(w, source, target) && k < |w.hosts| == |walks|
    requires Begun(w, k, source) && SecondaryAfter(w, k, source, target, walks, sec)
    ensures SecondaryAfter(w, k + 1, source, target, walks,
                           CopiedOut(w.hosts[k].disk, sec, source, target, Looked(walks[k], [])))
  {
    BegunNext(w, k, source);
    var local, looked := w.hosts[k].disk.files, Looked(walks[k], []);
    var copied := CopiedOut(w.hosts[k].disk, sec, source, target, looked);
    forall p ensures Lookup(copied.files, p) ==
      if source <= p then None
      else if target <= p then Merged(w, k + 1, source, walks, p[|target|..])
      else Lookup(w.secondary.files, p)
    {
      TransplantAt(local, source, target, looked, p);
      if target <= p {
        Diverge(source, target, p);
        MergedNext(w, k, source, target, walks, p[|target|..]);
      }
    }
  }

  /** What decides before the request whether it gets through the first `k` servers: on each that has the
      directory, every file the walk finds can be copied next to the secondary directory, and no local file
      has the name of a parent of `target`; and the secondary directory can be renamed. */
  ghost predicate GetsThrough(w: World, k: nat, source: Rel, target: Rel, walks: seq<seq<Entry>>)
    requires k <= |w.hosts| == |walks|
  {
    && (Begun(w, k, source) ==> CanMove(w.secondary, source, target))
    && forall i :: 0 <= i < k && source in w.hosts[i].disk.dirs ==> HostFits(w, i, source, target, walks[i])
  }

  ghost predicate HostFits(w: World, i: nat, source: Rel, target: Rel, walk: seq<Entry>)
    requires i < |w.hosts|
  {
    AllFit(w.hosts[i].disk, w.secondary, source, source, Looked(walk, [])) && Prefixes(target) !! w.hosts[i].disk.files.Keys
  }

  /** Copies fit into the renamed directory when they fitted into the old one. */
  lemma FitsAfter(w: World, k: nat, source: Rel, target: Rel, walks: seq<seq<Entry>>, sec: Disk, local: Disk, looked: set<Rel>)
    requires Ready(w, source, target) && k <= |w.hosts| == |walks|
    requires Begun(w, k, source) && SecondaryAfter(w, k, source, target, walks, sec)
    ensures AllFit(local, sec, source, target, looked) <==> AllFit(local, w.secondary, source, source, looked)
  {
    forall r | r in looked
      ensures CopyFits(local, sec, source, target, r) <==> CopyFits(local, w.secondary, source, source, r)
    {
      if r != [] {
        var x := r[..|r| - 1];
        assert target + x in sec.dirs <==> source + x in w.secondary.dirs;
      }
      assert target + r in sec.dirs <==> source + r in w.secondary.dirs;
    }
  }

  lemma PrefixOfPrefix(a: Rel, q: Rel, k: nat)
    requires k <= |q| && a <= q[..k]
    ensures a <= q
  {
  }

  lemma RoomIff(files: Files, source: Rel, target: Rel, made: seq<Entry>)
    requires !(source <= target) && forall p :: p in files ==> !(target <= p)
    ensures Room(Without(files, source), target, made) <==> Prefixes(target) !! files.Keys
  {
    forall p | p in Prefixes(target) ensures !(source <= p) {
      var k :| 0 <= k <= |target| && p == target[..k];
      if source <= p {
        PrefixOfPrefix(source, target, k);
      }
    }
    forall p | p in Recreated({}, target, made) && p !in Prefixes(target) ensures p !in files {
      assert target <= p;
    }
  }

  lemma SmoothIff(w: World, k: nat, source: Rel, target: Rel, walks: seq<seq<Entry>>, made: seq<Entry>, sec: Disk)
    requires Ready(w, source, target) && k < |w.hosts| == |walks| && SecondaryAfter(w, k, source, target, walks, sec)
    ensures Smooth(w.hosts[k].disk, sec, source, target, walks[k], made) <==>
      HostFits(w, k, source, target, walks[k]) && (!Begun(w, k, source) ==> CanMove(w.secondary, source, target))
  {
    TargetIsDirectory(w, k, source, target, walks, sec);
    assert Nothing(w.hosts[k].disk, target);
    RoomIff(w.hosts[k].disk.files, source, target, made);
    if Begun(w, k, source) {
      FitsAfter(w, k, source, target, walks, sec, w.hosts[k].disk, Looked(walks[k], []));
    }
  }

  lemma GetsThroughNext(w: World, k: nat, source: Rel, target: Rel, walks: seq<seq<Entry>>)
    requires k < |w.hosts| == |walks|
    ensures GetsThrough(w, k + 1, source, target, walks) <==>
      GetsThrough(w, k, source, target, walks) &&
      (source in w.hosts[k].disk.dirs ==>
         HostFits(w, k, source, target, walks[k]) && (!Begun(w, k, source) ==> CanMove(w.secondary, source, target)))
  {
    BegunNext(w, k, source);
  }

  /** The request gets through the first `k` servers exactly when `GetsThrough` held at the start, and then
      the state is known. */
  lemma {:induction false} AfterIs(w: World, k: nat, source: Rel, target: Rel, walks: seq<seq<Entry>>,
                                   mades: seq<seq<Entry>>)
    requires Ready(w, source, target) && k <= |w.hosts| == |walks| == |mades|
    ensures var r := After(w, k, source, target, walks, mades);
      && (r.Through? <==> GetsThrough(w, k, source, target, walks))
      && (r.Through? ==>
            SecondaryAfter(w, k, source, target, walks, r.world.secondary) && HostsAfter(w, k, source, target, r.world.hosts))
  {
    if k > 0 {
      var j := k - 1;
      AfterIs(w, j, source, target, walks, mades);
      GetsThroughNext(w, j, source, target, walks);
      var before := After(w, j, source, target, walks, mades);
      if before.Through? {
        TurnIs(w, j, source, target, walks, mades[j], before.world);
      }
    }
  }

  lemma TurnIs(w: World, j: nat, source: Rel, target: Rel, walks: seq<seq<Entry>>, made: seq<Entry>, before: World)
    requires Ready(w, source, target) && j < |w.hosts| == |walks| && |before.hosts| == |w.hosts|
    requires SecondaryAfter(w, j, source, target, walks, before.secondary) && HostsAfter(w, j, source, target, before.hosts)
    ensures var r := Turn(before, j, source, target, walks[j], made);
      && (r.Through? <==> (source in w.hosts[j].disk.dirs ==>
            HostFits(w, j, source, target, walks[j]) && (!Begun(w, j, source) ==> CanMove(w.secondary, source, target))))
      && (r.Through? ==>
            SecondaryAfter(w, j + 1, source, target, walks, r.world.secondary) && HostsAfter(w, j + 1, source, target, r.world.hosts))
  {
    assert before.hosts[j] == w.hosts[j];
    BegunNext(w, j, source);
    TargetIsDirectory(w, j, source, target, walks, before.secondary);
    SmoothIff(w, j, source, target, walks, made, before.secondary);
    RecreatedAvoids((set d | d in w.hosts[j].disk.dirs && !(source <= d)), source, target, made);
    RecreatedIsNew(w.hosts[j].disk.dirs, source, target, made);
    if source !in w.hosts[j].disk.dirs {
      IdleTurn(w, j, source, target, walks, before.secondary);
    } else if Begun(w, j, source) {
      LaterTurn(w, j, source, target, walks, before.secondary);
    } else {
      FirstTurn(w, j, source, target, walks);
    }
  }

  /** Every server but the first finds the new name already there. */
  lemma TargetIsDirectory(w: World, k: nat, source: Rel, target: Rel, walks: seq<seq<Entry>>, sec: Disk)
    requires Ready(w, source, target) && k <= |w.hosts| == |walks|
    requires SecondaryAfter(w, k, source, target, walks, sec)
    ensures target in sec.dirs <==> Begun(w, k, source)
  {
    assert target + [] == target && source + [] == source;
  }

  lemma IdleTurn(w: World, k: nat, source: Rel, target: Rel, walks: seq<seq<Entry>>, sec: Disk)
    requires Ready(w, source, target) && k < |w.hosts| == |walks| && source !in w.hosts[k].disk.dirs
    requires SecondaryAfter(w, k, source, target, walks, sec)
    ensures SecondaryAfter(w, k + 1, source, target, walks, sec)
  {
  }

  // ----- what the whole request does -----

  /** Every file below `source` that the walk misses is already in the secondary tier as it is. */
  ghost predicate MissedAreExported(w: World, source: Rel, walks: seq<seq<Entry>>)
    requires |w.hosts| == |walks|
  {
    forall i, r :: 0 <= i < |w.hosts| && source + r in w.hosts[i].disk.files && r !in Looked(walks[i], []) ==>
      Lookup(w.secondary.files, source + r) == Some(w.hosts[i].disk.files[source + r])
  }

  lemma MergedIsView(w: World, source: Rel, target: Rel, walks: seq<seq<Entry>>, r: Rel)
    requires Ready(w, source, target) && |w.hosts| == |walks|
    ensures var o := w.owner(source + r);
      Merged(w, |w.hosts|, source, walks, r) == View(w, source + r) <==>
        r in Looked(walks[o], []) || source + r !in w.hosts[o].disk.files ||
        Lookup(w.secondary.files, source + r) == Some(w.hosts[o].disk.files[source + r])
  {
  }

  lemma ViewAfter(w: World, source: Rel, target: Rel, walks: seq<seq<Entry>>, w': World, p: Rel)
    requires Ready(w, source, target) && |w.hosts| == |walks| == |w'.hosts| && w'.owner == w.owner && Begun(w, |w.hosts|, source)
    requires SecondaryAfter(w, |w.hosts|, source, target, walks, w'.secondary) && HostsAfter(w, |w.hosts|, source, target, w'.hosts)
    ensures View(w', p) ==
      if source <= p then None
      else if target <= p then Merged(w, |w.hosts|, source, walks, p[|target|..])
      else View(w, p)
  {
    var o := w.owner(p);
    assert source !in w.hosts[o].disk.dirs ==> Nothing(w.hosts[o].disk, source);
    assert Nothing(w.hosts[o].disk, target);
    assert Lookup(w'.secondary.files, p) ==
      if source <= p then None
      else if target <= p then Merged(w, |w.hosts|, source, walks, p[|target|..])
      else Lookup(w.secondary.files, p);
  }

  /** A directory that some server has is renamed on all servers without an exception exactly when
      `GetsThrough` holds before the request. Then nothing is left at or below the old name on any tier, and
      all other names show what they did; and the new name shows every file of the old one exactly when each
      local file that a server's walk misses had been exported as it is. */
  lemma DirectoryRenameExact(w: World, source: Rel, target: Rel, walks: seq<seq<Entry>>, mades: seq<seq<Entry>>)
    requires Ready(w, source, target) && |w.hosts| == |walks| == |mades| && Begun(w, |w.hosts|, source)
    ensures var end := After(w, |w.hosts|, source, target, walks, mades);
      && (end.Through? <==> GetsThrough(w, |w.hosts|, source, target, walks))
      && (end.Through? ==>
            var w' := end.world;
            && Nothing(w'.secondary, source)
            && (forall x :: target + x in w'.secondary.dirs <==> source + x in w.secondary.dirs)
            && SameDirsElsewhere(w.secondary.dirs, w'.secondary.dirs, source, target)
            && (forall i :: 0 <= i < |w'.hosts| ==>
                 (Nothing(w'.hosts[i].disk, source) &&
                  SameLocalDirs(w.hosts[i].disk.dirs, w'.hosts[i].disk.dirs, source, target) &&
                  (source in w.hosts[i].disk.dirs ==> Prefixes(target) <= w'.hosts[i].disk.dirs)))
            && (forall p :: !(source <= p) && !(target <= p) ==> View(w', p) == View(w, p))
            && ((forall r :: View(w', target + r) == View(w, source + r)) <==> MissedAreExported(w, source, walks)))
  {
    AfterIs(w, |w.hosts|, source, target, walks, mades);
    var end := After(w, |w.hosts|, source, target, walks, mades);
    if end.Through? {
      SourceGone(w, source, target, walks, end.world);
      ViewsAfter(w, source, target, walks, end.world);
    }
  }

  lemma ViewsAfter(w: World, source: Rel, target: Rel, walks: seq<seq<Entry>>, w': World)
    requires Ready(w, source, target) && |w.hosts| == |walks| == |w'.hosts| && w'.owner == w.owner && Begun(w, |w.hosts|, source)
    requires SecondaryAfter(w, |w.hosts|, source, target, walks, w'.secondary) && HostsAfter(w, |w.hosts|, source, target, w'.hosts)
    ensures forall p :: !(source <= p) && !(target <= p) ==> View(w', p) == View(w, p)
    ensures (forall r :: View(w', target + r) == View(w, source + r)) <==> MissedAreExported(w, source, walks)
  {
    var n := |w.hosts|;
    forall p | !(source <= p) && !(target <= p) ensures View(w', p) == View(w, p) {
      ViewAfter(w, source, target, walks, w', p);
    }
    forall r ensures View(w', target + r) == Merged(w, n, source, walks, r) {
      ViewAfter(w, source, target, walks, w', target + r);
      Diverge(source, target, target + r);
      assert (target + r)[|target|..] == r;
    }
    if MissedAreExported(w, source, walks) {
      forall r ensures View(w', target + r) == View(w, source + r) {
        MergedIsView(w, source, target, walks, r);
      }
    }
    if forall r :: View(w', target + r) == View(w, source + r) {
      forall i, r | 0 <= i < n && source + r in w.hosts[i].disk.files && r !in Looked(walks[i], [])
        ensures Lookup(w.secondary.files, source + r) == Some(w.hosts[i].disk.files[source + r])
      {
        MergedIsView(w, source, target, walks, r);
        assert View(w', target + r) == View(w, source + r);
      }
    }
  }

  lemma SourceGone(w: World, source: Rel, target: Rel, walks: seq<seq<Entry>>, w': World)
    requires Ready(w, source, target) && |w.hosts| == |walks| == |w'.hosts| && Begun(w, |w.hosts|, source)
    requires SecondaryAfter(w, |w.hosts|, source, target, walks, w'.secondary) && HostsAfter(w, |w.hosts|, source, target, w'.hosts)
    ensures Nothing(w'.secondary, source)
    ensures forall i :: 0 <= i < |w'.hosts| ==> Nothing(w'.hosts[i].disk, source)
  {
    forall p | p in w'.secondary.files ensures !(source <= p) {
      assert Lookup(w'.secondary.files, p).Some?;
    }
    forall d | d in w'.secondary.dirs ensures !(source <= d) {
      if source <= d {
        PrefixSplit(source, d);
      }
    }
  }

  // ----- when nothing is thrown and nothing is lost -----

  /** The tree of a directory of a tier, as the iterator finds it. */
  ghost predicate IsTreeOf(tree: Tree, disk: Disk, top: Rel) {
    && Distinct(tree)
    && (forall r :: r in DirectoryWalks.Files(tree, []) <==> top + r in disk.files)
    && (forall r :: r in Dirs(tree, []) <==> r != [] && top + r in disk.dirs)
  }

  /** The parent of `target` is a secondary directory and nowhere a file; local files lie in local directories
      that the secondary tier has as well, and no name is both a file and a directory. */
  ghost predicate Tidy(w: World, source: Rel, target: Rel) {
    && target != [] && target[..|target| - 1] in w.secondary.dirs
    && (forall i :: 0 <= i < |w.hosts| ==> Prefixes(target) !! w.hosts[i].disk.files.Keys)
    && forall i, r :: 0 <= i < |w.hosts| && source + r in w.hosts[i].disk.files ==>
         source + r !in w.hosts[i].disk.dirs && source + r !in w.secondary.dirs &&
         r != [] && source + r[..|r| - 1] in w.secondary.dirs
  }

  /** The local trees of the directory, each with its files first. */
  ghost predicate TreesFilesFirst(w: World, source: Rel, trees: seq<Tree>, walks: seq<seq<Entry>>)
    requires |w.hosts| == |walks| == |trees|
  {
    forall i :: 0 <= i < |w.hosts| && source in w.hosts[i].disk.dirs ==>
      IsTreeOf(trees[i], w.hosts[i].disk, source) && walks[i] == PreOrder(trees[i]) && FilesFirst(trees[i])
  }

  lemma TidyFits(w: World, i: nat, source: Rel, target: Rel, trees: seq<Tree>, walks: seq<seq<Entry>>)
    requires Ready(w, source, target) && Tidy(w, source, target) && |w.hosts| == |walks| == |trees|
    requires TreesFilesFirst(w, source, trees, walks) && i < |w.hosts| && source in w.hosts[i].disk.dirs
    ensures HostFits(w, i, source, target, walks[i])
    ensures forall r :: source + r in w.hosts[i].disk.files ==> r in Looked(walks[i], [])
  {
    EveryFileFoundIff(trees[i]);
    var local := w.hosts[i].disk;
    forall r | r in Looked(walks[i], []) ensures CopyFits(local, w.secondary, source, source, r) {
      assert source + r in local.files;
    }
  }

  /** Directories whose local trees have their files first move whole: no exception, no file lost. */
  lemma DirectoryRenameMovesAll(w: World, source: Rel, target: Rel, trees: seq<Tree>, walks: seq<seq<Entry>>,
                                mades: seq<seq<Entry>>)
    requires Ready(w, source, target) && Tidy(w, source, target) && Begun(w, |w.hosts|, source)
    requires |w.hosts| == |walks| == |mades| == |trees| && TreesFilesFirst(w, source, trees, walks)
    ensures var end := After(w, |w.hosts|, source, target, walks, mades);
      end.Through? && forall r :: View(end.world, target + r) == View(w, source + r)
  {
    forall i | 0 <= i < |w.hosts| && source in w.hosts[i].disk.dirs
      ensures HostFits(w, i, source, target, walks[i])
      ensures forall r :: source + r in w.hosts[i].disk.files ==> r in Looked(walks[i], [])
    {
      TidyFits(w, i, source, target, trees, walks);
    }
    forall i, r | 0 <= i < |w.hosts| && source + r in w.hosts[i].disk.files ensures r in Looked(walks[i], []) {
      assert source <= source + r;
    }
    assert target !in w.secondary.files by {
      assert target <= target;
    }
    assert GetsThrough(w, |w.hosts|, source, target, walks);
    assert MissedAreExported(w, source, walks);
    DirectoryRenameExact(w, source, target, walks, mades);
  }

  /** The server ends with the directories of the new secondary tree exactly when that tree is a chain. */
  lemma DirectoriesRecreatedIff(h: Host, secondary: Disk, source: Rel, target: Rel, walk: seq<Entry>, tree: Tree)
    requires Distinct(tree) && forall d :: d in h.disk.dirs ==> !(target <= d)
    ensures var dirs := Renamed(h, secondary, source, target, walk, PreOrder(tree)).0.disk.dirs;
      (forall x :: target + x in dirs <==> x == [] || x in Dirs(tree, [])) <==> Chain(tree)
  {
    var dirs := Renamed(h, secondary, source, target, walk, PreOrder(tree)).0.disk.dirs;
    forall x ensures target + x in dirs <==> x == [] || x in Entered(PreOrder(tree), []) {
      assert target <= target + x && target + [] == target;
      assert target[..|target|] == target;
      forall d | target + d == target + x ensures d == x {
        assert d == (target + d)[|target|..] == x;
      }
    }
    EveryDirEnteredIff(tree);
    forall x | x in Dirs(tree, []) ensures x != [] {
      BelowPrefix(tree, [], x);
    }
  }
}
