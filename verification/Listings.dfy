// Directory listings: every server reads its local tier and then the secondary one, the client reads every
// server, and the first source of a name wins.

module Listings {
  import opened Basics
  import opened Servers
  import opened Clusters
  import opened TreeWalks
  import opened VirtualNames

  /** What `readdir` yields: a name, an inode and a `DT_` kind. */
  datatype Dirent = Dirent(name: string, ino: nat, kind: nat)

  datatype FileStat = FileStat(ino: nat, mode: nat)

  type FileStats = map<string, FileStat>

  datatype DirType = DirAll | DirLocal | DirSecondary

  /** What `readdir` yields from the offset asked for to the end, and whether `closedir` then succeeds. */
  datatype Stream = Stream(entries: seq<Dirent>, closes: bool)

  /** None if `opendir` fails. */
  type Dir = Option<Stream>

  /** The entries of one server's local and secondary directory. */
  datatype Dirs = Dirs(local: Dir, secondary: Dir)

  /** An entry as it is shown. */
  datatype Item = Item(name: string, stat: FileStat)

  /** Bit `k` of a number, counted from the least significant one. */
  function Bit(n: nat, k: nat): nat {
    if k == 0 then n % 2 else Bit(n / 2, k - 1)
  }

  /** `kind | DT_LNK`, where `DT_LNK` is 10: bits 1 and 3. */
  function OrLink(kind: nat): nat {
    kind + (if Bit(kind, 1) == 0 then 2 else 0) + (if Bit(kind, 3) == 0 then 8 else 0)
  }

  function Show(e: Dirent): Item {
    Item(RemoveVirtualExt(e.name), FileStat(e.ino, (if IsVirtualSymlink(e.name) then OrLink(e.kind) else e.kind) * 0x1000))
  }

  /** The listing after some more entries: a name that is already there stays. */
  function Merge(stats: FileStats, items: seq<Item>): FileStats {
    if items == [] then stats else
      var before, item := Merge(stats, items[..|items| - 1]), items[|items| - 1];
      if item.name in before then before else before[item.name := item.stat]
  }

  /** The attributes of the first item of a name. */
  function First(items: seq<Item>, name: string): Option<FileStat> {
    if items == [] then None
    else if items[0].name == name then Some(items[0].stat)
    else First(items[1..], name)
  }

  predicate Succeeds(dir: Dir) {
    dir.Some? && dir.value.closes
  }

  /** A stream that does not close empties the whole listing, what other directories gave included. */
  predicate Clears(dir: Dir) {
    dir.Some? && !dir.value.closes
  }

  function Shown(entries: seq<Dirent>): (r: seq<Item>)
    ensures |r| == |entries| && forall k :: 0 <= k < |r| ==> r[k] == Show(entries[k])
  {
    seq(|entries|, k requires 0 <= k < |entries| => Show(entries[k]))
  }

  function ItemsOf(dir: Dir): seq<Item> {
    if Succeeds(dir) then Shown(dir.value.entries) else []
  }

  function ServerItems(d: Dirs, kind: DirType): seq<Item> {
    (if kind.DirSecondary? || (kind.DirAll? && Clears(d.secondary)) then [] else ItemsOf(d.local))
    + (if kind.DirLocal? then [] else ItemsOf(d.secondary))
  }

  /** All the entries read, in the order in which they are read. */
  function Sources(servers: seq<Dirs>, kind: DirType): seq<Item> {
    if servers == [] then [] else
      Sources(servers[..|servers| - 1], kind) + ServerItems(servers[|servers| - 1], kind)
  }

  // ----- merging -----

  lemma MergeNext(stats: FileStats, items: seq<Item>, k: nat)
    requires k < |items|
    ensures var before, item := Merge(stats, items[..k]), items[k];
      Merge(stats, items[..k + 1]) == if item.name in before then before else before[item.name := item.stat]
  {
    assert items[..k + 1][..k] == items[..k];
  }

  lemma {:induction false} MergeConcat(stats: FileStats, a: seq<Item>, b: seq<Item>)
    ensures Merge(stats, a + b) == Merge(Merge(stats, a), b)
    decreases |b|
  {
    if b == [] {
      assert a + b == a;
    } else {
      var front := b[..|b| - 1];
      assert (a + b)[..|a + b| - 1] == a + front;
      MergeConcat(stats, a, front);
    }
  }

  lemma {:induction false} FirstConcat(a: seq<Item>, b: seq<Item>, name: string)
    ensures First(a + b, name) == if First(a, name).Some? then First(a, name) else First(b, name)
    decreases |a|
  {
    if a == [] {
      assert a + b == b;
    } else {
      assert (a + b)[1..] == a[1..] + b;
      FirstConcat(a[1..], b, name);
    }
  }

  /** Merging keeps what is there and adds, for a new name, its first entry. */
  lemma {:induction false} MergeIsFirst(stats: FileStats, items: seq<Item>, name: string)
    ensures Lookup(Merge(stats, items), name) == if name in stats then Some(stats[name]) else First(items, name)
    decreases |items|
  {
    if items != [] {
      var front, last := items[..|items| - 1], items[|items| - 1];
      MergeIsFirst(stats, front, name);
      assert items == front + [last];
      FirstConcat(front, [last], name);
      assert [last][1..] == [];
    }
  }

  lemma InsertIsMerge(stats: FileStats, items: seq<Item>)
    ensures Merge(map[], items) + stats == Merge(stats, items)
  {
  }

  lemma {:induction false} FirstExists(items: seq<Item>, name: string)
    ensures First(items, name).Some? <==> exists k :: 0 <= k < |items| && items[k].name == name
    decreases |items|
  {
    if items != [] {
      FirstExists(items[1..], name);
      if items[0].name != name && First(items[1..], name).Some? {
        var k :| 0 <= k < |items[1..]| && items[1..][k].name == name;
        assert items[k + 1].name == name;
      }
      forall k | 0 < k < |items| && items[k].name == name ensures items[1..][k - 1].name == name {
      }
    }
  }

  // ----- the servers and the client -----

  method ReadDirInternal(dir: Dir, fileStats: FileStats) returns (ok: bool, r: FileStats)
    ensures ok <==> Succeeds(dir)
    ensures r == if Clears(dir) then map[] else Merge(fileStats, ItemsOf(dir))
  {
    r := fileStats;
    if dir.None? {
      return false, r;
    }
    ghost var items := Shown(dir.value.entries);
    for k := 0 to |dir.value.entries|
      invariant r == Merge(fileStats, items[..k])
    {
      MergeNext(fileStats, items, k);
      var item := ShowEntry(dir.value.entries[k]);
      if item.name !in r {
        r := r[item.name := item.stat];
      }
    }
    assert items[..|items|] == items;
    ok := dir.value.closes;
    if !ok {
      r := map[];
    }
  }

  /** The part of the loop that turns an entry into what is shown. */
  method ShowEntry(e: Dirent) returns (item: Item)
    ensures item == Show(e)
  {
    var name, kind := e.name, e.kind;
    if IsVirtualSymlink(name) {
      name, kind := RemoveVirtualExt(name), OrLink(kind);
    } else if IsVirtualLink(name) {
      name := RemoveVirtualExt(name);
    }
    item := Item(name, FileStat(e.ino, kind * 0x1000));
  }

  /** A server's `ReadDir`: the error is that of the last directory read. */
  method ReadDir(dirs: Dirs, kind: DirType) returns (ok: bool, stats: FileStats)
    ensures stats == Merge(map[], ServerItems(dirs, kind))
    ensures ok <==> Succeeds(if kind.DirLocal? then dirs.local else dirs.secondary)
  {
    ok, stats := true, map[];
    if kind.DirAll? || kind.DirLocal? {
      ok, stats := ReadDirInternal(dirs.local, stats);
      assert stats == Merge(map[], ItemsOf(dirs.local));
    }
    ghost var before := stats;
    if kind.DirAll? || kind.DirSecondary? {
      ok, stats := ReadDirInternal(dirs.secondary, stats);
      assert stats == if Clears(dirs.secondary) then map[] else Merge(before, ItemsOf(dirs.secondary));
    }
    MergedItems(dirs, kind);
  }

  lemma ServerItemsAre(d: Dirs, kind: DirType)
    ensures ServerItems(d, kind) == match kind
      case DirLocal => ItemsOf(d.local)
      case DirSecondary => ItemsOf(d.secondary)
      case DirAll => if Clears(d.secondary) then [] else ItemsOf(d.local) + ItemsOf(d.secondary)
  {
    var local, secondary := ItemsOf(d.local), ItemsOf(d.secondary);
    assert local + [] == local && [] + secondary == secondary;
  }

  lemma MergedItems(d: Dirs, kind: DirType)
    ensures var local, secondary := ItemsOf(d.local), ItemsOf(d.secondary);
      Merge(map[], ServerItems(d, kind)) == match kind
        case DirLocal => Merge(map[], local)
        case DirSecondary => Merge(map[], secondary)
        case DirAll => if Clears(d.secondary) then map[] else Merge(Merge(map[], local), secondary)
  {
    ServerItemsAre(d, kind);
    if kind.DirAll? && !Clears(d.secondary) {
      MergeConcat(map[], ItemsOf(d.local), ItemsOf(d.secondary));
    }
  }

  /** The client's `ReadDir`: `insert` keeps the names it already has. */
  method ReadDirOfAll(servers: seq<Dirs>, kind: DirType) returns (ok: bool, stats: FileStats)
    requires servers != []
    ensures stats == Merge(map[], Sources(servers, kind))
    ensures var last := servers[|servers| - 1];
      ok <==> Succeeds(if kind.DirLocal? then last.local else last.secondary)
  {
    ok, stats := false, map[];
    for k := 0 to |servers|
      invariant stats == Merge(map[], Sources(servers[..k], kind))
      invariant k > 0 ==> (ok <==> Succeeds(if kind.DirLocal? then servers[k - 1].local else servers[k - 1].secondary))
    {
      var fileStats;
      ok, fileStats := ReadDir(servers[k], kind);
      SourcesNext(servers, kind, k);
      InsertIsMerge(stats, ServerItems(servers[k], kind));
      MergeConcat(map[], Sources(servers[..k], kind), ServerItems(servers[k], kind));
      stats := fileStats + stats;
    }
    assert servers[..|servers|] == servers;
  }

  lemma SourcesNext(servers: seq<Dirs>, kind: DirType, k: nat)
    requires k < |servers|
    ensures Sources(servers[..k + 1], kind) == Sources(servers[..k], kind) + ServerItems(servers[k], kind)
  {
    assert servers[..k + 1][..k] == servers[..k];
  }

  // ----- what a listing shows -----

  predicate Has(dir: Dir, name: string, e: Dirent) {
    Succeeds(dir) && e in dir.value.entries && RemoveVirtualExt(e.name) == name
  }

  lemma InItems(dir: Dir, name: string)
    ensures (exists k :: 0 <= k < |ItemsOf(dir)| && ItemsOf(dir)[k].name == name) <==> exists e :: Has(dir, name, e)
  {
    var items := ItemsOf(dir);
    if k :| 0 <= k < |items| && items[k].name == name {
      assert Has(dir, name, dir.value.entries[k]);
    }
    if e :| Has(dir, name, e) {
      var k :| 0 <= k < |dir.value.entries| && dir.value.entries[k] == e;
      assert items[k].name == name;
    }
  }

  ghost predicate ServerHas(d: Dirs, name: string) {
    (!Clears(d.secondary) && exists e :: Has(d.local, name, e)) || exists e :: Has(d.secondary, name, e)
  }

  lemma InServerItems(d: Dirs, name: string)
    ensures First(ServerItems(d, DirAll), name).Some? <==> ServerHas(d, name)
  {
    FirstConcat(ItemsOf(d.local), ItemsOf(d.secondary), name);
    FirstExists(ItemsOf(d.local), name);
    FirstExists(ItemsOf(d.secondary), name);
    InItems(d.local, name);
    assert [] + ItemsOf(d.secondary) == ItemsOf(d.secondary);
    InItems(d.secondary, name);
  }

  ghost predicate SomeServerHas(servers: seq<Dirs>, name: string) {
    exists i :: 0 <= i < |servers| && ServerHas(servers[i], name)
  }

  lemma LastServerHas(front: seq<Dirs>, d: Dirs, name: string)
    ensures SomeServerHas(front + [d], name) <==> SomeServerHas(front, name) || ServerHas(d, name)
  {
    var servers := front + [d];
    assert servers[|front|] == d;
    if i :| 0 <= i < |front| && ServerHas(front[i], name) {
      assert servers[i] == front[i];
    }
  }

  lemma {:induction false} InSources(servers: seq<Dirs>, name: string)
    ensures First(Sources(servers, DirAll), name).Some? <==> SomeServerHas(servers, name)
  {
    if servers != [] {
      var front, d := servers[..|servers| - 1], servers[|servers| - 1];
      InSources(front, name);
      FirstConcat(Sources(front, DirAll), ServerItems(d, DirAll), name);
      InServerItems(d, name);
      LastServerHas(front, d, name);
      assert servers == front + [d];
    }
  }

  /** The listing has a name exactly when some server's directory, on either tier, has an entry that decodes
      to it, and then with the attributes of the first such entry. A stream that does not close has none, and
      takes the entries of the tier read before it along. */
  lemma ListingHas(servers: seq<Dirs>, name: string)
    ensures name in Merge(map[], Sources(servers, DirAll)) <==> SomeServerHas(servers, name)
    ensures Lookup(Merge(map[], Sources(servers, DirAll)), name) == First(Sources(servers, DirAll), name)
  {
    MergeIsFirst(map[], Sources(servers, DirAll), name);
    InSources(servers, name);
  }

  /** No entry of the directory decodes to the name. */
  ghost predicate Lacks(dir: Dir, name: string) {
    Succeeds(dir) ==> forall e :: e in dir.value.entries ==> RemoveVirtualExt(e.name) != name
  }

  /** The mode has the kind's bits above the low twelve, and the two link bits, 1 and 3 of the kind, as well if
      the entry is a symlink entry. */
  ghost predicate ShowsKind(stat: FileStat, e: Dirent) {
    var m := stat.mode / 0x1000;
    && stat.mode % 0x1000 == 0 && stat.ino == e.ino
    && if IsVirtualSymlink(e.name) then HasLinkBits(m, e.kind) else m == e.kind
  }

  ghost predicate HasLinkBits(m: nat, kind: nat) {
    forall k :: Bit(m, k) == if k == 1 || k == 3 then 1 else Bit(kind, k)
  }

  lemma OrLinkLaw(kind: nat)
    ensures HasLinkBits(OrLink(kind), kind)
  {
    var m := OrLink(kind);
    var h1 := kind / 2;
    var h2 := h1 / 2;
    var h3 := h2 / 2;
    var up := if h3 % 2 == 0 then 1 else 0;
    assert Bit(kind, 1) == h1 % 2 && Bit(kind, 3) == Bit(h1, 2) == Bit(h2, 1) == h3 % 2;
    assert m / 2 == 2 * h2 + 1 + 4 * up;
    assert m / 2 / 2 == h2 + 2 * up;
    assert m / 2 / 2 / 2 == h3 + up;
    assert m / 2 / 2 / 2 / 2 == h3 / 2;
    forall k ensures Bit(m, k) == if k == 1 || k == 3 then 1 else Bit(kind, k) {
      BitsFrom(m, k);
      BitsFrom(kind, k);
    }
  }

  /** The four low bits, and the others. */
  lemma BitsFrom(n: nat, k: nat)
    ensures var n1 := n / 2; var n2 := n1 / 2; var n3 := n2 / 2;
      Bit(n, k) == if k == 0 then n % 2 else if k == 1 then n1 % 2 else if k == 2 then n2 % 2 else if k == 3 then n3 % 2
                   else Bit(n3 / 2, k - 4)
  {
    var n1 := n / 2;
    var n2 := n1 / 2;
    if k >= 1 {
      assert Bit(n, k) == Bit(n1, k - 1);
    }
    if k >= 2 {
      assert Bit(n1, k - 1) == Bit(n2, k - 2);
    }
    if k >= 3 {
      assert Bit(n2, k - 2) == Bit(n2 / 2, k - 3);
    }
  }

  lemma ShowLaw(e: Dirent)
    ensures Show(e).name == RemoveVirtualExt(e.name) && ShowsKind(Show(e).stat, e)
  {
    OrLinkLaw(e.kind);
    var m: nat := if IsVirtualSymlink(e.name) then OrLink(e.kind) else e.kind;
    assert Show(e).stat.mode / 0x1000 == m && Show(e).stat.mode % 0x1000 == 0;
  }

  lemma {:induction false} FirstAt(items: seq<Item>, name: string, k: nat)
    requires k < |items| && items[k].name == name && forall j :: 0 <= j < k ==> items[j].name != name
    ensures First(items, name) == Some(items[k].stat)
    decreases k
  {
    if k > 0 {
      FirstAt(items[1..], name, k - 1);
    }
  }

  lemma LacksFirst(dir: Dir, name: string)
    ensures First(ItemsOf(dir), name).None? <==> Lacks(dir, name)
  {
    FirstExists(ItemsOf(dir), name);
    InItems(dir, name);
    if !Lacks(dir, name) {
      var e :| e in dir.value.entries && RemoveVirtualExt(e.name) == name;
      assert Has(dir, name, e);
    }
  }

  /** The first entry of the name in a directory that closes is the one whose attributes the directory gives. */
  lemma FirstInDir(dir: Dir, name: string, k: nat)
    requires Succeeds(dir) && k < |dir.value.entries| && RemoveVirtualExt(dir.value.entries[k].name) == name
    requires forall j :: 0 <= j < k ==> RemoveVirtualExt(dir.value.entries[j].name) != name
    ensures First(ItemsOf(dir), name).Some? && ShowsKind(First(ItemsOf(dir), name).value, dir.value.entries[k])
  {
    FirstAt(ItemsOf(dir), name, k);
    ShowLaw(dir.value.entries[k]);
  }

  lemma FirstOfLast(front: seq<Dirs>, d: Dirs, name: string)
    ensures First(Sources(front + [d], DirAll), name) ==
      if SomeServerHas(front, name) then First(Sources(front, DirAll), name) else First(ServerItems(d, DirAll), name)
  {
    assert (front + [d])[..|front|] == front;
    FirstConcat(Sources(front, DirAll), ServerItems(d, DirAll), name);
    InSources(front, name);
  }

  lemma {:induction false} FirstOnServer(servers: seq<Dirs>, name: string, i: nat)
    requires i < |servers| && ServerHas(servers[i], name) && forall j :: 0 <= j < i ==> !ServerHas(servers[j], name)
    ensures First(Sources(servers, DirAll), name) == First(ServerItems(servers[i], DirAll), name)
    decreases |servers|
  {
    var n := |servers| - 1;
    var front := servers[..n];
    assert servers == front + [servers[n]];
    FirstOfLast(front, servers[n], name);
    if i < n {
      assert ServerHas(front[i], name);
      FirstOnServer(front, name, i);
    }
  }

  /** On a server, the first entry of the name in the local directory, or if that has none in the secondary one. */
  ghost predicate FoundFirst(d: Dirs, name: string, local: bool, k: nat, e: Dirent) {
    var dir := if local then d.local else d.secondary;
    && (if local then !Clears(d.secondary) else Lacks(d.local, name))
    && Succeeds(dir) && k < |dir.value.entries| && dir.value.entries[k] == e && RemoveVirtualExt(e.name) == name
    && forall j :: 0 <= j < k ==> RemoveVirtualExt(dir.value.entries[j].name) != name
  }

  lemma FoundFirstShows(d: Dirs, name: string, local: bool, k: nat, e: Dirent)
    requires FoundFirst(d, name, local, k, e)
    ensures ServerHas(d, name)
    ensures First(ServerItems(d, DirAll), name).Some? && ShowsKind(First(ServerItems(d, DirAll), name).value, e)
  {
    FirstInDir(if local then d.local else d.secondary, name, k);
    assert Has(if local then d.local else d.secondary, name, e);
    LacksFirst(d.local, name);
    FirstConcat(ItemsOf(d.local), ItemsOf(d.secondary), name);
    ServerItemsAre(d, DirAll);
  }

  lemma ListedFrom(servers: seq<Dirs>, name: string, i: nat)
    requires i < |servers| && ServerHas(servers[i], name) && forall j :: 0 <= j < i ==> !ServerHas(servers[j], name)
    ensures Lookup(Merge(map[], Sources(servers, DirAll)), name) == First(ServerItems(servers[i], DirAll), name)
  {
    FirstOnServer(servers, name, i);
    ListingHas(servers, name);
  }

  /** Where a listed name gets its attributes from: the first server that has it, there the local directory
      before the secondary one, and in a directory the first entry that decodes to it. */
  lemma ListedAttributes(servers: seq<Dirs>, name: string, i: nat, local: bool, k: nat, e: Dirent)
    requires i < |servers| && forall j :: 0 <= j < i ==> !ServerHas(servers[j], name)
    requires FoundFirst(servers[i], name, local, k, e)
    ensures var stats := Merge(map[], Sources(servers, DirAll)); name in stats && ShowsKind(stats[name], e)
  {
    FoundFirstShows(servers[i], name, local, k, e);
    ListedFrom(servers, name, i);
  }

  /** Listing the servers in another order shows the same names. */
  lemma OrderDoesNotMatter(servers: seq<Dirs>, reordered: seq<Dirs>)
    requires multiset(servers) == multiset(reordered)
    ensures Merge(map[], Sources(servers, DirAll)).Keys == Merge(map[], Sources(reordered, DirAll)).Keys
  {
    assert forall d :: d in servers <==> d in multiset(servers);
    assert forall d :: d in reordered <==> d in multiset(reordered);
    forall name
      ensures name in Merge(map[], Sources(servers, DirAll)) <==> name in Merge(map[], Sources(reordered, DirAll))
    {
      ListingHas(servers, name);
      ListingHas(reordered, name);
      SameMembers(servers, reordered, name);
      SameMembers(reordered, servers, name);
    }
  }

  lemma SameMembers(a: seq<Dirs>, b: seq<Dirs>, name: string)
    requires forall d :: d in a ==> d in b
    ensures SomeServerHas(a, name) ==> SomeServerHas(b, name)
  {
    if i :| 0 <= i < |a| && ServerHas(a[i], name) {
      assert a[i] in b;
      var j :| 0 <= j < |b| && b[j] == a[i];
      assert ServerHas(b[j], name);
    }
  }

  // ----- listings and the view -----

  predicate PlainName(name: string) {
    name != "" && !IsDot(name) && '/' !in name
  }

  /** `name` is a file or a directory in directory `d` of a tier. */
  predicate Child(tier: Tier, dirs: set<Path>, d: Path, name: string) {
    PlainName(name) && (d + "/" + name in tier || d + "/" + name in dirs)
  }

  predicate Named(dir: Dir, raw: string) {
    Succeeds(dir) && exists e :: e in dir.value.entries && e.name == raw
  }

  /** `dir` is what reading directory `d` of a tier yields. */
  ghost predicate Reads(dir: Dir, tier: Tier, dirs: set<Path>, d: Path) {
    && (dir.Some? <==> d in dirs) && !Clears(dir)
    && (forall raw :: Child(tier, dirs, d, raw) ==> d in dirs)
    && (forall raw :: Named(dir, raw) <==> d in dirs && (IsDot(raw) || Child(tier, dirs, d, raw)))
  }

  ghost predicate ServerReads(c: Cluster, local: seq<set<Path>>, secondary: set<Path>, servers: seq<Dirs>, d: Path) {
    && |servers| == |c.servers| == |local|
    && forall i :: 0 <= i < |servers| ==>
         Reads(servers[i].local, c.servers[i].local, local[i], d) && Reads(servers[i].secondary, c.secondary, secondary, d)
  }

  ghost predicate IsDirectory(local: seq<set<Path>>, secondary: set<Path>, p: Path) {
    p in secondary || exists i :: 0 <= i < |local| && p in local[i]
  }

  /** Directory `d` contains `raw`: a file of the view, a directory of some tier, or a dot name. */
  ghost predicate Visible(c: Cluster, local: seq<set<Path>>, secondary: set<Path>, d: Path, raw: string)
    requires Routed(c)
  {
    || (IsDot(raw) && IsDirectory(local, secondary, d))
    || (PlainName(raw) && (View(c, d + "/" + raw).Some? || IsDirectory(local, secondary, d + "/" + raw)))
  }

  ghost predicate ServerNamed(d: Dirs, raw: string) {
    (!Clears(d.secondary) && Named(d.local, raw)) || Named(d.secondary, raw)
  }

  lemma ReadsName(dir: Dir, tier: Tier, dirs: set<Path>, d: Path, raw: string)
    requires Reads(dir, tier, dirs, d)
    ensures Named(dir, raw) <==> (IsDot(raw) && d in dirs) || Child(tier, dirs, d, raw)
  {
  }

  /** Between them the servers read exactly the names that are visible. */
  lemma NamedIffVisible(c: Cluster, local: seq<set<Path>>, secondary: set<Path>, servers: seq<Dirs>, d: Path, raw: string)
    requires Inv(c) && ServerReads(c, local, secondary, servers, d)
    ensures (exists i :: 0 <= i < |servers| && ServerNamed(servers[i], raw)) <==> Visible(c, local, secondary, d, raw)
  {
    forall i | 0 <= i < |servers|
      ensures Named(servers[i].local, raw) <==> (IsDot(raw) && d in local[i]) || Child(c.servers[i].local, local[i], d, raw)
      ensures Named(servers[i].secondary, raw) <==> (IsDot(raw) && d in secondary) || Child(c.secondary, secondary, d, raw)
    {
      ReadsName(servers[i].local, c.servers[i].local, local[i], d, raw);
      ReadsName(servers[i].secondary, c.secondary, secondary, d, raw);
    }
    if i :| 0 <= i < |servers| && ServerNamed(servers[i], raw) {
      assert Owned(c, i);
    }
    if Visible(c, local, secondary, d, raw) {
      var o, q := c.owner(d + "/" + raw), if IsDot(raw) then d else d + "/" + raw;
      if i :| 0 <= i < |local| && q in local[i] {
        assert ServerNamed(servers[i], raw);
      } else {
        assert ServerNamed(servers[o], raw);
      }
    }
  }

  /** The client's listing of `d` shows a name exactly when something visible in `d` decodes to it. */
  lemma ListingAgreesWithView(c: Cluster, local: seq<set<Path>>, secondary: set<Path>, servers: seq<Dirs>, d: Path,
                              name: string)
    requires Inv(c) && ServerReads(c, local, secondary, servers, d)
    ensures name in Merge(map[], Sources(servers, DirAll)) <==>
      exists raw :: RemoveVirtualExt(raw) == name && Visible(c, local, secondary, d, raw)
  {
    ListingHas(servers, name);
    if i :| 0 <= i < |servers| && ServerHas(servers[i], name) {
      var raw := NameOf(servers[i], name);
      NamedIffVisible(c, local, secondary, servers, d, raw);
    }
    if raw :| RemoveVirtualExt(raw) == name && Visible(c, local, secondary, d, raw) {
      NamedIffVisible(c, local, secondary, servers, d, raw);
      var i :| 0 <= i < |servers| && ServerNamed(servers[i], raw);
      NamedHas(servers[i], raw);
    }
  }

  lemma NameOf(d: Dirs, name: string) returns (raw: string)
    requires ServerHas(d, name)
    ensures RemoveVirtualExt(raw) == name && ServerNamed(d, raw)
  {
    if e :| Has(d.secondary, name, e) {
      raw := e.name;
    } else {
      var e :| Has(d.local, name, e);
      raw := e.name;
    }
  }

  lemma NamedHas(d: Dirs, raw: string)
    requires ServerNamed(d, raw)
    ensures ServerHas(d, RemoveVirtualExt(raw))
  {
    var dir := if Named(d.secondary, raw) then d.secondary else d.local;
    var e :| e in dir.value.entries && e.name == raw;
    assert Has(dir, RemoveVirtualExt(raw), e);
  }
}
