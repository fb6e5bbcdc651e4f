// What a server reports of a path: whether it exists, what it is, and where a virtual link points.

module Attributes {
  import opened Basics
  import opened Servers
  import opened Storages
  import opened TreeWalks
  import opened VirtualNames

  datatype Kind = Regular | Directory | Linked | Unset

  /** What `lstat` says of a regular file: its size, and the second of its last write. */
  datatype Stat = Stat(size: nat, mtime: int)

  /** `marked` says that the symbolic link bits are set in the mode. */
  datatype Attr = Attr(kind: Kind, marked: bool, stat: Option<Stat>, linkPath: Data)

  function StatFile(t: Tier, p: Path): Option<Stat> {
    if p in t then Some(Stat(|t[p].data|, t[p].mtime)) else None
  }

  /** `std::getline`: the bytes before the first newline. */
  function FirstLine(d: Data): (r: Data)
    ensures '\n' !in r && r <= d && (r < d ==> d[|r|] == '\n')
  {
    if d == [] || d[0] == '\n' then [] else [d[0]] + FirstLine(d[1..])
  }

  /** `GetFileStat`; None if the path is on neither tier. */
  function FileStat(local: Store, secondary: Store, p: Path): Option<Attr> {
    if !local.Has(p) && !secondary.Has(p) then None else
      var t := if local.Has(p) then local else secondary;
      var tpath := StoragePath(t.root, p);
      var kind := if p in t.files then Regular else if p in t.links then Linked else Directory;
      var line := if p in t.files && (IsVirtualSymlink(tpath) || IsVirtualLink(tpath)) then FirstLine(t.files[p].data) else "";
      Some(Attr(kind, kind.Linked? || (IsVirtualSymlink(tpath) && line != ""), StatFile(t.files, p), line))
  }

  /** `readlink` into a buffer of this size: it does not take an empty one, and it cuts what does not fit. */
  function Readlink(link: string, size: int): Option<string> {
    if size <= 0 then None else Some(if |link| <= size then link else link[..size])
  }

  /** `ReadLink`: what a real link says, without the storage root. The last byte of the buffer stays zero. */
  function ReadRealLink(local: Store, secondary: Store, p: Path, size: nat): Option<string> {
    var t := if local.Has(p) then local else secondary;
    if p !in t.links then None else
      var said := Readlink(t.links[p], size - 1);
      if said.Some? then Some(RemoveStoragePath(local.root, secondary.root, said.value)) else None
  }

  // ----- what the attributes say -----

  /** On the two tiers together the name is at most one thing: a file, a directory or a real link. */
  predicate OneThing(local: Store, secondary: Store, p: Path) {
    var file, dir := p in local.files || p in secondary.files, p in local.dirs || p in secondary.dirs;
    var link := p in local.links || p in secondary.links;
    !(file && dir) && !(file && link) && !(dir && link)
  }

  /** The file that is seen: the local one if there is one. */
  function FileSeen(local: Tier, secondary: Tier, p: Path): Option<File> {
    if p in local then Some(local[p]) else if p in secondary then Some(secondary[p]) else None
  }

  /** The attributes are those of a file exactly if there is one, of a directory exactly if there is one, and
      of a real link exactly if there is one; a file's are its size and the second of its last write. */
  predicate Tells(attr: Option<Attr>, local: Store, secondary: Store, p: Path) {
    var seen := FileSeen(local.files, secondary.files, p);
    && (attr.None? <==> seen.None? && p !in local.dirs + secondary.dirs && p !in local.links.Keys + secondary.links.Keys)
    && (attr.Some? ==>
         && !attr.value.kind.Unset?
         && (attr.value.kind.Directory? <==> p in local.dirs + secondary.dirs)
         && (attr.value.kind.Linked? <==> p in local.links.Keys + secondary.links.Keys)
         && (attr.value.kind.Regular? <==> seen.Some?)
         && attr.value.stat == (if seen.Some? then Some(Stat(|seen.value.data|, seen.value.mtime)) else None)
         && (seen.None? ==> attr.value.linkPath == "" && (attr.value.marked <==> attr.value.kind.Linked?)))
  }

  lemma FileStatTells(local: Store, secondary: Store, p: Path)
    requires OneThing(local, secondary, p)
    ensures Tells(FileStat(local, secondary, p), local, secondary, p)
  {
  }

  // ----- the storage root does not matter -----

  lemma CrossingDiffers(a: string, b: string, e: string, i: nat)
    requires '/' !in e && b != "" && b[0] == '/' && i < |a| < i + |e| <= |a + b|
    ensures (a + b)[i..i + |e|] != e
  {
    assert (a + b)[i..i + |e|][|a| - i] == b[0];
  }

  /** A string without slashes does not occur across the boundary before a slash. */
  lemma NoOccurrenceAcross(a: string, b: string, e: string, i: nat)
    requires '/' !in e && (b == "" || b[0] == '/') && OccursAt(a + b, e, i)
    ensures OccursAt(a, e, i) || (i >= |a| && OccursAt(b, e, i - |a|))
  {
    var s := a + b;
    if i + |e| <= |a| {
      assert a[i..i + |e|] == s[i..i + |e|];
    } else if i >= |a| {
      assert b[i - |a|..i - |a| + |e|] == s[i..i + |e|];
    } else {
      CrossingDiffers(a, b, e, i);
    }
  }

  lemma ContainsIff(a: string, b: string, e: string)
    requires '/' !in e && (b == "" || b[0] == '/')
    ensures Contains(a + b, e) <==> Contains(a, e) || Contains(b, e)
  {
    if i :| 0 <= i <= |a + b| && OccursAt(a + b, e, i) {
      NoOccurrenceAcross(a, b, e, i);
    }
    if i :| 0 <= i <= |a| && OccursAt(a, e, i) {
      OccursInPrefix(a, b, e, i);
    }
    if i :| 0 <= i <= |b| && OccursAt(b, e, i) {
      assert (a + b)[|a| + i..|a| + i + |e|] == b[i..i + |e|];
      assert OccursAt(a + b, e, |a| + i);
    }
  }

  lemma ExtensionsAreSlashFree()
    ensures '/' !in SYMLINK_EXT && '/' !in LINK_EXT
  {
    assert '/' !in SYMLINK_TAG && '/' !in LINK_TAG;
  }

  /** The recognisers look at the storage path of a file; for a storage root that contains neither extension
      that makes no difference. */
  lemma RootDoesNotMatter(root: string, p: Path)
    requires p != "" && p[0] == '/'
    ensures IsVirtualSymlink(StoragePath(root, p)) <==> IsVirtualSymlink(root) || IsVirtualSymlink(p)
    ensures IsVirtualLink(StoragePath(root, p)) <==> IsVirtualLink(root) || IsVirtualLink(p)
  {
    ExtensionsAreSlashFree();
    assert StoragePath(root, p) == root + p;
    ContainsIff(root, p, SYMLINK_EXT);
    ContainsIff(root, p, LINK_EXT);
  }

  /** A real link to a directory is read back without its leading slash; a buffer that does not hold the whole
      storage path, its root included, cuts the end off. */
  lemma RealLinkLosesSlash(local: Store, secondary: Store, dir: Path, link: Path, size: nat)
    requires dir != "" && dir[0] == '/' && link in local.links && local.links[link] == StoragePath(local.root, dir)
    requires size > |local.root| + 1
    ensures ReadRealLink(local, secondary, link, size) ==
      Some(if size > |local.root| + |dir| then dir[1..] else dir[1..size - 1 - |local.root|])
  {
    var root := local.root;
    assert StoragePath(root, dir) == root + dir;
    if size > |root| + |dir| {
      StartsWithRoot(root, dir);
    } else {
      var n := size - 1 - |root|;
      assert (root + dir)[..|root| + n] == root + dir[..n] == StoragePath(root, dir[..n]);
      StartsWithRoot(root, dir[..n]);
    }
  }

  /** So is a link that only the secondary tier has, if its storage path does not contain the local root. Where
      no tier has a real link there is nothing to read. */
  lemma SecondaryLinkLosesSlash(local: Store, secondary: Store, dir: Path, link: Path, size: nat)
    requires dir != "" && dir[0] == '/' && size > |secondary.root| + |dir|
    requires !Contains(StoragePath(secondary.root, dir), StoragePath(local.root, ""))
    ensures !local.Has(link) && link in secondary.links && secondary.links[link] == StoragePath(secondary.root, dir) ==>
      ReadRealLink(local, secondary, link, size) == Some(dir[1..])
    ensures link !in local.links && (local.Has(link) || link !in secondary.links) ==>
      ReadRealLink(local, secondary, link, size) == None
  {
    StartsWithRoot(secondary.root, dir);
    assert StoragePath(secondary.root, dir) == secondary.root + dir;
  }

  lemma ContainsInEnd(a: string, b: string, e: string)
    requires Contains(b, e)
    ensures Contains(a + b, e)
  {
    var i :| 0 <= i <= |b| && OccursAt(b, e, i);
    assert (a + b)[|a| + i..|a| + i + |e|] == b[i..i + |e|];
    assert OccursAt(a + b, e, |a| + i);
  }

  lemma EntryIsRecognised(root: string, p: Path)
    ensures IsVirtualSymlink(p) ==> IsVirtualSymlink(StoragePath(root, p))
    ensures IsVirtualLink(p) ==> IsVirtualLink(StoragePath(root, p))
  {
    var front := if p != "" && p[0] == '/' then root else root + "/";
    assert StoragePath(root, p) == front + p;
    if IsVirtualSymlink(p) {
      ContainsInEnd(front, p, SYMLINK_EXT);
    }
    if IsVirtualLink(p) {
      ContainsInEnd(front, p, LINK_EXT);
    }
  }

  /** The attributes of an entry are its first line, and for a symlink entry the mark of a link. */
  lemma EntryTells(local: Store, secondary: Store, p: Path)
    requires OneThing(local, secondary, p) && (IsVirtualSymlink(p) || IsVirtualLink(p))
    requires FileSeen(local.files, secondary.files, p).Some?
    ensures var a := FileStat(local, secondary, p);
      a.Some? && a.value.linkPath == FirstLine(FileSeen(local.files, secondary.files, p).value.data) &&
      (IsVirtualSymlink(p) ==> (a.value.marked <==> a.value.linkPath != ""))
  {
    EntryIsRecognised(local.root, p);
    EntryIsRecognised(secondary.root, p);
  }
}
