// The walk of a directory rename. It follows the iterator over a directory tree and appends the name of each
// directory it meets to a running prefix, but never takes one off again. Paths are sequences of names.

module DirectoryWalks {
  import opened TreeWalks

  type Rel = seq<string>

  /** The slash-rooted string of a path. */
  function Join(p: Rel): string {
    if p == [] then "" else "/" + p[0] + Join(p[1..])
  }

  predicate SlashFreeNames(p: Rel) {
    forall k :: 0 <= k < |p| ==> '/' !in p[k]
  }

  /** How many characters come before the first slash. */
  function HeadLength(s: string): nat {
    if s == "" || s[0] == '/' then 0 else 1 + HeadLength(s[1..])
  }

  lemma {:induction false} HeadLengthOf(name: string, rest: string)
    requires '/' !in name && (rest == "" || rest[0] == '/')
    ensures HeadLength(name + rest) == |name|
  {
    if name == "" {
      assert name + rest == rest;
    } else {
      assert (name + rest)[1..] == name[1..] + rest;
      HeadLengthOf(name[1..], rest);
    }
  }

  lemma SameHead(a: string, x: string, b: string, y: string)
    requires a + x == b + y && '/' !in a && '/' !in b
    requires (x == "" || x[0] == '/') && (y == "" || y[0] == '/')
    ensures a == b && x == y
  {
    HeadLengthOf(a, x);
    HeadLengthOf(b, y);
    assert a == (a + x)[..|a|] && b == (b + y)[..|b|];
    assert x == (a + x)[|a|..] && y == (b + y)[|b|..];
  }

  /** Names without slashes can be read back from the string, so nothing is lost by working on names. */
  lemma {:induction false} JoinInjective(p: Rel, q: Rel)
    requires SlashFreeNames(p) && SlashFreeNames(q) && Join(p) == Join(q)
    ensures p == q
    decreases |p|
  {
    if p != [] && q != [] {
      assert Join(p)[1..] == p[0] + Join(p[1..]) && Join(q)[1..] == q[0] + Join(q[1..]);
      SameHead(p[0], Join(p[1..]), q[0], Join(q[1..]));
      JoinInjective(p[1..], q[1..]);
      assert p == [p[0]] + p[1..] && q == [q[0]] + q[1..];
    }
  }

  /** What a recursive iterator yields, parents before their contents. */
  datatype Entry = FileNamed(name: string) | DirNamed(name: string)

  function PreOrder(tree: Tree): seq<Entry> {
    match tree
    case End => []
    case FileEntry(name, rest) => [FileNamed(name)] + PreOrder(rest)
    case DirEntry(name, sub, rest) => [DirNamed(name)] + (PreOrder(sub) + PreOrder(rest))
  }

  /** The files and the directories really below `prefix`. */
  function Files(tree: Tree, prefix: Rel): set<Rel> {
    match tree
    case End => {}
    case FileEntry(name, rest) => {prefix + [name]} + Files(rest, prefix)
    case DirEntry(name, sub, rest) => Files(sub, prefix + [name]) + Files(rest, prefix)
  }

  function Dirs(tree: Tree, prefix: Rel): set<Rel> {
    match tree
    case End => {}
    case FileEntry(name, rest) => Dirs(rest, prefix)
    case DirEntry(name, sub, rest) => {prefix + [name]} + Dirs(sub, prefix + [name]) + Dirs(rest, prefix)
  }

  /** The tree has a file at this path: the last name is a file in the directory that the others lead to. */
  predicate FileAt(tree: Tree, r: Rel) {
    match tree
    case End => false
    case FileEntry(name, rest) => r == [name] || FileAt(rest, r)
    case DirEntry(name, sub, rest) => (r != [] && r[0] == name && FileAt(sub, r[1..])) || FileAt(rest, r)
  }

  predicate DirAt(tree: Tree, r: Rel) {
    match tree
    case End => false
    case FileEntry(_, rest) => DirAt(rest, r)
    case DirEntry(name, sub, rest) =>
      (r != [] && r[0] == name && (r == [name] || DirAt(sub, r[1..]))) || DirAt(rest, r)
  }

  lemma Below(prefix: Rel, name: string, p: Rel)
    ensures prefix + [name] <= p <==> prefix <= p && |p| > |prefix| && p[|prefix|..][0] == name
    ensures prefix + [name] <= p ==> p[|prefix|..][1..] == p[|prefix + [name]|..]
    ensures p == prefix + [name] <==> prefix <= p && p[|prefix|..] == [name]
  {
    if prefix <= p && |p| > |prefix| {
      assert p == prefix + p[|prefix|..];
    }
    if prefix <= p && p[|prefix|..] == [name] {
      assert p == prefix + p[|prefix|..];
    }
  }

  /** The sets of files and directories are those that a look from the top finds. */
  lemma {:induction false} FilesAre(tree: Tree, prefix: Rel, p: Rel)
    ensures p in Files(tree, prefix) <==> prefix <= p && FileAt(tree, p[|prefix|..])
    ensures p in Dirs(tree, prefix) <==> prefix <= p && DirAt(tree, p[|prefix|..])
    decreases tree
  {
    match tree
    case End =>
    case FileEntry(name, rest) =>
      Below(prefix, name, p);
      FilesAre(rest, prefix, p);
    case DirEntry(name, sub, rest) =>
      Below(prefix, name, p);
      FilesAre(sub, prefix + [name], p);
      FilesAre(rest, prefix, p);
  }

  /** No directory is listed as "." or "..". */
  predicate NoDots(tree: Tree) {
    match tree
    case End => true
    case FileEntry(_, rest) => NoDots(rest)
    case DirEntry(name, sub, rest) => !IsDot(name) && NoDots(sub) && NoDots(rest)
  }

  /** So are the sets of path strings. */
  lemma {:induction false} PathsAre(tree: Tree, prefix: Rel, p: string)
    requires NoDots(tree)
    ensures p in FilePaths(tree, Join(prefix)) <==> exists r :: r in Files(tree, prefix) && p == Join(r)
    ensures p in DirPaths(tree, Join(prefix)) <==> exists r :: r in Dirs(tree, prefix) && p == Join(r)
    decreases tree
  {
    match tree
    case End =>
    case FileEntry(name, rest) =>
      JoinNext(prefix, name);
      PathsAre(rest, prefix, p);
      assert prefix + [name] in Files(tree, prefix);
    case DirEntry(name, sub, rest) =>
      JoinNext(prefix, name);
      PathsAre(sub, prefix + [name], p);
      PathsAre(rest, prefix, p);
      assert prefix + [name] in Dirs(tree, prefix);
  }

  lemma {:induction false} JoinNext(prefix: Rel, name: string)
    ensures Join(prefix + [name]) == Join(prefix) + "/" + name
  {
    if prefix == [] {
      assert [] + [name] == [name] && Join([name][1..]) == "";
    } else {
      assert (prefix + [name])[0] == prefix[0] && (prefix + [name])[1..] == prefix[1..] + [name];
      JoinNext(prefix[1..], name);
    }
  }

  // ----- the duplicated directories, one by one -----

  /** Neither the directory nor one on the way to it has the name of a file. */
  predicate Unblocked(files: set<string>, prefix: Rel, r: Rel) {
    forall k :: 0 < k <= |r| ==> Join(prefix + r[..k]) !in files
  }

  lemma ParentOfJoin(prefix: Rel, name: string)
    requires '/' !in name
    ensures Parent(Join(prefix + [name])) == Join(prefix)
  {
    JoinNext(prefix, name);
    ParentOfChild(Join(prefix), name);
  }

  lemma {:induction false} MadeIsUnblocked(dirs: set<string>, files: set<string>, prefix: Rel, r: Rel)
    requires Rooted(dirs) && dirs !! files && SlashFreeNames(r) && Join(prefix + r) in dirs
    ensures Unblocked(files, prefix, r)
    decreases |r|
  {
    if r != [] {
      var front, name := r[..|r| - 1], r[|r| - 1];
      assert prefix + r == prefix + front + [name];
      ParentOfJoin(prefix + front, name);
      JoinNext(prefix + front, name);
      MadeIsUnblocked(dirs, files, prefix, front);
      forall k | 0 < k <= |r| ensures Join(prefix + r[..k]) !in files {
        if k < |r| {
          assert r[..k] == front[..k];
        } else {
          assert r[..k] == r;
        }
      }
    }
  }

  lemma UnblockedBelow(files: set<string>, prefix: Rel, r: Rel)
    requires r != [] && Unblocked(files, prefix, r)
    ensures Join(prefix + [r[0]]) !in files && Unblocked(files, prefix + [r[0]], r[1..])
  {
    assert r[..1] == [r[0]];
    forall k | 0 < k <= |r[1..]| ensures Join(prefix + [r[0]] + r[1..][..k]) !in files {
      assert prefix + [r[0]] + r[1..][..k] == prefix + r[..k + 1];
    }
  }

  lemma {:induction false} UnblockedIsMade(dirs: set<string>, files: set<string>, tree: Tree, prefix: Rel, r: Rel)
    requires dirs !! files && Join(prefix) in dirs && SlashFree(tree) && NoDots(tree)
    requires DirAt(tree, r) && Unblocked(files, prefix, r)
    ensures Join(prefix + r) in Duplicated(dirs, files, tree, Join(prefix))
    decreases tree
  {
    match tree
    case FileEntry(_, rest) => UnblockedIsMade(dirs, files, rest, prefix, r);
    case DirEntry(name, sub, rest) =>
      var below := Join(prefix) + "/" + name;
      JoinNext(prefix, name);
      ParentOfChild(Join(prefix), name);
      var dirs1 := MkDir(dirs, files, below);
      DuplicatedBounds(dirs1, files, sub, below);
      var dirs2 := Duplicated(dirs1, files, sub, below);
      DuplicatedBounds(dirs2, files, rest, Join(prefix));
      if DirAt(rest, r) {
        UnblockedIsMade(dirs2, files, rest, prefix, r);
      } else {
        UnblockedBelow(files, prefix, r);
        if r != [name] {
          UnblockedIsMade(dirs1, files, sub, prefix + [name], r[1..]);
          assert prefix + [name] + r[1..] == prefix + r;
        }
      }
  }

  /** The duplicating walk leaves a directory of the other tier exactly where no local file has its name or that
      of a directory on the way to it. */
  lemma DuplicatedAt(dirs: set<string>, files: set<string>, tree: Tree, prefix: Rel, r: Rel)
    requires dirs !! files && Rooted(dirs) && Join(prefix) in dirs && SlashFree(tree) && NoDots(tree)
    requires DirAt(tree, r) && SlashFreeNames(r)
    ensures Join(prefix + r) in Duplicated(dirs, files, tree, Join(prefix)) <==> Unblocked(files, prefix, r)
  {
    var made := Duplicated(dirs, files, tree, Join(prefix));
    DuplicatedKeepsRooted(dirs, files, tree, Join(prefix));
    DuplicatedBounds(dirs, files, tree, Join(prefix));
    if Join(prefix + r) in made {
      MadeIsUnblocked(made, files, prefix, r);
    } else if Unblocked(files, prefix, r) {
      UnblockedIsMade(dirs, files, tree, prefix, r);
    }
  }

  /** The names appended to the prefix. */
  function DirNames(entries: seq<Entry>): Rel {
    if entries == [] then []
    else (if entries[0].DirNamed? then [entries[0].name] else []) + DirNames(entries[1..])
  }

  /** The paths at which the walk looks for files, and those it takes for directories. */
  function Looked(entries: seq<Entry>, prefix: Rel): set<Rel> {
    if entries == [] then {}
    else if entries[0].DirNamed? then Looked(entries[1..], prefix + [entries[0].name])
    else {prefix + [entries[0].name]} + Looked(entries[1..], prefix)
  }

  function Entered(entries: seq<Entry>, prefix: Rel): set<Rel> {
    if entries == [] then {}
    else if entries[0].DirNamed? then
      {prefix + [entries[0].name]} + Entered(entries[1..], prefix + [entries[0].name])
    else Entered(entries[1..], prefix)
  }

  lemma {:induction false} DirNamesConcat(a: seq<Entry>, b: seq<Entry>)
    ensures DirNames(a + b) == DirNames(a) + DirNames(b)
    decreases |a|
  {
    if a == [] {
      assert a + b == b;
    } else {
      assert (a + b)[1..] == a[1..] + b;
      DirNamesConcat(a[1..], b);
    }
  }

  lemma {:induction false} WalkConcat(a: seq<Entry>, b: seq<Entry>, prefix: Rel)
    ensures Looked(a + b, prefix) == Looked(a, prefix) + Looked(b, prefix + DirNames(a))
    ensures Entered(a + b, prefix) == Entered(a, prefix) + Entered(b, prefix + DirNames(a))
    decreases |a|
  {
    if a == [] {
      assert a + b == b && prefix + DirNames(a) == prefix;
    } else {
      assert (a + b)[1..] == a[1..] + b;
      var next := if a[0].DirNamed? then prefix + [a[0].name] else prefix;
      assert prefix + DirNames(a) == next + DirNames(a[1..]);
      WalkConcat(a[1..], b, next);
    }
  }

  /** One step of the walk of a tree. */
  lemma WalkFile(name: string, rest: Tree, prefix: Rel)
    ensures var entries := PreOrder(FileEntry(name, rest));
      && Looked(entries, prefix) == {prefix + [name]} + Looked(PreOrder(rest), prefix)
      && Entered(entries, prefix) == Entered(PreOrder(rest), prefix)
      && DirNames(entries) == DirNames(PreOrder(rest))
  {
  }

  lemma WalkDir(name: string, sub: Tree, rest: Tree, prefix: Rel)
    ensures var entries, p := PreOrder(DirEntry(name, sub, rest)), prefix + [name];
      var after := p + DirNames(PreOrder(sub));
      && Looked(entries, prefix) == Looked(PreOrder(sub), p) + Looked(PreOrder(rest), after)
      && Entered(entries, prefix) == {p} + Entered(PreOrder(sub), p) + Entered(PreOrder(rest), after)
      && DirNames(entries) == [name] + (DirNames(PreOrder(sub)) + DirNames(PreOrder(rest)))
  {
    var a, b := PreOrder(sub), PreOrder(rest);
    EnterDir(name, a + b, prefix);
    WalkConcat(a, b, prefix + [name]);
    DirNamesConcat(a, b);
  }

  lemma EnterDir(name: string, inside: seq<Entry>, prefix: Rel)
    ensures var entries, p := [DirNamed(name)] + inside, prefix + [name];
      && Looked(entries, prefix) == Looked(inside, p)
      && Entered(entries, prefix) == {p} + Entered(inside, p)
      && DirNames(entries) == [name] + DirNames(inside)
  {
  }

  // ----- names -----

  function Names(tree: Tree): set<string> {
    match tree
    case End => {}
    case FileEntry(name, rest) => {name} + Names(rest)
    case DirEntry(name, _, rest) => {name} + Names(rest)
  }

  /** No directory has two entries of one name. */
  predicate Distinct(tree: Tree) {
    match tree
    case End => true
    case FileEntry(name, rest) => name !in Names(rest) && Distinct(rest)
    case DirEntry(name, sub, rest) => name !in Names(rest) && Distinct(sub) && Distinct(rest)
  }

  lemma {:induction false} BelowPrefix(tree: Tree, prefix: Rel, r: Rel)
    requires r in Files(tree, prefix) || r in Dirs(tree, prefix)
    ensures |prefix| < |r| && prefix <= r && r[|prefix|] in Names(tree)
  {
    match tree
    case FileEntry(name, rest) =>
      if r != prefix + [name] {
        BelowPrefix(rest, prefix, r);
      }
    case DirEntry(name, sub, rest) =>
      if r in Files(rest, prefix) || r in Dirs(rest, prefix) {
        BelowPrefix(rest, prefix, r);
      } else if r != prefix + [name] {
        BelowPrefix(sub, prefix + [name], r);
      }
  }

  lemma {:induction false} WalkGoesDown(entries: seq<Entry>, prefix: Rel, r: Rel)
    requires r in Looked(entries, prefix) || r in Entered(entries, prefix)
    ensures |prefix| < |r| && prefix <= r
    decreases |entries|
  {
    var next := if entries[0].DirNamed? then prefix + [entries[0].name] else prefix;
    if r != prefix + [entries[0].name] {
      WalkGoesDown(entries[1..], next, r);
    }
  }

  // ----- files -----

  /** Once the walk has left a directory it meets no more files. */
  predicate FilesFirst(tree: Tree) {
    match tree
    case End => true
    case FileEntry(_, rest) => FilesFirst(rest)
    case DirEntry(_, sub, rest) => FilesFirst(sub) && NoFiles(rest)
  }

  predicate NoFiles(tree: Tree) {
    match tree
    case End => true
    case FileEntry(_, _) => false
    case DirEntry(_, sub, rest) => NoFiles(sub) && NoFiles(rest)
  }

  lemma {:induction false} NoFilesIff(tree: Tree, prefix: Rel)
    ensures NoFiles(tree) <==> Files(tree, prefix) == {}
  {
    match tree
    case End =>
    case FileEntry(name, _) => assert prefix + [name] in Files(tree, prefix);
    case DirEntry(name, sub, rest) =>
      NoFilesIff(sub, prefix + [name]);
      NoFilesIff(rest, prefix);
  }

  /** A file below every directory of the tree is looked for in the right place. */
  lemma {:induction false} DeepFileIsFound(tree: Tree, prefix: Rel, f: Rel)
    requires Distinct(tree) && f in Files(tree, prefix) && prefix + DirNames(PreOrder(tree)) <= f
    ensures f in Looked(PreOrder(tree), prefix)
  {
    match tree
    case FileEntry(name, rest) =>
      WalkFile(name, rest, prefix);
      if f in Files(rest, prefix) {
        DeepFileIsFound(rest, prefix, f);
      }
    case DirEntry(name, sub, rest) =>
      WalkDir(name, sub, rest, prefix);
      var p, dirs := prefix + [name], DirNames(PreOrder(sub));
      assert prefix + DirNames(PreOrder(tree)) == (p + dirs) + DirNames(PreOrder(rest));
      assert f[|prefix|] == name;
      if f in Files(rest, prefix) {
        BelowPrefix(rest, prefix, f);
      } else {
        DeepFileIsFound(sub, p, f);
      }
  }

  lemma {:induction false} FilesFirstFound(tree: Tree, prefix: Rel)
    requires FilesFirst(tree)
    ensures Looked(PreOrder(tree), prefix) == Files(tree, prefix)
  {
    match tree
    case End =>
    case FileEntry(name, rest) =>
      WalkFile(name, rest, prefix);
      FilesFirstFound(rest, prefix);
    case DirEntry(name, sub, rest) =>
      WalkDir(name, sub, rest, prefix);
      FilesFirstFound(sub, prefix + [name]);
      NoFilesIff(rest, prefix);
      NoFilesWalk(rest, prefix + [name] + DirNames(PreOrder(sub)));
  }

  lemma {:induction false} NoFilesWalk(tree: Tree, prefix: Rel)
    requires NoFiles(tree)
    ensures Looked(PreOrder(tree), prefix) == {}
  {
    match tree
    case End =>
    case DirEntry(name, sub, rest) =>
      WalkDir(name, sub, rest, prefix);
      NoFilesWalk(sub, prefix + [name]);
      NoFilesWalk(rest, prefix + [name] + DirNames(PreOrder(sub)));
  }

  /** Otherwise some file is missed. */
  lemma {:induction false} FileMissed(tree: Tree, prefix: Rel) returns (f: Rel)
    requires Distinct(tree) && !FilesFirst(tree)
    ensures f in Files(tree, prefix) && f !in Looked(PreOrder(tree), prefix)
  {
    match tree
    case FileEntry(name, rest) =>
      WalkFile(name, rest, prefix);
      f := FileMissed(rest, prefix);
      BelowPrefix(rest, prefix, f);
    case DirEntry(name, sub, rest) =>
      WalkDir(name, sub, rest, prefix);
      var p := prefix + [name];
      var after := p + DirNames(PreOrder(sub));
      if !FilesFirst(sub) {
        f := FileMissed(sub, p);
        if f in Looked(PreOrder(rest), after) {
          WalkGoesDown(PreOrder(rest), after, f);
          DeepFileIsFound(sub, p, f);
        }
      } else {
        NoFilesIff(rest, prefix);
        f :| f in Files(rest, prefix);
        BelowPrefix(rest, prefix, f);
        if f in Looked(PreOrder(sub), p) {
          WalkGoesDown(PreOrder(sub), p, f);
        } else if f in Looked(PreOrder(rest), after) {
          WalkGoesDown(PreOrder(rest), after, f);
        }
      }
  }

  /** The walk looks for every file in its place exactly when no file follows a directory it has left. */
  lemma EveryFileFoundIff(tree: Tree)
    requires Distinct(tree)
    ensures Files(tree, []) <= Looked(PreOrder(tree), []) <==> FilesFirst(tree)
    ensures FilesFirst(tree) ==> Looked(PreOrder(tree), []) == Files(tree, [])
  {
    if FilesFirst(tree) {
      FilesFirstFound(tree, []);
    } else {
      var f := FileMissed(tree, []);
    }
  }

  // ----- directories -----

  /** Once the walk has left a directory it meets no more directories. */
  predicate Chain(tree: Tree) {
    match tree
    case End => true
    case FileEntry(_, rest) => Chain(rest)
    case DirEntry(_, sub, rest) => Chain(sub) && NoDirs(rest)
  }

  predicate NoDirs(tree: Tree) {
    match tree
    case End => true
    case FileEntry(_, rest) => NoDirs(rest)
    case DirEntry(_, _, _) => false
  }

  lemma {:induction false} NoDirsIff(tree: Tree, prefix: Rel)
    ensures NoDirs(tree) <==> Dirs(tree, prefix) == {}
  {
    match tree
    case End =>
    case FileEntry(name, rest) => NoDirsIff(rest, prefix);
    case DirEntry(name, sub, rest) => assert prefix + [name] in Dirs(tree, prefix);
  }

  lemma {:induction false} NoDirsWalk(tree: Tree, prefix: Rel)
    requires NoDirs(tree)
    ensures Entered(PreOrder(tree), prefix) == {}
  {
    match tree
    case End =>
    case FileEntry(name, rest) =>
      WalkFile(name, rest, prefix);
      NoDirsWalk(rest, prefix);
  }

  /** No directory is deeper than the number of directories. */
  lemma {:induction false} DepthBound(tree: Tree, prefix: Rel, d: Rel)
    requires d in Dirs(tree, prefix)
    ensures |d| <= |prefix| + |DirNames(PreOrder(tree))|
  {
    match tree
    case FileEntry(name, rest) =>
      WalkFile(name, rest, prefix);
      DepthBound(rest, prefix, d);
    case DirEntry(name, sub, rest) =>
      WalkDir(name, sub, rest, prefix);
      if d in Dirs(sub, prefix + [name]) {
        DepthBound(sub, prefix + [name], d);
      } else if d in Dirs(rest, prefix) {
        DepthBound(rest, prefix, d);
      }
  }

  lemma {:induction false} ChainEntered(tree: Tree, prefix: Rel)
    requires Chain(tree)
    ensures Entered(PreOrder(tree), prefix) == Dirs(tree, prefix)
  {
    match tree
    case End =>
    case FileEntry(name, rest) =>
      WalkFile(name, rest, prefix);
      ChainEntered(rest, prefix);
    case DirEntry(name, sub, rest) =>
      WalkDir(name, sub, rest, prefix);
      ChainEntered(sub, prefix + [name]);
      NoDirsIff(rest, prefix);
      NoDirsWalk(rest, prefix + [name] + DirNames(PreOrder(sub)));
  }

  lemma {:induction false} DirMissed(tree: Tree, prefix: Rel) returns (d: Rel)
    requires Distinct(tree) && !Chain(tree)
    ensures d in Dirs(tree, prefix) && d !in Entered(PreOrder(tree), prefix)
  {
    match tree
    case FileEntry(name, rest) =>
      WalkFile(name, rest, prefix);
      d := DirMissed(rest, prefix);
    case DirEntry(name, sub, rest) =>
      WalkDir(name, sub, rest, prefix);
      var p := prefix + [name];
      var after := p + DirNames(PreOrder(sub));
      if !Chain(sub) {
        d := DirMissed(sub, p);
        BelowPrefix(sub, p, d);
        DepthBound(sub, p, d);
        if d in Entered(PreOrder(rest), after) {
          WalkGoesDown(PreOrder(rest), after, d);
        }
      } else {
        NoDirsIff(rest, prefix);
        d :| d in Dirs(rest, prefix);
        BelowPrefix(rest, prefix, d);
        if d in Entered(PreOrder(sub), p) {
          WalkGoesDown(PreOrder(sub), p, d);
        } else if d in Entered(PreOrder(rest), after) {
          WalkGoesDown(PreOrder(rest), after, d);
        }
      }
  }

  /** The walk takes exactly the tree's directories for directories when no directory follows one it has
      left; otherwise it misses one. */
  lemma EveryDirEnteredIff(tree: Tree)
    requires Distinct(tree)
    ensures Dirs(tree, []) <= Entered(PreOrder(tree), []) <==> Chain(tree)
    ensures Chain(tree) ==> Entered(PreOrder(tree), []) == Dirs(tree, [])
  {
    if Chain(tree) {
      ChainEntered(tree, []);
    } else {
      var d := DirMissed(tree, []);
    }
  }
}
