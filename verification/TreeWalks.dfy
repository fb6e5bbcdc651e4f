// Directory walks by string slicing: how a walk from a storage root names the files and directories
// it meets, and that these names are the ones the requests use.

module TreeWalks {
  import opened Basics
  import opened VirtualNames

  /** What `readdir` yields for a directory, in order, with the contents of each subdirectory. */
  datatype Tree =
    | End
    | FileEntry(name: string, rest: Tree)
    | DirEntry(name: string, sub: Tree, rest: Tree)

  predicate IsDot(name: string) { name == "." || name == ".." }

  /** The root-relative paths of the files below `prefix`. */
  function FilePaths(tree: Tree, prefix: string): set<Path> {
    match tree
    case End => {}
    case FileEntry(name, rest) => {prefix + "/" + name} + FilePaths(rest, prefix)
    case DirEntry(name, sub, rest) =>
      (if IsDot(name) then {} else FilePaths(sub, prefix + "/" + name)) + FilePaths(rest, prefix)
  }

  /** The root-relative paths of the directories below `prefix`. */
  function DirPaths(tree: Tree, prefix: string): set<Path> {
    match tree
    case End => {}
    case FileEntry(_, rest) => DirPaths(rest, prefix)
    case DirEntry(name, sub, rest) =>
      (if IsDot(name) then {} else {prefix + "/" + name} + DirPaths(sub, prefix + "/" + name)) + DirPaths(rest, prefix)
  }

  /** `local_path` and `secondary_path`: a storage root, a slash unless the path brings one, the path. */
  function StoragePath(root: string, path: Path): string {
    root + (if path[..if |path| == 0 then 0 else 1] == "/" then "" else "/") + path
  }

  /** `remove_storage_path`: if a root with its slash occurs anywhere, its length is cut off the front. */
  function RemoveStoragePath(local: string, secondary: string, path: string): string {
    if Contains(path, StoragePath(local, "")) then path[|StoragePath(local, "/")|..]
    else if Contains(path, StoragePath(secondary, "")) then path[|StoragePath(secondary, "/")|..]
    else path
  }

  lemma StartsWithRoot(root: string, path: Path)
    ensures var full := StoragePath(root, path);
      Contains(full, StoragePath(root, "")) && full[|StoragePath(root, "/")|..] ==
        if path != "" && path[0] == '/' then path[1..] else path
  {
    assert OccursAt(StoragePath(root, path), StoragePath(root, ""), 0);
  }

  /** Cutting the root off again loses a leading slash: it is the inverse exactly for relative paths. */
  lemma RemoveStoragePathInverse(local: string, secondary: string, path: Path)
    ensures RemoveStoragePath(local, secondary, StoragePath(local, path)) == path <==> path == "" || path[0] != '/'
    ensures !Contains(StoragePath(secondary, path), StoragePath(local, "")) ==>
      (RemoveStoragePath(local, secondary, StoragePath(secondary, path)) == path <==> path == "" || path[0] != '/')
  {
    StartsWithRoot(local, path);
    StartsWithRoot(secondary, path);
  }

  /** A walk that starts at `StoragePath(root, "")` and appends "/" and a name at each level: cutting
      that start off leaves the slash-rooted path. */
  lemma SliceOfWalk(root: string, prefix: string, name: string)
    ensures var walked := StoragePath(root, "") + prefix + "/" + name;
      |StoragePath(root, "")| <= |walked| && walked[|StoragePath(root, "")|..] == prefix + "/" + name
  {
  }

  /** The part before the last slash; "" for a name directly below the root. */
  function Parent(path: Path): Path {
    if path == "" then ""
    else if path[|path| - 1] == '/' then path[..|path| - 1]
    else Parent(path[..|path| - 1])
  }

  lemma {:induction false} ParentOfChild(prefix: string, name: string)
    requires '/' !in name
    ensures Parent(prefix + "/" + name) == prefix
    decreases |name|
  {
    var path := prefix + "/" + name;
    if name == "" {
      assert path[..|path| - 1] == prefix;
    } else {
      assert path[..|path| - 1] == prefix + "/" + name[..|name| - 1];
      ParentOfChild(prefix, name[..|name| - 1]);
    }
  }

  predicate SlashFree(tree: Tree) {
    match tree
    case End => true
    case FileEntry(name, rest) => '/' !in name && SlashFree(rest)
    case DirEntry(name, sub, rest) => '/' !in name && SlashFree(sub) && SlashFree(rest)
  }

  /** `mkdir` unless the name exists; it fails without a parent directory. */
  function MkDir(dirs: set<Path>, files: set<Path>, dir: Path): set<Path> {
    if dir !in dirs && dir !in files && Parent(dir) in dirs then dirs + {dir} else dirs
  }

  /** The directories after a walk that makes each directory it meets, before it descends into it. */
  function Duplicated(dirs: set<Path>, files: set<Path>, tree: Tree, prefix: string): set<Path>
    decreases tree
  {
    match tree
    case End => dirs
    case FileEntry(_, rest) => Duplicated(dirs, files, rest, prefix)
    case DirEntry(name, sub, rest) =>
      if IsDot(name) then Duplicated(dirs, files, rest, prefix) else
        var below := prefix + "/" + name;
        Duplicated(Duplicated(MkDir(dirs, files, below), files, sub, below), files, rest, prefix)
  }

  lemma {:induction false} DuplicatedBounds(dirs: set<Path>, files: set<Path>, tree: Tree, prefix: string)
    requires dirs !! files
    ensures var dirs' := Duplicated(dirs, files, tree, prefix);
      dirs <= dirs' <= dirs + DirPaths(tree, prefix) && dirs' !! files
    decreases tree
  {
    match tree
    case End =>
    case FileEntry(_, rest) => DuplicatedBounds(dirs, files, rest, prefix);
    case DirEntry(name, sub, rest) =>
      if IsDot(name) {
        DuplicatedBounds(dirs, files, rest, prefix);
      } else {
        var below := prefix + "/" + name;
        var dirs1 := MkDir(dirs, files, below);
        DuplicatedBounds(dirs1, files, sub, below);
        DuplicatedBounds(Duplicated(dirs1, files, sub, below), files, rest, prefix);
      }
  }

  lemma {:induction false} DuplicatedComplete(dirs: set<Path>, files: set<Path>, tree: Tree, prefix: string)
    requires dirs !! files && prefix in dirs && SlashFree(tree) && DirPaths(tree, prefix) !! files
    ensures DirPaths(tree, prefix) <= Duplicated(dirs, files, tree, prefix)
    decreases tree
  {
    match tree
    case End =>
    case FileEntry(_, rest) => DuplicatedComplete(dirs, files, rest, prefix);
    case DirEntry(name, sub, rest) =>
      if IsDot(name) {
        DuplicatedComplete(dirs, files, rest, prefix);
      } else {
        var below := prefix + "/" + name;
        ParentOfChild(prefix, name);
        var dirs1 := MkDir(dirs, files, below);
        assert below in DirPaths(tree, prefix) && below in dirs1;
        DuplicatedBounds(dirs1, files, sub, below);
        DuplicatedComplete(dirs1, files, sub, below);
        var dirs2 := Duplicated(dirs1, files, sub, below);
        DuplicatedBounds(dirs2, files, rest, prefix);
        DuplicatedComplete(dirs2, files, rest, prefix);
      }
  }

  /** The walk from an existing directory makes every directory of the other tier, and no other, exactly
      when none of them is the name of a local file. */
  lemma DuplicatedIff(dirs: set<Path>, files: set<Path>, tree: Tree, prefix: string)
    requires dirs !! files && prefix in dirs && SlashFree(tree)
    ensures Duplicated(dirs, files, tree, prefix) == dirs + DirPaths(tree, prefix) <==> DirPaths(tree, prefix) !! files
  {
    DuplicatedBounds(dirs, files, tree, prefix);
    if DirPaths(tree, prefix) !! files {
      DuplicatedComplete(dirs, files, tree, prefix);
    }
  }

  /** Every directory lies in a directory. */
  ghost predicate Rooted(dirs: set<Path>) {
    forall d :: d in dirs && d != "" ==> Parent(d) in dirs
  }

  lemma {:induction false} DuplicatedKeepsRooted(dirs: set<Path>, files: set<Path>, tree: Tree, prefix: string)
    requires dirs !! files && Rooted(dirs)
    ensures Rooted(Duplicated(dirs, files, tree, prefix))
    decreases tree
  {
    match tree
    case End =>
    case FileEntry(_, rest) => DuplicatedKeepsRooted(dirs, files, rest, prefix);
    case DirEntry(name, sub, rest) =>
      if IsDot(name) {
        DuplicatedKeepsRooted(dirs, files, rest, prefix);
      } else {
        var below := prefix + "/" + name;
        var dirs1 := MkDir(dirs, files, below);
        DuplicatedKeepsRooted(dirs1, files, sub, below);
        DuplicatedBounds(dirs1, files, sub, below);
        DuplicatedKeepsRooted(Duplicated(dirs1, files, sub, below), files, rest, prefix);
      }
  }

  /** What the duplicating walk cuts off and puts in front turns a directory of one tier into the same
      directory of the other. */
  lemma SliceOfDuplicate(local: string, secondary: string, prefix: string, name: string)
    requires prefix == "" || prefix[0] == '/'
    ensures var fname, below := secondary + prefix + "/" + name, prefix + "/" + name;
      && fname == secondary + below && below[0] == '/'
      && |StoragePath(secondary, "")| <= |fname|
      && var tmp := StoragePath(local, "") + fname[|StoragePath(secondary, "")|..];
         tmp == StoragePath(local, below) && tmp[|local|..] == below
  {
  }
}
