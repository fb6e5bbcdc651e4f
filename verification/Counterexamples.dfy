// The smallest inputs on which the code does not do what a file system should. The exact conditions are the
// lemmas named beside each of them.

module Counterexamples {
  import opened Basics
  import opened Descriptors
  import opened Servers
  import opened Clusters
  import opened Durability
  import DirectoryRenames
  import DirectoryWalks
  import HashRing
  import TreeWalks

  const RDWR_CREAT := OpenFlags(false, true, true, false, false)

  const WRONLY_EXCL := OpenFlags(true, false, true, true, false)

  const RDWR := OpenFlags(false, true, false, false, false)

  function OneServer(local: Tier, registered: map<Path, int>, secondary: Tier): Cluster {
    Cluster(p => 0, [Server(local, registered, map[], map[])], secondary, 1)
  }

  /** Creating a name that only the secondary tier has shows an empty file instead of its bytes
      (Refinement.CreateExact). */
  lemma CreateShadows()
    ensures var c := OneServer(map[], map[], map["/f" := File("abc", 1)]);
      View(c, "/f") == Some("abc") && View(Step(c, Create("/f", RDWR_CREAT, 3), 2).0, "/f") == Some("")
  {
  }

  /** Renaming onto a name that exists in the secondary tier loses the renamed file (Refinement.RenameExact). */
  lemma RenameLoses()
    ensures var c := OneServer(map["/f" := File("abc", 1)], map[], map["/g" := File("old", 1)]);
      var c' := Step(c, Rename("/f", "/g"), 2).0;
      View(c', "/f") == None && View(c', "/g") == Some("old")
  {
  }

  /** A creation that fails because the file exists still takes the file away from the exporter, and its
      bytes never reach the secondary tier (Durability.StepDurableIff). */
  lemma FailedCreateUnregisters()
    ensures var c := OneServer(map["/f" := File("abc", 1)], map["/f" := 1], map[]);
      var (c', r) := Step(c, Create("/f", WRONLY_EXCL, 3), 2);
      Reached(c.servers[0], c.secondary, "/f") && r == Failed && !Reached(c'.servers[0], c'.secondary, "/f") &&
      "/f" !in Step(c', Export(0), 3).0.secondary
  {
  }

  /** A file opened for reading and writing stays registered, so a pass can copy it half written
      (Durability.OpenClosesWindow). */
  lemma ReadWriteStaysRegistered()
    ensures var c := OneServer(map["/f" := File("abc", 1)], map["/f" := 1], map[]);
      var c' := Step(c, Open("/f", RDWR, 3), 2).0;
      "/f" in c'.servers[0].registered && "/f" in Step(c', Export(0), 3).0.secondary
  {
  }

  /** A directory holding a subdirectory and then a file loses the file when it is renamed
      (DirectoryRenames.DirectoryRenameExact, DirectoryWalks.EveryFileFoundIff). */
  lemma DirectoryRenameLoses()
    ensures var disk := DirectoryRenames.Disk(map[["d", "f"] := "abc"], {["d"], ["d", "s"]});
      var sec := DirectoryRenames.Disk(map[], {[], ["d"], ["d", "s"]});
      var walk := DirectoryWalks.PreOrder(TreeWalks.DirEntry("s", TreeWalks.End, TreeWalks.FileEntry("f", TreeWalks.End)));
      var (h, sec') := DirectoryRenames.Renamed(DirectoryRenames.Host(disk, {}), sec, ["d"], ["e"], walk, []);
      ["d", "f"] !in h.disk.files && ["e", "f"] !in h.disk.files && sec'.files == map[]
  {
    var f := TreeWalks.FileEntry("f", TreeWalks.End);
    var walk := DirectoryWalks.PreOrder(TreeWalks.DirEntry("s", TreeWalks.End, f));
    assert walk == [DirectoryWalks.DirNamed("s"), DirectoryWalks.FileNamed("f")];
    assert walk[1..] == [DirectoryWalks.FileNamed("f")] && walk[1..][1..] == [];
    var looked := DirectoryWalks.Looked(walk, []);
    assert looked == {["s", "f"]} by {
      assert [] + ["s"] == ["s"] && ["s"] + ["f"] == ["s", "f"];
      assert DirectoryWalks.Looked([], ["s"]) == {};
    }
    var disk := DirectoryRenames.Disk(map[["d", "f"] := "abc"], {["d"], ["d", "s"]});
    assert ["d"] + ["s", "f"] == ["d", "s", "f"] != ["d", "f"];
    assert DirectoryRenames.Transplant(disk.files, ["d"], ["d"], looked) == map[];
  }

  /** A local subdirectory that the secondary tier lacks, as an earlier rename can leave one behind, makes the
      rename throw (DirectoryRenames.DirectoryRenameExact). */
  lemma StrayDirectoryThrows()
    ensures var disk := DirectoryRenames.Disk(map[["d", "s", "f"] := "abc"], {["d"], ["d", "s"]});
      var sec := DirectoryRenames.Disk(map[], {[], ["d"]});
      !DirectoryRenames.AllFit(disk, sec, ["d"], ["d"], {["s", "f"]})
  {
    assert ["d"] + ["s", "f"] == ["d", "s", "f"] && ["s", "f"][..1] == ["s"] && ["d"] + ["s"] == ["d", "s"];
    var disk := DirectoryRenames.Disk(map[["d", "s", "f"] := "abc"], {["d"], ["d", "s"]});
    var sec := DirectoryRenames.Disk(map[], {[], ["d"]});
    assert !DirectoryRenames.CopyFits(disk, sec, ["d"], ["d"], ["s", "f"]);
  }

  /** On the ring of 3 bits, going from 3 servers to 4 moves key 4 from server 1 to server 3
      (HashRing.AddingMovesOneIff). */
  lemma SmallRingSkips()
    ensures HashRing.Slot(7, 3, 4) == 1 && HashRing.Slot(7, 4, 4) == 3
  {
  }
}
