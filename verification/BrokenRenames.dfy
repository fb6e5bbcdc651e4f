// What a directory rename leaves behind on the cluster when it throws on one of the servers.

module BrokenRenames {
  import opened Basics
  import opened TreeWalks
  import opened DirectoryWalks
  import opened DirectoryRenames

  /** The request gets through the servers before `k` and breaks on `k`; `w'` is what it leaves. */
  ghost predicate Stops(w: World, k: nat, source: Rel, target: Rel, walks: seq<seq<Entry>>, mades: seq<seq<Entry>>,
                        b: Break, w': World)
  {
    && k < |w.hosts| == |walks| == |mades| == |w'.hosts|
    && var before := After(w, k, source, target, walks, mades);
      before.Through? &&
      var v := before.world;
      && source in v.hosts[k].disk.dirs
      && w' == w.(hosts := v.hosts[k := w'.hosts[k]], secondary := w'.secondary)
      && Broken(b, v.hosts[k], v.secondary, source, target, walks[k], mades[k], w'.hosts[k], w'.secondary)
  }

  /** The files that server `k` has copied. */
  function Copied(b: Break, walk: seq<Entry>): set<Rel> {
    Looked(if b.Copying? && b.entry <= |walk| then walk[..b.entry] else walk, [])
  }

  // ----- a request that does not get through breaks somewhere -----

  lemma {:induction false} FirstMisfit(local: Disk, secondary: Disk, source: Rel, base: Rel, walk: seq<Entry>, n: nat)
      returns (k: nat)
    requires n <= |walk| && !AllFit(local, secondary, source, base, Looked(walk[..n], []))
    ensures k < n && AllFit(local, secondary, source, base, Looked(walk[..k], []))
    ensures !AllFit(local, secondary, source, base, Looked(walk[..k + 1], []))
    decreases n
  {
    if AllFit(local, secondary, source, base, Looked(walk[..n - 1], [])) {
      k := n - 1;
    } else {
      k := FirstMisfit(local, secondary, source, base, walk, n - 1);
    }
  }

  /** A server that is not smooth breaks. */
  lemma Breaking(h: Host, secondary: Disk, source: Rel, target: Rel, walk: seq<Entry>, made: seq<Entry>)
      returns (b: Break, h': Host, secondary': Disk)
    requires !Smooth(h.disk, secondary, source, target, walk, made)
    ensures Broken(b, h, secondary, source, target, walk, made, h', secondary')
  {
    var base := Base(secondary, source, target);
    var copied := CopiedOut(h.disk, secondary, source, base, Looked(walk, []));
    if !AllFit(h.disk, secondary, source, base, Looked(walk, [])) {
      assert walk[..|walk|] == walk;
      var k := FirstMisfit(h.disk, secondary, source, base, walk, |walk|);
      b, h', secondary' := Copying(k), Host(h.disk, {}), CopiedOut(h.disk, secondary, source, base, Looked(walk[..k], []));
    } else {
      var files := Without(h.disk.files, source);
      h' := Host(Disk(files, (set d | d in h.disk.dirs && !(source <= d)) +
                             if Prefixes(target) !! files.Keys then Prefixes(target) else {}), {});
      if !CanMove(secondary, source, target) {
        b, secondary' := Moving, copied;
      } else {
        b, h' := Making, Host(Disk(files, set d | d in h.disk.dirs && !(source <= d)), {});
        secondary' := if target in secondary.dirs then copied else Move(copied, source, target);
      }
    }
  }

  lemma {:induction false} ThrownStops(w: World, n: nat, source: Rel, target: Rel, walks: seq<seq<Entry>>,
                                       mades: seq<seq<Entry>>) returns (k: nat, b: Break, w': World)
    requires n <= |w.hosts| == |walks| == |mades| && After(w, n, source, target, walks, mades).Thrown?
    ensures k < n && Stops(w, k, source, target, walks, mades, b, w')
    decreases n
  {
    var before := After(w, n - 1, source, target, walks, mades);
    if before.Thrown? {
      k, b, w' := ThrownStops(w, n - 1, source, target, walks, mades);
    } else {
      k := n - 1;
      var h, sec := before.world.hosts[k], before.world.secondary;
      var h', sec';
      b, h', sec' := Breaking(h, sec, source, target, walks[k], mades[k]);
      w' := w.(hosts := before.world.hosts[k := h'], secondary := sec');
    }
  }

  // ----- the files it leaves -----

  lemma CopiedAt(local: Disk, secondary: Disk, source: Rel, base: Rel, looked: set<Rel>, p: Rel)
    ensures Lookup(CopiedOut(local, secondary, source, base, looked).files, p) ==
      if base <= p && p[|base|..] in looked && source + p[|base|..] in local.files
      then Some(local.files[source + p[|base|..]]) else Lookup(secondary.files, p)
  {
    TransplantAt(local.files, source, base, looked, p);
  }

  /** The name `source` + r on the secondary tier, and `target` + r. */
  lemma SecondaryLeft(w: World, k: nat, source: Rel, target: Rel, walks: seq<seq<Entry>>, mades: seq<seq<Entry>>,
                      b: Break, w': World, p: Rel)
    requires Ready(w, source, target) && Stops(w, k, source, target, walks, mades, b, w')
    ensures var copied := Copied(b, walks[k]);
      Lookup(w'.secondary.files, p) ==
      if !Begun(w, k, source) && !b.Making? then
        if source <= p && p[|source|..] in copied && p in w.hosts[k].disk.files
        then Some(w.hosts[k].disk.files[p]) else Lookup(w.secondary.files, p)
      else if source <= p then None
      else if target <= p then
        if p[|target|..] in copied && source + p[|target|..] in w.hosts[k].disk.files
        then Some(w.hosts[k].disk.files[source + p[|target|..]]) else Merged(w, k, source, walks, p[|target|..])
      else Lookup(w.secondary.files, p)
  {
    AfterIs(w, k, source, target, walks, mades);
    var v := After(w, k, source, target, walks, mades).world;
    assert v.hosts[k] == w.hosts[k];
    TargetIsDirectory(w, k, source, target, walks, v.secondary);
    var copied := Copied(b, walks[k]);
    if source <= p {
      PrefixSplit(source, p);
    }
    if b.Making? && !Begun(w, k, source) {
      FirstTurn(w, k, source, target, walks);
      BegunNext(w, k, source);
      if target <= p {
        MergedNext(w, k, source, target, walks, p[|target|..]);
      }
    } else {
      CopiedAt(w.hosts[k].disk, v.secondary, source, if Begun(w, k, source) then target else source, copied, p);
      if target <= p {
        Diverge(source, target, p);
      }
    }
  }

  /** Which local files of a server are left. */
  lemma LocalLeft(w: World, k: nat, source: Rel, target: Rel, walks: seq<seq<Entry>>, mades: seq<seq<Entry>>,
                  b: Break, w': World, i: nat, p: Rel)
    requires Ready(w, source, target) && Stops(w, k, source, target, walks, mades, b, w') && i < |w.hosts|
    ensures Lookup(w'.hosts[i].disk.files, p) ==
      if source <= p && (i < k || (i == k && !b.Copying?)) then None else Lookup(w.hosts[i].disk.files, p)
  {
    AfterIs(w, k, source, target, walks, mades);
    var v := After(w, k, source, target, walks, mades).world;
    assert v.hosts[k] == w.hosts[k];
    assert source !in w.hosts[i].disk.dirs ==> Nothing(w.hosts[i].disk, source);
  }

  /** The files that the request has looked for and copied, or lost, are those of the first servers. */
  function Passed(k: nat, b: Break): nat {
    if b.Copying? then k else k + 1
  }

  /** The new name is there. */
  predicate Moved(w: World, k: nat, source: Rel, b: Break)
    requires k <= |w.hosts|
  {
    Begun(w, k, source) || b.Making?
  }

  /** A rename that breaks on server `k` changes no name outside the two directories. If it has not renamed the
      secondary directory yet, the new name has nothing, and the old one shows what it did, except that local
      files of server `k` that its walk misses are gone when the secondary rename itself fails. Otherwise the
      old name shows the local files of the servers that it did not get past, and the new name all secondary
      files and the copies. */
  lemma ViewLeft(w: World, k: nat, source: Rel, target: Rel, walks: seq<seq<Entry>>, mades: seq<seq<Entry>>,
                 b: Break, w': World, p: Rel)
    requires Ready(w, source, target) && Stops(w, k, source, target, walks, mades, b, w')
    ensures View(w', p) ==
      if !(source <= p) && !(target <= p) then View(w, p)
      else if source <= p then
        var o := w.owner(p);
        if o >= Passed(k, b) && p in w.hosts[o].disk.files then Some(w.hosts[o].disk.files[p])
        else if Moved(w, k, source, b) then None
        else if o == k && p in w.hosts[o].disk.files && p[|source|..] in Copied(b, walks[k])
        then Some(w.hosts[o].disk.files[p])
        else Lookup(w.secondary.files, p)
      else if !Moved(w, k, source, b) then None
      else if p[|target|..] in Copied(b, walks[k]) && source + p[|target|..] in w.hosts[k].disk.files
      then Some(w.hosts[k].disk.files[source + p[|target|..]])
      else Merged(w, k, source, walks, p[|target|..])
  {
    var o := w.owner(p);
    SecondaryLeft(w, k, source, target, walks, mades, b, w', p);
    LocalLeft(w, k, source, target, walks, mades, b, w', o, p);
    assert Nothing(w.hosts[o].disk, target) && Nothing(w.secondary, target);
    if source <= p {
      Diverge(target, source, p);
      PrefixSplit(source, p);
    }
  }

  // ----- the directories it leaves -----

  /** Secondary directories below neither name are as they were; below the two names they have moved, or not. */
  lemma SecondaryDirsLeft(w: World, k: nat, source: Rel, target: Rel, walks: seq<seq<Entry>>, mades: seq<seq<Entry>>,
                          b: Break, w': World)
    requires Ready(w, source, target) && Stops(w, k, source, target, walks, mades, b, w')
    ensures var dirs, dirs' := w.secondary.dirs, w'.secondary.dirs;
      if !Moved(w, k, source, b) then dirs' == dirs else
        && SameDirsElsewhere(dirs, dirs', source, target)
        && forall x :: source + x !in dirs' && (target + x in dirs' <==> source + x in dirs)
  {
    AfterIs(w, k, source, target, walks, mades);
    var v := After(w, k, source, target, walks, mades).world;
    assert v.hosts[k] == w.hosts[k];
    TargetIsDirectory(w, k, source, target, walks, v.secondary);
    if b.Making? && !Begun(w, k, source) {
      FirstTurn(w, k, source, target, walks);
      BegunNext(w, k, source);
    }
  }

  /** So are the local directories, but for those that lead to the new name. */
  lemma LocalDirsLeft(w: World, k: nat, source: Rel, target: Rel, walks: seq<seq<Entry>>, mades: seq<seq<Entry>>,
                      b: Break, w': World, i: nat)
    requires Ready(w, source, target) && Stops(w, k, source, target, walks, mades, b, w') && i < |w.hosts|
    ensures SameLocalDirs(w.hosts[i].disk.dirs, w'.hosts[i].disk.dirs, source, target)
  {
    AfterIs(w, k, source, target, walks, mades);
    var v := After(w, k, source, target, walks, mades).world;
    assert v.hosts[k] == w.hosts[k];
    if i == k {
      RecreatedIsNew(w.hosts[k].disk.dirs, source, target, mades[k]);
    }
  }

  // ----- whether a file is lost -----

  /** The file shows what it did under one of the two names, if there was one. */
  predicate Survives(w: World, w': World, source: Rel, target: Rel, r: Rel)
    requires Routed(w) && Routed(w')
  {
    View(w, source + r).Some? ==> View(w, source + r) in {View(w', source + r), View(w', target + r)}
  }

  /** Every file that the walks of the first `n` servers miss is already in the secondary tier as it is. */
  ghost predicate PassedAreExported(w: World, n: nat, source: Rel, walks: seq<seq<Entry>>)
    requires n <= |w.hosts| == |walks|
  {
    forall i, r :: 0 <= i < n && source + r in w.hosts[i].disk.files && r !in Looked(walks[i], []) ==>
      Lookup(w.secondary.files, source + r) == Some(w.hosts[i].disk.files[source + r])
  }

  lemma SurvivesIff(w: World, k: nat, source: Rel, target: Rel, walks: seq<seq<Entry>>, mades: seq<seq<Entry>>,
                    b: Break, w': World, r: Rel)
    requires Ready(w, source, target) && Stops(w, k, source, target, walks, mades, b, w')
    ensures var o := w.owner(source + r);
      Survives(w, w', source, target, r) <==>
      (o < Passed(k, b) && source + r in w.hosts[o].disk.files && r !in Looked(walks[o], []) ==>
        Lookup(w.secondary.files, source + r) == Some(w.hosts[o].disk.files[source + r]))
  {
    var o := w.owner(source + r);
    assert source <= source + r && (source + r)[|source|..] == r && target <= target + r && (target + r)[|target|..] == r;
    Diverge(source, target, target + r);
    ViewLeft(w, k, source, target, walks, mades, b, w', source + r);
    ViewLeft(w, k, source, target, walks, mades, b, w', target + r);
    assert source !in w.hosts[o].disk.dirs ==> Nothing(w.hosts[o].disk, source);
  }

  /** After a rename that breaks on server `k` every file still shows under the old name or the new one exactly
      when each local file that a walk has missed so far had been exported as it is. All names outside the two
      directories show what they did, and server `k` has forgotten what it had to export. */
  lemma BrokenRenameExact(w: World, k: nat, source: Rel, target: Rel, walks: seq<seq<Entry>>, mades: seq<seq<Entry>>,
                          b: Break, w': World)
    requires Ready(w, source, target) && Stops(w, k, source, target, walks, mades, b, w')
    ensures (forall r :: Survives(w, w', source, target, r)) <==> PassedAreExported(w, Passed(k, b), source, walks)
    ensures forall p :: !(source <= p) && !(target <= p) ==> View(w', p) == View(w, p)
    ensures w'.hosts[k].registered == {}
    ensures if !Moved(w, k, source, b) then w'.secondary.dirs == w.secondary.dirs else
      && SameDirsElsewhere(w.secondary.dirs, w'.secondary.dirs, source, target)
      && forall x :: source + x !in w'.secondary.dirs && (target + x in w'.secondary.dirs <==> source + x in w.secondary.dirs)
    ensures forall i :: 0 <= i < |w.hosts| ==> SameLocalDirs(w.hosts[i].disk.dirs, w'.hosts[i].disk.dirs, source, target)
  {
    SecondaryDirsLeft(w, k, source, target, walks, mades, b, w');
    forall i | 0 <= i < |w.hosts|
      ensures SameLocalDirs(w.hosts[i].disk.dirs, w'.hosts[i].disk.dirs, source, target)
    {
      LocalDirsLeft(w, k, source, target, walks, mades, b, w', i);
    }
    forall p | !(source <= p) && !(target <= p) ensures View(w', p) == View(w, p) {
      ViewLeft(w, k, source, target, walks, mades, b, w', p);
    }
    if PassedAreExported(w, Passed(k, b), source, walks) {
      forall r ensures Survives(w, w', source, target, r) {
        SurvivesIff(w, k, source, target, walks, mades, b, w', r);
      }
    }
    if forall r :: Survives(w, w', source, target, r) {
      forall i, r | 0 <= i < Passed(k, b) && source + r in w.hosts[i].disk.files && r !in Looked(walks[i], [])
        ensures Lookup(w.secondary.files, source + r) == Some(w.hosts[i].disk.files[source + r])
      {
        assert Survives(w, w', source, target, r);
        SurvivesIff(w, k, source, target, walks, mades, b, w', r);
      }
    }
  }
}
