// Which server a path belongs to: the digest of the path, read as a key of the ring of configured servers.

module SelectServers {
  import opened Basics
  import opened Digests
  import opened HashRing
  import Clusters

  datatype ServerInfo = ServerInfo(host: string, port: int)

  /** A digest library as a function of the path; MD5 may report an error. */
  datatype HashCalc =
    | Md5(md5: string -> Option<Md5Digest>)
    | Sha1(sha1: string -> Sha1Digest)
  {
    function KeyBits(): nat {
      if Md5? then 128 else 160
    }

    function Key(path: string): int {
      match this
      case Md5(digest) => if digest(path).Some? then Md5Key(digest(path).value) else 0
      case Sha1(digest) => Sha1Key(digest(path))
    }
  }

  /** The index of the path's server among `n`. */
  function Route(n: nat, hasher: HashCalc, path: string): nat
    requires n >= 1
  {
    Slot(Pow2(hasher.KeyBits()) - 1, n, hasher.Key(path))
  }

  lemma SlotInRange(max: nat, n: nat, key: int)
    requires n >= 1 && key <= max
    ensures Slot(max, n, key) < n
  {
  }

  /** No key exceeds the last point of its ring, so the scan never falls through. */
  lemma RouteInRange(n: nat, hasher: HashCalc, path: string)
    requires n >= 1
    ensures Route(n, hasher, path) < n
  {
    var bits := hasher.KeyBits();
    match hasher {
      case Md5(digest) =>
        if digest(path).Some? {
          Md5Range(digest(path).value, bits);
        }
      case Sha1(digest) => Sha1Range(digest(path));
    }
    SlotInRange(Pow2(bits) - 1, n, hasher.Key(path));
  }

  /** A cluster whose paths are routed by a ring of its servers sends every path to one of them. */
  lemma RingRoutesCluster(c: Clusters.Cluster, hasher: HashCalc)
    requires |c.servers| >= 1 && forall p :: c.owner(p) == Route(|c.servers|, hasher, p)
    ensures Clusters.Routed(c)
  {
    forall p ensures c.owner(p) < |c.servers| {
      RouteInRange(|c.servers|, hasher, p);
    }
  }

  lemma TimesTwice(k: nat, q: nat)
    ensures Times(2 * k, q) == 2 * Times(k, q)
  {
    TimesIsMul(k, q);
    TimesIsMul(2 * k, q);
  }

  lemma SlotBelow(max: nat, n: nat, key: int)
    requires 1 <= n <= max && 0 < key <= max
    ensures Times(Slot(max, n, key), max / n) < key
  {
    QuotientPositive(max, n);
    QuotientTimes(key - 1, max / n);
    TimesMono(Slot(max, n, key), (key - 1) / (max / n), max / n);
  }

  /** A key below the middle of a large ring is in the first half of its servers. */
  lemma LowKey(max: nat, n: nat, key: int)
    requires n >= 1 && 0xff * n <= max && 0xff * key <= 0x7f * max
    ensures 2 * Slot(max, n, key) < n
    ensures key < 0 ==> Slot(max, n, key) == 0
  {
    var s := Slot(max, n, key);
    if key > 0 {
      SlotBelow(max, n, key);
      TimesTwice(s, max / n);
      WholeTimes(max, n);
      if n <= 2 * s {
        TimesMono(n, 2 * s, max / n);
      }
    }
  }

  lemma DigestReachesHalf(d: seq<Word>, n: nat, bits: nat)
    requires bits == 32 * |d| && d != [] && n >= 1 && 0xff * n < Pow2(bits)
    ensures var slot := Slot(Pow2(bits) - 1, n, Sha1Key(d));
      2 * slot < n && (d[0] >= 0x8000_0000 ==> slot == 0)
  {
    Sha1Range(d);
    LowKey(Pow2(bits) - 1, n, Sha1Key(d));
  }

  /** With signed bytes no path ever reaches the second half of the servers, and each path whose digest
      starts with a set bit goes to the first server. */
  lemma Sha1ReachesHalf(n: nat, hasher: HashCalc, path: string)
    requires hasher.Sha1? && n >= 1 && 0xff * n < Pow2(hasher.KeyBits())
    ensures 2 * Route(n, hasher, path) < n
    ensures hasher.sha1(path)[0] >= 0x8000_0000 ==> Route(n, hasher, path) == 0
  {
    DigestReachesHalf(hasher.sha1(path), n, hasher.KeyBits());
  }

  lemma ReachIff(points: seq<int>, k: nat, point: int, words: nat)
    requires forall key :: Arc(points, key) >= k <==> key > point
    ensures (exists d: seq<Word> :: |d| == words && Arc(points, Sha1Key(d)) >= k) <==>
      point < 0x7f * Ones(4 * words)
  {
    if d: seq<Word> :| |d| == words && Arc(points, Sha1Key(d)) >= k {
      Sha1KeyRange(d);
    }
    if point < 0x7f * Ones(4 * words) {
      var d := Sha1WithKey(0x7f * Ones(4 * words), words);
      assert Arc(points, Sha1Key(d)) >= k;
    }
  }

  lemma BelowLargestKey(max: int, ones: int, point: int)
    requires max == 0xff * ones
    ensures point < 0x7f * ones <==> 0xff * (point + 1) <= 0x7f * max
  {
  }

  /** The scan sends some digest to server `k` or a later one exactly when the arcs before `k` end before the
      largest key that a digest can have; a SHA-1 digest has five words. */
  lemma Sha1ReachIff(n: nat, k: nat, words: nat)
    requires 1 <= k <= n
    ensures var max := Pow2(32 * words) - 1;
      (exists d: seq<Word> :: |d| == words && Arc(Points(max, n), Sha1Key(d)) >= k) <==>
      0xff * (Point(max, n, k - 1) + 1) <= 0x7f * max
  {
    var max := Pow2(32 * words) - 1;
    RingOfOnes(4 * words);
    forall key ensures Arc(Points(max, n), key) >= k <==> key > Point(max, n, k - 1) {
      ArcAtLeast(max, n, key, k);
    }
    ReachIff(Points(max, n), k, Point(max, n, k - 1), words);
    BelowLargestKey(max, Ones(4 * words), Point(max, n, k - 1));
  }

  // ----- which servers a digest reaches -----

  const MD5_MAX := 0xffff_ffff_ffff_ffff_ffff_ffff_ffff_ffff

  const SHA1_MAX := 0xffff_ffff_ffff_ffff_ffff_ffff_ffff_ffff_ffff_ffff

  lemma Pow2Up(n: nat, v: int)
    requires Pow2(n) == v
    ensures Pow2(n + 16) == 0x1_0000 * v
  {
    assert Pow2(n + 2) == 4 * v;
    assert Pow2(n + 4) == 4 * Pow2(n + 2);
    assert Pow2(n + 6) == 4 * Pow2(n + 4);
    assert Pow2(n + 8) == 4 * Pow2(n + 6);
    assert Pow2(n + 10) == 4 * Pow2(n + 8);
    assert Pow2(n + 12) == 4 * Pow2(n + 10);
    assert Pow2(n + 14) == 4 * Pow2(n + 12);
  }

  lemma RingEnds(n: nat, m: nat)
    requires n == 128 && m == 160
    ensures Pow2(n) - 1 == MD5_MAX && Pow2(m) - 1 == SHA1_MAX
  {
    var zero := n - 128;
    Pow2Up(zero, 1);
    Pow2Up(zero + 16, 0x1_0000);
    Pow2Up(zero + 32, 0x1_0000_0000);
    Pow2Up(zero + 48, 0x1_0000_0000_0000);
    Pow2Up(zero + 64, 0x1_0000_0000_0000_0000);
    Pow2Up(zero + 80, 0x1_0000_0000_0000_0000_0000);
    Pow2Up(zero + 96, 0x1_0000_0000_0000_0000_0000_0000);
    Pow2Up(zero + 112, 0x1_0000_0000_0000_0000_0000_0000_0000);
    Pow2Up(n, MD5_MAX + 1);
    Pow2Up(n + 16, 0x1_0000 * (MD5_MAX + 1));
  }

  lemma RouteAtLeast(n: nat, k: nat, hasher: HashCalc, path: string, max: nat)
    requires 1 <= k <= n && max == Pow2(hasher.KeyBits()) - 1
    ensures Route(n, hasher, path) >= k <==> hasher.Key(path) > Point(max, n, k - 1)
  {
    ScanIsSlot(max, n, hasher.Key(path));
    ArcAtLeast(max, n, hasher.Key(path), k);
    RouteInRange(n, hasher, path);
  }

  /** With MD5 a path goes to server `k` or beyond exactly when its digest, read as an unsigned number with the
      first byte first, lies beyond the arcs before `k` of the ring of 2^128 keys. */
  lemma Md5ReachIff(n: nat, k: nat, hasher: HashCalc, path: string, d: Md5Digest)
    requires 1 <= k <= n && hasher.Md5? && hasher.md5(path) == Some(d)
    ensures Route(n, hasher, path) >= k <==> Fold(Bytes(d)) > Point(MD5_MAX, n, k - 1)
  {
    RingEnds(hasher.KeyBits(), 160);
    RouteAtLeast(n, k, hasher, path, MD5_MAX);
  }

  lemma Md5GoesTo(n: nat, hasher: HashCalc, path: string)
    requires n >= 1 && hasher.Md5?
    ensures Route(n, hasher, path) < n
    ensures var digest, k := hasher.md5(path), Route(n, hasher, path);
      if digest.Some? then GoesTo(digest.value, n, k) else k == 0
  {
    RouteInRange(n, hasher, path);
    var digest, k := hasher.md5(path), Route(n, hasher, path);
    if digest.Some? {
      if k > 0 {
        Md5ReachIff(n, k, hasher, path, digest.value);
      }
      if k + 1 < n {
        Md5ReachIff(n, k + 1, hasher, path, digest.value);
      } else {
        var bits := 128;
        RingEnds(bits, 160);
        Md5Range(digest.value, bits);
      }
    }
  }

  /** The same for SHA-1, with the digest's bytes read as signed and in a ring of 2^160 keys. */
  lemma Sha1RouteIff(n: nat, k: nat, hasher: HashCalc, path: string)
    requires 1 <= k <= n && hasher.Sha1?
    ensures Route(n, hasher, path) >= k <==> Fold(Sha1Chars(hasher.sha1(path))) > Point(SHA1_MAX, n, k - 1)
  {
    RingEnds(128, hasher.KeyBits());
    RouteAtLeast(n, k, hasher, path, SHA1_MAX);
  }

  /** The MD5 digests whose paths go to server `k`. */
  predicate GoesTo(d: Md5Digest, n: nat, k: nat)
    requires k < n
  {
    (k == 0 || Fold(Bytes(d)) > Point(MD5_MAX, n, k - 1)) && Fold(Bytes(d)) <= Point(MD5_MAX, n, k)
  }

  lemma DigestOf(v: nat, bits: nat) returns (d: Md5Digest)
    requires bits == 128 && v < Pow2(bits)
    ensures Fold(Bytes(d)) == v
  {
    Md5IsBijection(seq(16, _ => 0), v, bits);
    d :| Md5Key(d) == v;
  }

  lemma PointsRise(max: nat, n: nat, k: nat)
    requires 0 < k < n <= max
    ensures Point(max, n, k - 1) < Point(max, n, k)
  {
    QuotientPositive(max, n);
    WholeTimes(max, n);
    TimesMono(k, n - 1, max / n);
    assert Times(n, max / n) == Times(n - 1, max / n) + max / n;
  }

  ghost predicate IsReached(n: nat, k: nat)
    requires k < n
  {
    exists d :: GoesTo(d, n, k)
  }

  lemma ReachesAll(n: nat, k: nat, bits: nat)
    requires k < n <= MD5_MAX && bits == 128
    ensures IsReached(n, k)
  {
    RingEnds(bits, 160);
    PointsIncrease(MD5_MAX, n, k, n - 1);
    var d := DigestOf(Point(MD5_MAX, n, k), bits);
    if k > 0 {
      PointsRise(MD5_MAX, n, k);
    }
    assert GoesTo(d, n, k);
  }

  /** With MD5 every server is reached by some digest exactly as long as there are fewer servers than keys. */
  lemma Md5ReachesAllIff(n: nat)
    requires n >= 1
    ensures (forall k :: 0 <= k < n ==> IsReached(n, k)) <==> n <= MD5_MAX
  {
    if n <= MD5_MAX {
      forall k | 0 <= k < n ensures IsReached(n, k) {
        ReachesAll(n, k, 128);
      }
    } else {
      QuotientZero(MD5_MAX, n);
      TimesIsMul(1, MD5_MAX / n);
      TimesIsMul(2, MD5_MAX / n);
      assert Point(MD5_MAX, n, 0) == 0 == Point(MD5_MAX, n, 1);
      assert !IsReached(n, 1);
    }
  }

  /** `hash_calc_->CalcHash`, for either digest. */
  method CalcHash(hasher: HashCalc, path: string) returns (hash: int)
    ensures hash == hasher.Key(path)
  {
    match hasher
    case Md5(digest) => hash := CalcHashMd5(digest(path));
    case Sha1(digest) => hash := CalcHashSha1(digest(path));
  }

  class SelectServer {
    var hashCalc: Option<HashCalc>
    var serverList: seq<ServerInfo>
    const chash: ConsistentHash<ServerInfo>

    constructor ()
      ensures hashCalc.None? && serverList == [] && fresh(chash)
    {
      var ring := new ConsistentHash(ServerInfo("", 0));
      hashCalc, serverList, chash := None, [], ring;
    }

    /** The ring is the one of the listed servers. */
    ghost predicate Ready()
      reads this, chash
    {
      && hashCalc.Some? && serverList != []
      && |chash.nodeCircle| == |serverList|
      && chash.Values() == Points(Pow2(hashCalc.value.KeyBits()) - 1, |serverList|)
      && forall k :: 0 <= k < |serverList| ==> chash.nodeCircle[k].info == serverList[k]
    }

    /** Without a host the ring cannot be built: the division by zero is thrown out of `Init`. */
    method Init(clientHosts: seq<string>, clientPort: int, hasher: HashCalc) returns (built: bool)
      modifies this, chash
      ensures built <==> clientHosts != []
      ensures hashCalc == Some(hasher)
      ensures |serverList| == |clientHosts|
      ensures forall k :: 0 <= k < |clientHosts| ==> serverList[k] == ServerInfo(clientHosts[k], clientPort)
      ensures built ==> Ready()
    {
      serverList := [];
      hashCalc := Some(hasher);
      var infos: seq<ServerInfo> := [];
      for k := 0 to |clientHosts|
        invariant hashCalc == Some(hasher) && |infos| == k && serverList == infos
        invariant forall j :: 0 <= j < k ==> infos[j] == ServerInfo(clientHosts[j], clientPort)
      {
        var info := ServerInfo(clientHosts[k], clientPort);
        infos := infos + [info];
        serverList := serverList + [info];
      }
      built := chash.Create(hasher.KeyBits(), infos);
    }

    ghost function RouteOf(path: string): (k: nat)
      requires Ready()
      reads this, chash
      ensures k < |serverList|
    {
      RouteInRange(|serverList|, hashCalc.value, path);
      Route(|serverList|, hashCalc.value, path)
    }

    /** None is a failed assertion. Once initialised, that happens exactly when the server the path is
        routed to was configured without host or port. */
    method GetInfo(path: string) returns (info: Option<ServerInfo>)
      ensures hashCalc.None? || (chash.nodeCircle == [] && chash.empty == ServerInfo("", 0)) ==> info.None?
      ensures Ready() ==>
        info == (var s := serverList[RouteOf(path)]; if s.host != "" && s.port > 0 then Some(s) else None)
      ensures Ready() && hashCalc.value.Md5? ==>
        var digest, k := hashCalc.value.md5(path), RouteOf(path);
        if digest.Some? then GoesTo(digest.value, |serverList|, k) else k == 0
    {
      if hashCalc.None? {
        return None;
      }
      var hash := CalcHash(hashCalc.value, path);
      var node := chash.GetNode(hash);
      if Ready() {
        ScanIsSlot(Pow2(hashCalc.value.KeyBits()) - 1, |serverList|, hash);
        assert RouteOf(path) == Route(|serverList|, hashCalc.value, path);
        if hashCalc.value.Md5? {
          Md5GoesTo(|serverList|, hashCalc.value, path);
        }
      }
      return if node.host == "" || node.port <= 0 then None else Some(node);
    }
  }
}
