// The hash ring: arcs of equal length over the keys 0 .. 2^bits - 1, one for each server in list order.

module HashRing {
  import opened Basics

  function Pow2(n: nat): (r: nat)
    ensures r >= 1
  {
    if n == 0 then 1 else 2 * Pow2(n - 1)
  }

  /** `add` added `k` times. */
  function Times(k: nat, add: nat): nat {
    if k == 0 then 0 else Times(k - 1, add) + add
  }

  /** The last key of arc `k` out of `n`, when `max` is the last key of all. */
  function Point(max: nat, n: nat, k: nat): nat
    requires k < n
  {
    if k == n - 1 then max else Times(k + 1, max / n)
  }

  function Points(max: nat, n: nat): (r: seq<int>)
    ensures |r| == n
    ensures forall k :: 0 <= k < n ==> r[k] == Point(max, n, k)
  {
    seq(n, k requires 0 <= k < n => Point(max, n, k))
  }

  /** The first index whose point reaches the key; the number of points if none does. */
  function Arc(points: seq<int>, key: int): (r: nat)
    ensures r <= |points|
    ensures r < |points| ==> key <= points[r]
    ensures forall k :: 0 <= k < r ==> points[k] < key
  {
    if points == [] then 0
    else if key <= points[0] then 0
    else
      var r := 1 + Arc(points[1..], key);
      assert forall k :: 1 <= k < r ==> points[k] == points[1..][k - 1];
      r
  }

  /** The server of a key, in one expression. */
  function Slot(max: nat, n: nat, key: int): nat
    requires n >= 1
  {
    if key <= 0 then 0
    else if key > max then n
    else if n <= max && (key - 1) / (max / n) < n - 1 then (key - 1) / (max / n)
    else n - 1
  }

  datatype NodeInfo<T> = NodeInfo(value: int, info: T)

  class ConsistentHash<T(0)> {
    var nodeCircle: seq<NodeInfo<T>>
    const empty: T

    constructor (empty: T)
      ensures nodeCircle == [] && this.empty == empty
    {
      nodeCircle, this.empty := [], empty;
    }

    function Values(): seq<int>
      reads this
    {
      seq(|nodeCircle|, k requires 0 <= k < |nodeCircle| reads this => nodeCircle[k].value)
    }

    /** None is the division by zero that a ring without nodes runs into. */
    static method CalcNodePointValue(keyBits: nat, nodeCount: nat) returns (r: Option<seq<int>>)
      requires keyBits < 256
      ensures r == if nodeCount == 0 then None else Some(Points(Pow2(keyBits) - 1, nodeCount))
    {
      var maxValue: nat := 1;
      for i := 0 to keyBits
        invariant maxValue == Pow2(i)
      {
        maxValue := 2 * maxValue;
      }
      maxValue := maxValue - 1;
      if nodeCount == 0 {
        return None;
      }
      var pointValue: seq<int> := [];
      var addValue, value := maxValue / nodeCount, 0;
      for index := 0 to nodeCount - 1
        invariant value == Times(index, addValue)
        invariant pointValue == Points(maxValue, nodeCount)[..index]
      {
        value := value + addValue;
        pointValue := pointValue + [value];
      }
      pointValue := pointValue + [maxValue];
      assert pointValue == Points(maxValue, nodeCount);
      return Some(pointValue);
    }

    /** Build the ring; with no node it throws and leaves the old ring. */
    method Create(keyBits: nat, infos: seq<T>) returns (built: bool)
      requires keyBits < 256
      modifies this
      ensures built <==> infos != []
      ensures !built ==> nodeCircle == old(nodeCircle)
      ensures built ==> Values() == Points(Pow2(keyBits) - 1, |infos|)
      ensures built ==> |nodeCircle| == |infos| && forall k :: 0 <= k < |infos| ==> nodeCircle[k].info == infos[k]
    {
      var points := CalcNodePointValue(keyBits, |infos|);
      if points.None? {
        return false;
      }
      nodeCircle := [];
      for node := 0 to |infos|
        invariant |nodeCircle| == node
        invariant forall k :: 0 <= k < node ==> nodeCircle[k] == NodeInfo(points.value[k], infos[k])
      {
        nodeCircle := nodeCircle + [NodeInfo(points.value[node], infos[node])];
      }
      return true;
    }

    /** The node of the first point that the key does not exceed. */
    method GetNode(key: int) returns (info: T)
      ensures var k := Arc(Values(), key);
        info == if k < |nodeCircle| then nodeCircle[k].info else empty
    {
      for index := 0 to |nodeCircle|
        invariant forall k :: 0 <= k < index ==> Values()[k] < key
      {
        if key <= nodeCircle[index].value {
          ArcIs(Values(), key, index);
          return nodeCircle[index].info;
        }
      }
      ArcIs(Values(), key, |nodeCircle|);
      return empty;
    }
  }

  lemma ArcIs(points: seq<int>, key: int, k: nat)
    requires k <= |points| && (k < |points| ==> key <= points[k])
    requires forall j :: 0 <= j < k ==> points[j] < key
    ensures Arc(points, key) == k
  {
  }

  // ----- the scan in closed form -----

  lemma {:induction false} TimesIsMul(k: nat, q: nat)
    ensures Times(k, q) == k * q
  {
    if k > 0 {
      TimesIsMul(k - 1, q);
    }
  }

  lemma {:induction false} TimesMono(j: nat, k: nat, q: nat)
    requires j <= k
    ensures Times(j, q) <= Times(k, q)
    decreases k - j
  {
    if j < k {
      TimesMono(j + 1, k, q);
    }
  }

  /** Division undoes repeated addition. */
  lemma QuotientTimes(a: nat, q: nat)
    requires q > 0
    ensures a == Times(a / q, q) + a % q
  {
    TimesIsMul(a / q, q);
  }

  lemma PointsIncrease(max: nat, n: nat, j: nat, k: nat)
    requires j <= k < n
    ensures Point(max, n, j) <= Point(max, n, k)
  {
    if k < n - 1 {
      TimesMono(j + 1, k + 1, max / n);
    } else if j < k {
      TimesMono(j + 1, n, max / n);
      WholeTimes(max, n);
    }
  }

  /** `n` arcs of length max / n leave the remainder. */
  lemma WholeTimes(max: nat, n: nat)
    requires n > 0
    ensures max == Times(n, max / n) + max % n
  {
    TimesIsMul(n, max / n);
  }

  /** The scanning loop finds the server that the closed form names, for every key. */
  lemma ScanIsSlot(max: nat, n: nat, key: int)
    requires n >= 1
    ensures Arc(Points(max, n), key) == Slot(max, n, key)
  {
    if key <= 0 {
      ArcIs(Points(max, n), key, 0);
    } else if max < key {
      ScanPassesAll(max, n, key);
    } else if max < n {
      ScanTiny(max, n, key);
    } else {
      QuotientPositive(max, n);
      ScanIsQuotient(max, n, max / n, key);
    }
  }

  lemma ScanPassesAll(max: nat, n: nat, key: int)
    requires max < key
    ensures Arc(Points(max, n), key) == n
  {
    forall j | 0 <= j < n ensures Points(max, n)[j] < key {
      PointsIncrease(max, n, j, n - 1);
    }
    ArcIs(Points(max, n), key, n);
  }

  lemma {:induction false} TimesZero(k: nat)
    ensures Times(k, 0) == 0
  {
    if k > 0 {
      TimesZero(k - 1);
    }
  }

  lemma QuotientZero(max: nat, n: nat)
    requires max < n
    ensures max / n == 0
  {
  }

  /** With more servers than keys every arc but the first and the last is empty. */
  lemma ScanTiny(max: nat, n: nat, key: int)
    requires 0 < key <= max < n
    ensures Arc(Points(max, n), key) == n - 1
  {
    QuotientZero(max, n);
    forall j | 0 <= j < n - 1 ensures Points(max, n)[j] < key {
      TimesZero(j + 1);
    }
    ArcIs(Points(max, n), key, n - 1);
  }

  lemma QuotientPositive(max: nat, n: nat)
    requires 1 <= n <= max
    ensures max / n >= 1
  {
  }

  lemma ScanIsQuotient(max: nat, n: nat, q: nat, key: int)
    requires 1 <= n && 0 < key <= max && q == max / n && q >= 1
    ensures Arc(Points(max, n), key) == if (key - 1) / q < n - 1 then (key - 1) / q else n - 1
  {
    var d := (key - 1) / q;
    QuotientTimes(key - 1, q);
    var s := if d < n - 1 then d else n - 1;
    forall j | 0 <= j < s ensures Points(max, n)[j] < key {
      TimesMono(j + 1, d, q);
    }
    ArcIs(Points(max, n), key, s);
  }

  /** A key is beyond the first `k` arcs exactly when it exceeds the last point of them. */
  lemma ArcAtLeast(max: nat, n: nat, key: int, k: nat)
    requires 1 <= k <= n
    ensures Arc(Points(max, n), key) >= k <==> key > Point(max, n, k - 1)
  {
    var points := Points(max, n);
    var r := Arc(points, key);
    assert points[k - 1] == Point(max, n, k - 1);
    if r < k {
      PointsIncrease(max, n, r, k - 1);
    }
  }

  // ----- balance -----

  /** The keys of the ring that go to server `k`. */
  ghost function KeysOf(max: nat, n: nat, k: nat): set<int> {
    set key | 0 <= key <= max && Arc(Points(max, n), key) == k
  }

  predicate Within(lo: int, key: int, hi: int) {
    lo <= key < hi
  }

  ghost function Between(lo: int, hi: int): set<int> {
    set key | lo <= key < hi && Within(lo, key, hi)
  }

  lemma {:induction false} BetweenSize(lo: int, hi: int)
    requires lo <= hi
    ensures |Between(lo, hi)| == hi - lo
    decreases hi - lo
  {
    if lo == hi {
      assert Between(lo, hi) == {};
    } else {
      BetweenSize(lo, hi - 1);
      assert Between(lo, hi) == Between(lo, hi - 1) + {hi - 1};
    }
  }

  /** Where arc `k` begins. */
  function First(max: nat, n: nat, k: nat): nat
    requires k <= n
  {
    if k == 0 then 0 else Point(max, n, k - 1) + 1
  }

  lemma ArcIsInterval(max: nat, n: nat, k: nat)
    requires k < n
    ensures First(max, n, k) <= Point(max, n, k) + 1
    ensures KeysOf(max, n, k) == Between(First(max, n, k), Point(max, n, k) + 1)
  {
    var points := Points(max, n);
    if k > 0 {
      PointsIncrease(max, n, k - 1, k);
    }
    PointsIncrease(max, n, k, n - 1);
    forall key ensures key in KeysOf(max, n, k) <==> key in Between(First(max, n, k), Point(max, n, k) + 1) {
      if key in Between(First(max, n, k), Point(max, n, k) + 1) {
        forall j | 0 <= j < k ensures points[j] < key {
          PointsIncrease(max, n, j, k - 1);
        }
        ArcIs(points, key, k);
      }
    }
  }

  /** How many keys each server gets: the first has the key 0 as well, the last what the division leaves. */
  lemma ArcSizes(max: nat, n: nat, k: nat)
    requires k < n
    ensures |KeysOf(max, n, k)| ==
      max / n + (if k == 0 then 1 else 0) + (if k == n - 1 then max % n else 0)
  {
    ArcIsInterval(max, n, k);
    BetweenSize(First(max, n, k), Point(max, n, k) + 1);
    WholeTimes(max, n);
    assert Times(k + 1, max / n) == Times(k, max / n) + max / n;
  }

  ghost function KeysBelow(max: nat, n: nat, k: nat): nat {
    if k == 0 then 0 else KeysBelow(max, n, k - 1) + |KeysOf(max, n, k - 1)|
  }

  lemma {:induction false} ArcsAddUp(max: nat, n: nat, k: nat)
    requires k <= n
    ensures KeysBelow(max, n, k) == First(max, n, k)
  {
    if k > 0 {
      ArcsAddUp(max, n, k - 1);
      ArcIsInterval(max, n, k - 1);
      BetweenSize(First(max, n, k - 1), Point(max, n, k - 1) + 1);
    }
  }

  /** Every key of a ring has a server, the arcs hold all the keys between them, and no two servers
      differ by as many keys as there are servers. */
  lemma Balanced(max: nat, n: nat, j: nat, k: nat)
    requires j < n && k < n
    ensures forall key :: 0 <= key <= max ==> Slot(max, n, key) < n
    ensures KeysBelow(max, n, n) == max + 1
    ensures |KeysOf(max, n, j)| - |KeysOf(max, n, k)| < n
  {
    ArcsAddUp(max, n, n);
    ArcSizes(max, n, j);
    ArcSizes(max, n, k);
  }

  // ----- adding a server -----

  /** A server added at the end of the list never moves a key to an earlier server. */
  lemma AddingNeverMovesBack(max: nat, n: nat, key: int)
    requires n >= 1
    ensures Slot(max, n, key) <= Slot(max, n + 1, key)
  {
    ScanIsSlot(max, n, key);
    ScanIsSlot(max, n + 1, key);
    var before, after := Arc(Points(max, n), key), Arc(Points(max, n + 1), key);
    if after < before {
      PointsShrink(max, n, after);
    }
  }

  lemma {:induction false} TimesGrow(k: nat, q: nat, q': nat)
    requires q' <= q
    ensures Times(k, q') <= Times(k, q)
  {
    if k > 0 {
      TimesGrow(k - 1, q, q');
    }
  }

  lemma {:induction false} TimesAdd(k: nat, q: nat, d: nat)
    ensures Times(k, q + d) == Times(k, q) + Times(k, d)
  {
    if k > 0 {
      TimesAdd(k - 1, q, d);
    }
  }

  lemma {:induction false} TimesOne(k: nat)
    ensures Times(k, 1) == k
  {
    if k > 0 {
      TimesOne(k - 1);
    }
  }

  /** Repeated addition reflects the order, up to a remainder smaller than the count. */
  lemma TimesReflect(k: nat, q: nat, q': nat)
    requires Times(k, q') < Times(k, q) + k
    ensures q' <= q
  {
  }

  lemma QuotientShrinks(max: nat, n: nat)
    requires n >= 1
    ensures max / (n + 1) <= max / n
  {
    WholeTimes(max, n);
    WholeTimes(max, n + 1);
    TimesReflect(n, max / n, max / (n + 1));
  }

  lemma PointsShrink(max: nat, n: nat, k: nat)
    requires k < n
    ensures Point(max, n + 1, k) <= Point(max, n, k)
  {
    if k == n - 1 {
      PointsIncrease(max, n + 1, k, n);
    } else {
      QuotientShrinks(max, n);
      TimesGrow(k + 1, max / n, max / (n + 1));
    }
  }

  /** The last but one arc ends no later than the last but one of the larger ring. */
  predicate Gentle(max: nat, n: nat)
    requires n >= 1
  {
    Times(n - 1, max / n) <= Times(n, max / (n + 1))
  }

  lemma GentlePoints(max: nat, n: nat, k: nat)
    requires k < n && Gentle(max, n)
    ensures Point(max, n, k) <= Point(max, n + 1, k + 1)
  {
    if k < n - 1 {
      QuotientShrinks(max, n);
      var q, q' := max / n, max / (n + 1);
      TimesAdd(n - 1, q', q - q');
      TimesAdd(k + 1, q', q - q');
      TimesMono(k + 1, n - 1, q - q');
    }
  }

  /** Adding a server moves every key by at most one place exactly when the ring is gentle. */
  lemma AddingMovesOneIff(max: nat, n: nat)
    requires n >= 1
    ensures (forall key :: Slot(max, n + 1, key) <= Slot(max, n, key) + 1) <==> Gentle(max, n)
  {
    if Gentle(max, n) {
      forall key ensures Slot(max, n + 1, key) <= Slot(max, n, key) + 1 {
        ScanIsSlot(max, n, key);
        ScanIsSlot(max, n + 1, key);
        var k := Slot(max, n, key);
        if k < n {
          GentlePoints(max, n, k);
        }
      }
    } else {
      UngentleKey(max, n);
    }
  }

  /** In a ring that is not gentle the last key of the last but one arc skips a place. */
  lemma UngentleKey(max: nat, n: nat)
    requires n >= 1 && !Gentle(max, n)
    ensures var key := Times(n - 1, max / n); Slot(max, n + 1, key) > Slot(max, n, key) + 1
  {
    var key := Times(n - 1, max / n);
    ScanIsSlot(max, n, key);
    ScanIsSlot(max, n + 1, key);
    assert Times(0, max / n) == 0;
    var points := Points(max, n + 1);
    assert Points(max, n)[n - 2] == key > points[n - 1];
    forall j | 0 <= j < n ensures points[j] < key {
      PointsIncrease(max, n + 1, j, n - 1);
    }
  }

  /** A ring of at least (n + 1) n (n - 1) keys is gentle. */
  lemma ManyKeysAreGentle(max: nat, n: nat)
    requires n >= 1 && max >= (n + 1) * ((n - 1) * n)
    ensures Gentle(max, n)
  {
    var q, q' := max / n, max / (n + 1);
    WholeTimes(max, n);
    WholeTimes(max, n + 1);
    QuotientShrinks(max, n);
    BoundAsTimes(max, n);
    TimesReflect(n + 1, q', Times(n - 1, n));
    GentleQuotients(n, q', q - q');
  }

  lemma BoundAsTimes(max: nat, n: nat)
    requires n >= 1 && max >= (n + 1) * ((n - 1) * n)
    ensures max >= Times(n + 1, Times(n - 1, n))
  {
    TimesIsMul(n - 1, n);
    TimesIsMul(n + 1, (n - 1) * n);
  }

  lemma GentleQuotients(n: nat, q': nat, d: nat)
    requires n >= 1 && Times(n - 1, n) <= q'
    requires Times(n, q' + d) <= Times(n + 1, q') + n
    ensures Times(n - 1, q' + d) <= Times(n, q')
  {
    TimesAdd(n, q', d);
    TimesAdd(n - 1, q', d);
    if d < n {
      TimesGrow(n - 1, n, d);
    }
  }
}
