// Links to files are plain files whose names end in a fixed extension. This is the name codec:
// two encoders, two recognisers that look for an extension anywhere, and one decoder that cuts
// out the first occurrence.

module VirtualNames {
  import opened Basics

  const SYMLINK_TAG := "870A7545-5F58-453A-A685-1C9A3A17272C_symlink"
  const LINK_TAG := "2257FC83-FA8A-430F-AB47-9105B352793D_link"
  const SYMLINK_EXT := "." + SYMLINK_TAG
  const LINK_EXT := "." + LINK_TAG

  // ----- std::string::find -----

  predicate OccursAt(s: string, pat: string, i: int) {
    0 <= i <= |s| - |pat| && s[i..i + |pat|] == pat
  }

  predicate Contains(s: string, pat: string) {
    exists i :: 0 <= i <= |s| && OccursAt(s, pat, i)
  }

  function FindFrom(s: string, pat: string, start: nat): (r: Option<nat>)
    requires start <= |s|
    ensures r.Some? ==> start <= r.value && OccursAt(s, pat, r.value)
    ensures forall i :: start <= i < (if r.Some? then r.value else |s| + 1) ==> !OccursAt(s, pat, i)
    decreases |s| - start
  {
    if OccursAt(s, pat, start) then Some(start)
    else if start == |s| then None
    else FindFrom(s, pat, start + 1)
  }

  /** The first occurrence of `pat`, if any. */
  function Find(s: string, pat: string): (r: Option<nat>)
    ensures r.Some? ==> OccursAt(s, pat, r.value)
    ensures forall i :: 0 <= i < (if r.Some? then r.value else |s| + 1) ==> !OccursAt(s, pat, i)
    ensures r.Some? <==> Contains(s, pat)
  {
    FindFrom(s, pat, 0)
  }

  // ----- the codec -----

  function CreateVirtualSymlink(path: string): string { path + SYMLINK_EXT }

  function CreateVirtualLink(path: string): string { path + LINK_EXT }

  predicate IsVirtualSymlink(path: string) { Find(path, SYMLINK_EXT).Some? }

  predicate IsVirtualLink(path: string) { Find(path, LINK_EXT).Some? }

  /** `replace(i, n, "")`. */
  function Cut(s: string, i: nat, n: nat): string
    requires i + n <= |s|
  {
    s[..i] + s[i + n..]
  }

  function RemoveVirtualExt(path: string): string {
    match Find(path, SYMLINK_EXT)
    case Some(i) => Cut(path, i, |SYMLINK_EXT|)
    case None =>
      match Find(path, LINK_EXT)
      case Some(i) => Cut(path, i, |LINK_EXT|)
      case None => path
  }

  // ----- occurrences cannot straddle an appended extension -----

  /** A string whose only '.' is its first character. */
  predicate Dotted(e: string) {
    |e| > 0 && e[0] == '.' && forall k :: 1 <= k < |e| ==> e[k] != '.'
  }

  lemma NoDotAfterFirst(rest: string)
    requires '.' !in rest
    ensures Dotted("." + rest)
  {
  }

  lemma SymlinkExtIsDotted()
    ensures Dotted(SYMLINK_EXT) && |SYMLINK_EXT| == 45
  {
    NoDotAfterFirst(SYMLINK_TAG);
  }

  lemma LinkExtIsDotted()
    ensures Dotted(LINK_EXT) && |LINK_EXT| == 42
  {
  }

  lemma ExtensionsAreDotted()
    ensures Dotted(SYMLINK_EXT) && Dotted(LINK_EXT)
    ensures |SYMLINK_EXT| == 45 && |LINK_EXT| == 42
    ensures SYMLINK_EXT[1] != LINK_EXT[1]
  {
    SymlinkExtIsDotted();
    LinkExtIsDotted();
    assert SYMLINK_EXT[1] == SYMLINK_TAG[0] == '8' && LINK_EXT[1] == LINK_TAG[0] == '2';
  }

  lemma StraddlingDiffers(p: string, e: string, pat: string, i: nat)
    requires Dotted(e) && Dotted(pat) && i < |p| < i + |pat| <= |p + e|
    ensures (p + e)[i..i + |pat|] != pat
  {
    assert (p + e)[i..i + |pat|][|p| - i] == e[0];
  }

  lemma NoStraddle(p: string, e: string, pat: string, i: nat)
    requires Dotted(e) && Dotted(pat) && OccursAt(p + e, pat, i)
    ensures OccursAt(p, pat, i) || (i == |p| && pat <= e)
  {
    var s := p + e;
    assert s[i..i + |pat|][0] == s[i];
    if i + |pat| <= |p| {
      assert p[i..i + |pat|] == s[i..i + |pat|];
    } else if i < |p| {
      StraddlingDiffers(p, e, pat, i);
    } else {
      assert s[i] == e[i - |p|];
      assert i == |p| ==> e[..|pat|] == s[i..i + |pat|];
    }
  }

  lemma OccursInPrefix(p: string, e: string, pat: string, i: nat)
    requires OccursAt(p, pat, i)
    ensures OccursAt(p + e, pat, i)
  {
  }

  /** Where the first occurrence of `pat` in `p + e` is. */
  lemma FindInAppended(p: string, e: string, pat: string)
    requires Dotted(e) && Dotted(pat)
    ensures Contains(p, pat) ==> Find(p + e, pat) == Find(p, pat)
    ensures !Contains(p, pat) && pat == e ==> Find(p + e, pat) == Some(|p|)
    ensures !Contains(p, pat) && !(pat <= e) ==> Find(p + e, pat) == None
  {
    var r := Find(p + e, pat);
    if r.Some? {
      NoStraddle(p, e, pat, r.value);
    }
    if Contains(p, pat) {
      var i := Find(p, pat).value;
      OccursInPrefix(p, e, pat, i);
    } else if pat == e {
      assert OccursAt(p + e, pat, |p|);
    }
  }

  // ----- the exact domain of the round trip -----

  /** `u` is `e` repeated zero or more times. */
  predicate Repeats(u: string, e: string)
    requires |e| > 0
    decreases |u|
  {
    u == [] || (e <= u && Repeats(u[|e|..], e))
  }

  lemma ShortDoesNotCommute(u: string, e: string)
    requires Dotted(e) && 0 < |u| < |e|
    ensures u + e != e + u
  {
    assert (u + e)[|u|] == e[0];
    assert (e + u)[|u|] == e[|u|];
  }

  /** Only the repetitions of a dotted string commute with it. */
  lemma {:induction false} CommutingRepeats(u: string, e: string)
    requires Dotted(e) && u + e == e + u
    ensures Repeats(u, e)
    decreases |u|
  {
    if 0 < |u| < |e| {
      ShortDoesNotCommute(u, e);
    } else if u != [] {
      var v := u[|e|..];
      assert (u + e)[..|e|] == u[..|e|] && (e + u)[..|e|] == e;
      assert (u + e)[|e|..] == v + e && (e + u)[|e|..] == u == e + v;
      CommutingRepeats(v, e);
    }
  }

  lemma {:induction false} RepeatsCommute(u: string, e: string)
    requires |e| > 0 && Repeats(u, e)
    ensures u + e == e + u
    decreases |u|
  {
    if u != [] {
      var v := u[|e|..];
      RepeatsCommute(v, e);
      assert u == e + v;
      assert u + e == e + (v + e) == e + (e + v);
    }
  }

  /** Every occurrence of `ext` in `p` belongs to one run of copies at the very end. */
  predicate OnlyTrailing(p: string, ext: string)
    requires |ext| > 0
  {
    match Find(p, ext)
    case None => true
    case Some(i) => Repeats(p[i..], ext)
  }

  lemma SamePrefix(a: string, u: string, v: string)
    ensures a + u == a + v <==> u == v
  {
    assert (a + u)[|a|..] == u && (a + v)[|a|..] == v;
  }

  lemma CutInside(a: string, v: string, e: string)
    requires Dotted(e)
    ensures Cut(a + (e + v) + e, |a|, |e|) == a + (e + v) <==> Repeats(e + v, e)
  {
    var s := a + (e + v) + e;
    assert s[..|a|] == a;
    assert s[|a| + |e|..] == v + e;
    SamePrefix(a, v + e, e + v);
    assert (e + v)[|e|..] == v;
    if v + e == e + v {
      CommutingRepeats(v, e);
    }
    if Repeats(v, e) {
      RepeatsCommute(v, e);
    }
  }

  lemma CutFirstIsIdentity(p: string, ext: string)
    requires Dotted(ext)
    ensures var i := Find(p + ext, ext);
      i.Some? && (Cut(p + ext, i.value, |ext|) == p <==> OnlyTrailing(p, ext))
  {
    FindInAppended(p, ext, ext);
    match Find(p, ext)
    case Some(i) =>
      var a, v := p[..i], p[i + |ext|..];
      assert p[i..] == ext + v;
      assert p == a + (ext + v);
      CutInside(a, v, ext);
    case None =>
      assert Cut(p + ext, |p|, |ext|) == p;
  }

  /** Decoding undoes symlink encoding exactly when the extension occurs in the path, if at all,
      as a run at its end; in particular for every path without it. */
  lemma SymlinkRoundTrip(p: string)
    ensures RemoveVirtualExt(CreateVirtualSymlink(p)) == p <==> OnlyTrailing(p, SYMLINK_EXT)
  {
    ExtensionsAreDotted();
    CutFirstIsIdentity(p, SYMLINK_EXT);
  }

  /** Decoding undoes link encoding exactly when the symlink extension does not occur at all and the
      link extension only as a run at the end. */
  lemma LinkRoundTrip(p: string)
    ensures RemoveVirtualExt(CreateVirtualLink(p)) == p <==>
      !Contains(p, SYMLINK_EXT) && OnlyTrailing(p, LINK_EXT)
  {
    ExtensionsAreDotted();
    CutFirstIsIdentity(p, LINK_EXT);
    FindInAppended(p, LINK_EXT, SYMLINK_EXT);
    assert !(SYMLINK_EXT <= LINK_EXT);
    if Contains(p, SYMLINK_EXT) {
      assert |RemoveVirtualExt(CreateVirtualLink(p))| == |p| - 3;
    }
  }

  /** A name never has two readings: the encodings are disjoint and each is injective. */
  lemma EncodingsNeverCollide(p: string, q: string)
    ensures CreateVirtualSymlink(p) != CreateVirtualLink(q)
    ensures CreateVirtualSymlink(p) == CreateVirtualSymlink(q) ==> p == q
    ensures CreateVirtualLink(p) == CreateVirtualLink(q) ==> p == q
  {
    var a, b := CreateVirtualSymlink(p), CreateVirtualLink(q);
    assert |SYMLINK_EXT| == 45 && |LINK_EXT| == 42;
    assert SYMLINK_EXT[40] == 'm' && LINK_EXT[37] == '_';
    assert a[|a| - 5] == SYMLINK_EXT[40];
    assert b[|b| - 5] == LINK_EXT[37];
    if a == CreateVirtualSymlink(q) {
      assert a[..|p|] == p && CreateVirtualSymlink(q)[..|q|] == q;
    }
    if b == CreateVirtualLink(p) {
      assert CreateVirtualLink(p)[..|p|] == p && b[..|q|] == q;
    }
  }

  /** What the recognisers say of an encoded name: a symlink name is always recognised, and a link
      name is taken for a symlink exactly when its path already contained that extension. */
  lemma Recognisers(p: string)
    ensures IsVirtualSymlink(CreateVirtualSymlink(p)) && IsVirtualLink(CreateVirtualLink(p))
    ensures IsVirtualSymlink(CreateVirtualLink(p)) <==> IsVirtualSymlink(p)
    ensures IsVirtualLink(CreateVirtualSymlink(p)) <==> IsVirtualLink(p)
  {
    ExtensionsAreDotted();
    FindInAppended(p, SYMLINK_EXT, SYMLINK_EXT);
    FindInAppended(p, LINK_EXT, LINK_EXT);
    FindInAppended(p, LINK_EXT, SYMLINK_EXT);
    FindInAppended(p, SYMLINK_EXT, LINK_EXT);
    assert !(SYMLINK_EXT <= LINK_EXT) && !(LINK_EXT <= SYMLINK_EXT);
  }
}
