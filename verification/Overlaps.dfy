// What an export and a prefetch of one file do to its bytes when their calls overlap. Each of the two empties
// its destination before it reads its source, and the one's destination is the other's source.

module Overlaps {
  import opened Basics
  import opened Servers
  import opened Clusters
  import opened Interleaving

  /** An exporter's or a prefetch's step. */
  predicate Background(e: Event) {
    e.ScanStart? || e.ScanNext? || e.ScanCall? || e.ScanEnd? || e.FetchBegin? || e.FetchCall?
  }

  // ----- one path -----

  /** All that concerns one path: its file on its owner and on the secondary tier, whether it is registered,
      where a visit to it is, and where a prefetch of it is. */
  datatype Spot = Spot(local: Option<File>, secondary: Option<File>, watched: bool, visit: Option<Call>, fetch: Fetch) {
    function Seen(): Option<Data> {
      if local.Some? then Some(local.value.data)
      else if secondary.Some? then Some(secondary.value.data)
      else None
    }

    /** Neither a visit nor a prefetch is under way. */
    predicate Still() { visit.None? && fetch.NoFetch? }
  }

  function SpotOf(w: World, p: Path): Spot
    requires w.owner(p) < |w.hosts|
  {
    var h := w.hosts[w.owner(p)];
    Spot(Lookup(h.local, p), Lookup(w.secondary, p), p in h.registered,
         if h.phase.Visiting? && h.phase.path == p then Some(h.phase.call) else None,
         if !h.fetch.NoFetch? && h.fetch.path == p then h.fetch else NoFetch)
  }

  /** The calls of a visit. */
  function Called(s: Spot, now: int): Spot
    requires s.visit.Some? && s.local.Some?
  {
    match s.visit.value
    case SeeDestination => s.(visit := Some(if s.secondary.Some? then StampSource else OpenSource))
    case StampSource => s.(visit := Some(StampDestination(s.local.value.mtime)))
    case StampDestination(source) =>
      s.(visit := if s.secondary.None? || source <= s.secondary.value.mtime then None else Some(OpenSource))
    case OpenSource => s.(visit := Some(MakeDestination))
    case MakeDestination => s.(secondary := Some(File([], now)), visit := Some(Fill))
    case Fill =>
      s.(secondary := if s.secondary.Some? then Some(File(s.local.value.data, now)) else None, visit := None)
  }

  /** The calls of a prefetch. */
  function Fetched(s: Spot, now: int): Spot {
    match s.fetch
    case NoFetch => s
    case Wanted(p) => s.(fetch := if s.secondary.Some? then Reading(p, s.secondary.value.data) else NoFetch)
    case Reading(p, data) => s.(local := Some(File([], now)), fetch := Writing(p, data))
    case Writing(_, data) =>
      var bytes := if s.secondary.Some? then s.secondary.value.data else data;
      s.(local := if s.local.Some? then Some(File(bytes, now)) else None, fetch := NoFetch)
  }

  /** A prefetch would copy. */
  predicate Older(s: Spot) {
    s.secondary.Some? && (s.local.Some? ==> s.local.value.mtime < s.secondary.value.mtime)
  }

  /** One step of an exporter or of a prefetch, as the path sees it. */
  predicate Moves(s: Spot, s': Spot, p: Path, now: int) {
    || s' == s
    || s' == s.(watched := false)
    || (s.watched && s.local.Some? && s' == s.(visit := Some(SeeDestination)))
    || (s.visit.Some? && s.watched && s.local.Some? && s' == Called(s, now))
    || (s.fetch.NoFetch? && Older(s) && s' == s.(fetch := Wanted(p)))
    || s' == Fetched(s, now)
  }

  /** A visit elsewhere does not concern the path. */
  lemma CallElsewhere(w: World, i: nat, now: int, p: Path)
    requires Safe(w) && i < |w.hosts| && w.hosts[i].phase.Visiting? && w.hosts[i].phase.path != p
    ensures SpotOf(Visit(w, i, now), p) == SpotOf(w, p)
  {
    assert HostOk(w, i);
    VisitEffect(w, i, now);
    assert Lookup(Visit(w, i, now).secondary, p) == Lookup(w.secondary, p);
  }

  lemma CallHere(w: World, i: nat, now: int)
    requires i < |w.hosts| && w.hosts[i].phase.Visiting? && w.owner(w.hosts[i].phase.path) == i
    requires w.hosts[i].phase.path in w.hosts[i].local
    ensures var p := w.hosts[i].phase.path; SpotOf(Visit(w, i, now), p) == Called(SpotOf(w, p), now)
  {
    match w.hosts[i].phase.call
    case SeeDestination =>
    case StampSource =>
    case StampDestination(_) =>
    case OpenSource =>
    case MakeDestination =>
    case Fill =>
  }

  lemma CallMoves(w: World, i: nat, now: int, p: Path)
    requires Safe(w) && i < |w.hosts| && w.hosts[i].phase.Visiting?
    ensures Moves(SpotOf(w, p), SpotOf(Visit(w, i, now), p), p, now)
  {
    assert HostOk(w, i);
    if w.hosts[i].phase.path != p {
      CallElsewhere(w, i, now, p);
    } else {
      CallHere(w, i, now);
    }
  }

  lemma FetchMoves(w: World, i: nat, now: int, p: Path)
    requires Safe(w) && i < |w.hosts|
    ensures Moves(SpotOf(w, p), SpotOf(FetchOn(w, i, now), p), p, now)
  {
    assert HostOk(w, i);
  }

  lemma NextMoves(w: World, i: nat, q: Path, p: Path)
    requires Safe(w)
    ensures Moves(SpotOf(w, p), SpotOf(Do(w, ScanNext(i, q)), p), p, 0)
  {
    assert HostOk(w, w.owner(p));
  }

  lemma EndMoves(w: World, e: Event, p: Path)
    requires Safe(w) && (e.ScanStart? || e.ScanEnd?)
    ensures Moves(SpotOf(w, p), SpotOf(Do(w, e), p), p, 0)
  {
  }

  lemma BeginMoves(w: World, q: Path, p: Path)
    requires Safe(w)
    ensures Moves(SpotOf(w, p), SpotOf(Do(w, FetchBegin(q)), p), p, 0)
  {
  }

  lemma StepMoves(w: World, e: Event, p: Path) returns (now: int)
    requires Safe(w) && Background(e)
    ensures Moves(SpotOf(w, p), SpotOf(Do(w, e), p), p, now)
  {
    now := 0;
    match e
    case ScanCall(i, t) =>
      if i < |w.hosts| && w.hosts[i].phase.Visiting? {
        CallMoves(w, i, t, p);
        now := t;
      }
    case FetchCall(i, t) =>
      if i < |w.hosts| {
        FetchMoves(w, i, t, p);
        now := t;
      }
    case FetchBegin(q) => BeginMoves(w, q, p);
    case ScanNext(i, q) => NextMoves(w, i, q, p);
    case _ => EndMoves(w, e, p);
  }

  // ----- bytes that stay -----

  function StampOf(file: Option<File>): Option<int> {
    if file.Some? then Some(file.value.mtime) else None
  }

  /** The path is registered and has bytes, and its two copies have different time stamps, or one is missing. */
  predicate Exposed(s: Spot) {
    s.watched && s.Seen().Some? && s.Seen() != Some([]) && StampOf(s.local) != StampOf(s.secondary)
  }

  /** Only an unfinished prefetch can show anything but the secondary bytes, and no pass comes. */
  predicate Mirrored(s: Spot, file: File) {
    && !s.watched && s.secondary == Some(file)
    && (s.local.Some? ==> s.local.value.data == file.data || s.fetch.Writing?)
  }

  /** There is nothing to copy, either way. */
  predicate Frozen(s: Spot, s0: Spot) {
    && s.local == s0.local && s.secondary == s0.secondary && !Older(s) && s.fetch.NoFetch?
    && (s.watched && s.local.Some? ==> StampOf(s.local) == StampOf(s.secondary))
    && (s.visit.Some? ==>
         s.visit.value.SeeDestination? || s.visit.value.StampSource? ||
         (s.visit.value.StampDestination? && Some(s.visit.value.source) == StampOf(s.local)))
  }

  /** There is a file, and nothing but no bytes can be copied. */
  predicate Emptied(s: Spot) {
    && (s.local.Some? || s.secondary.Some?)
    && (s.local.Some? ==> s.local.value.data == [])
    && (s.secondary.Some? ==> s.secondary.value.data == [] || !Older(s))
    && (!s.fetch.NoFetch? ==> s.secondary.Some? && s.secondary.value.data == [])
  }

  predicate Kept(s0: Spot, s: Spot) {
    if s0.Seen() == Some([]) then Emptied(s)
    else if Older(s0) then Mirrored(s, s0.secondary.value)
    else Frozen(s, s0)
  }

  lemma MoveKeeps(s0: Spot, s: Spot, s': Spot, p: Path, now: int)
    requires !Exposed(s0) && Kept(s0, s) && Moves(s, s', p, now)
    ensures Kept(s0, s')
  {
  }

  lemma {:induction false} RunKeeps(w: World, es: seq<Event>, p: Path, s0: Spot)
    requires Safe(w) && !Exposed(s0) && Kept(s0, SpotOf(w, p)) && forall e :: e in es ==> Background(e)
    ensures Kept(s0, SpotOf(Run(w, es), p))
    decreases |es|
  {
    if es != [] {
      assert es[0] in es;
      var now := StepMoves(w, es[0], p);
      MoveKeeps(s0, SpotOf(w, p), SpotOf(Do(w, es[0]), p), p, now);
      StepKeepsSafe(w, es[0]);
      RunKeeps(Do(w, es[0]), es[1..], p, s0);
    }
  }

  /** Whatever the exporters and the prefetches do: once both are done with it, a path that is not exposed
      shows the bytes that it did. */
  lemma BytesStay(w: World, es: seq<Event>, p: Path)
    requires Quiescent(w) && !Exposed(SpotOf(w, p)) && Agree(SpotOf(w, p).local, SpotOf(w, p).secondary)
    requires (forall e :: e in es ==> Background(e)) && SpotOf(Run(w, es), p).Still()
    ensures SpotOf(Run(w, es), p).Seen() == SpotOf(w, p).Seen()
  {
    RunKeeps(w, es, p, SpotOf(w, p));
  }

  // ----- a run in which they are lost -----

  /** Only server `i` and the secondary tier differ. */
  function With(w: World, i: nat, h: Host, secondary: Tier): World
    requires i < |w.hosts|
  {
    w.(hosts := w.hosts[i := h], secondary := secondary)
  }

  /** A step at the time `t`, if it has one. */
  predicate Happens(e: Event, t: int) {
    Background(e) && (e.ScanCall? || e.FetchCall? ==> e.now == t)
  }

  /** The run `es` at the time `t` leads from the one state of server `i` and the secondary tier to the other. */
  ghost predicate Leads(w: World, i: nat, h: Host, sec: Tier, es: seq<Event>, t: int, h': Host, sec': Tier)
    requires Interleaving.Routed(w) && i < |w.hosts|
  {
    Run(With(w, i, h, sec), es) == With(w, i, h', sec') && forall e :: e in es ==> Happens(e, t)
  }

  lemma LeadsStep(w: World, i: nat, h: Host, sec: Tier, e: Event, t: int, h': Host, sec': Tier)
    requires Interleaving.Routed(w) && i < |w.hosts| && Happens(e, t)
    requires Do(With(w, i, h, sec), e) == With(w, i, h', sec')
    ensures Leads(w, i, h, sec, [e], t, h', sec')
  {
    RunOne(With(w, i, h, sec), e);
  }

  lemma LeadsThen(w: World, i: nat, h: Host, sec: Tier, es: seq<Event>, t: int, h1: Host, sec1: Tier,
                  fs: seq<Event>, h2: Host, sec2: Tier)
    requires Interleaving.Routed(w) && i < |w.hosts|
    requires Leads(w, i, h, sec, es, t, h1, sec1) && Leads(w, i, h1, sec1, fs, t, h2, sec2)
    ensures Leads(w, i, h, sec, es + fs, t, h2, sec2)
  {
    RunThen(With(w, i, h, sec), es, fs);
  }

  lemma CallLeads(w: World, i: nat, h: Host, sec: Tier, t: int, h': Host, sec': Tier)
    requires Interleaving.Routed(w) && i < |w.hosts| && h.phase.Visiting?
    requires Visit(With(w, i, h, sec), i, t) == With(w, i, h', sec')
    ensures Leads(w, i, h, sec, [ScanCall(i, t)], t, h', sec')
  {
    LeadsStep(w, i, h, sec, ScanCall(i, t), t, h', sec');
  }

  lemma FetchLeads(w: World, i: nat, h: Host, sec: Tier, t: int, h': Host)
    requires Interleaving.Routed(w) && i < |w.hosts| && Fetching(h, sec, t) == h'
    ensures Leads(w, i, h, sec, [FetchCall(i, t)], t, h', sec)
  {
    LeadsStep(w, i, h, sec, FetchCall(i, t), t, h', sec);
  }

  /** The exporter starts a pass with this path. */
  lemma PassStarts(w: World, h: Host, sec: Tier, p: Path, t: int) returns (es: seq<Event>, h': Host)
    requires Interleaving.Routed(w) && h.phase.Idle? && p in h.registered && p in h.local
    ensures h' == h.(phase := Visiting(p, SeeDestination, h.registered - {p}, {}))
    ensures Leads(w, w.owner(p), h, sec, es, t, h', sec)
  {
    var i := w.owner(p);
    var h1 := h.(phase := Scanning(h.registered, {}));
    h' := h.(phase := Visiting(p, SeeDestination, h.registered - {p}, {}));
    LeadsStep(w, i, h, sec, ScanStart(i), t, h1, sec);
    LeadsStep(w, i, h1, sec, ScanNext(i, p), t, h', sec);
    es := [ScanStart(i)] + [ScanNext(i, p)];
    LeadsThen(w, i, h, sec, [ScanStart(i)], t, h1, sec, [ScanNext(i, p)], h', sec);
  }

  /** The visit decides to copy. */
  lemma VisitDecides(w: World, i: nat, h: Host, sec: Tier, p: Path, todo: set<Path>, t: int)
      returns (es: seq<Event>, h': Host)
    requires Interleaving.Routed(w) && i < |w.hosts| && h.phase == Visiting(p, SeeDestination, todo, {}) && p in h.local
    requires p in sec ==> sec[p].mtime < h.local[p].mtime
    ensures h' == h.(phase := Visiting(p, OpenSource, todo, {})) && Leads(w, i, h, sec, es, t, h', sec)
  {
    h' := h.(phase := Visiting(p, OpenSource, todo, {}));
    var e := [ScanCall(i, t)];
    if p in sec {
      var h1 := h.(phase := Visiting(p, StampSource, todo, {}));
      var h2 := h.(phase := Visiting(p, StampDestination(h.local[p].mtime), todo, {}));
      CallLeads(w, i, h, sec, t, h1, sec);
      CallLeads(w, i, h1, sec, t, h2, sec);
      CallLeads(w, i, h2, sec, t, h', sec);
      LeadsThen(w, i, h, sec, e, t, h1, sec, e, h2, sec);
      LeadsThen(w, i, h, sec, e + e, t, h2, sec, e, h', sec);
      es := e + e + e;
    } else {
      CallLeads(w, i, h, sec, t, h', sec);
      es := e;
    }
  }

  /** The visit empties the secondary file. */
  lemma VisitEmpties(w: World, i: nat, h: Host, sec: Tier, p: Path, todo: set<Path>, t: int)
      returns (es: seq<Event>, h': Host, sec': Tier)
    requires Interleaving.Routed(w) && i < |w.hosts| && h.phase == Visiting(p, OpenSource, todo, {}) && p in h.local
    ensures h' == h.(phase := Visiting(p, Fill, todo, {})) && sec' == sec[p := File([], t)]
    ensures Leads(w, i, h, sec, es, t, h', sec')
  {
    h', sec' := h.(phase := Visiting(p, Fill, todo, {})), sec[p := File([], t)];
    var h1, e := h.(phase := Visiting(p, MakeDestination, todo, {})), [ScanCall(i, t)];
    CallLeads(w, i, h, sec, t, h1, sec);
    CallLeads(w, i, h1, sec, t, h', sec');
    es := e + e;
    LeadsThen(w, i, h, sec, e, t, h1, sec, e, h', sec');
  }

  /** The visit fills the secondary file from an empty local one. */
  lemma VisitFills(w: World, i: nat, h: Host, sec: Tier, p: Path, todo: set<Path>, t: int)
      returns (h': Host, sec': Tier)
    requires Interleaving.Routed(w) && i < |w.hosts| && h.phase == Visiting(p, Fill, todo, {})
    requires p in h.local && h.local[p].data == [] && p in sec
    ensures h' == h.(phase := Scanning(todo, {})) && sec' == sec[p := File([], t)]
    ensures Leads(w, i, h, sec, [ScanCall(i, t)], t, h', sec')
  {
    h', sec' := h.(phase := Scanning(todo, {})), sec[p := File([], t)];
    CallLeads(w, i, h, sec, t, h', sec');
  }

  /** A prefetch empties the local file. */
  lemma FetchEmpties(w: World, h: Host, sec: Tier, p: Path, t: int) returns (es: seq<Event>, h': Host)
    requires Interleaving.Routed(w) && w.request.Ready? && h.fetch.NoFetch?
    requires p in sec && (p in h.local ==> h.local[p].mtime < sec[p].mtime)
    ensures h' == h.(local := h.local[p := File([], t)], fetch := Writing(p, sec[p].data))
    ensures Leads(w, w.owner(p), h, sec, es, t, h', sec)
  {
    var i, e := w.owner(p), [FetchCall(w.owner(p), t)];
    var h1, h2 := h.(fetch := Wanted(p)), h.(fetch := Reading(p, sec[p].data));
    h' := h.(local := h.local[p := File([], t)], fetch := Writing(p, sec[p].data));
    LeadsStep(w, i, h, sec, FetchBegin(p), t, h1, sec);
    FetchLeads(w, i, h1, sec, t, h2);
    FetchLeads(w, i, h2, sec, t, h');
    LeadsThen(w, i, h, sec, [FetchBegin(p)], t, h1, sec, e, h2, sec);
    es := [FetchBegin(p)] + e + e;
    LeadsThen(w, i, h, sec, [FetchBegin(p)] + e, t, h2, sec, e, h', sec);
  }

  /** The prefetch fills the local file from an empty secondary one. */
  lemma FetchFills(w: World, i: nat, h: Host, sec: Tier, p: Path, t: int) returns (h': Host)
    requires Interleaving.Routed(w) && i < |w.hosts| && h.fetch.Writing? && h.fetch.path == p
    requires p in h.local && p in sec && sec[p].data == []
    ensures h' == h.(local := h.local[p := File([], t)], fetch := NoFetch)
    ensures Leads(w, i, h, sec, [FetchCall(i, t)], t, h', sec)
  {
    h' := h.(local := h.local[p := File([], t)], fetch := NoFetch);
    FetchLeads(w, i, h, sec, t, h');
  }

  /** The path has no bytes any more, and nothing is under way with it. */
  predicate Spoilt(w: World, h: Host, sec: Tier, p: Path)
    requires w.owner(p) < |w.hosts|
  {
    && p in h.local && h.local[p].data == [] && p in sec && sec[p].data == []
    && h.phase.Scanning? && h.fetch.NoFetch?
  }

  /** The prefetch comes first: it empties the local file, a pass copies the empty file, and the prefetch
      reads what the pass wrote. */
  lemma FetchFirst(w: World, h: Host, sec: Tier, p: Path, t: int) returns (es: seq<Event>, h': Host, sec': Tier)
    requires Interleaving.Routed(w) && w.request.Ready? && h.phase.Idle? && h.fetch.NoFetch? && p in h.registered
    requires p in sec && (p in h.local ==> h.local[p].mtime < sec[p].mtime) && sec[p].mtime < t
    ensures Leads(w, w.owner(p), h, sec, es, t, h', sec') && Spoilt(w, h', sec', p)
  {
    var i := w.owner(p);
    var a, h1 := FetchEmpties(w, h, sec, p, t);
    var b, h2 := PassStarts(w, h1, sec, p, t);
    LeadsThen(w, i, h, sec, a, t, h1, sec, b, h2, sec);
    var c, h3 := VisitDecides(w, i, h2, sec, p, h.registered - {p}, t);
    LeadsThen(w, i, h, sec, a + b, t, h2, sec, c, h3, sec);
    var d, h4, sec4 := VisitEmpties(w, i, h3, sec, p, h.registered - {p}, t);
    LeadsThen(w, i, h, sec, a + b + c, t, h3, sec, d, h4, sec4);
    var h5, sec5 := VisitFills(w, i, h4, sec4, p, h.registered - {p}, t);
    LeadsThen(w, i, h, sec, a + b + c + d, t, h4, sec4, [ScanCall(i, t)], h5, sec5);
    h' := FetchFills(w, i, h5, sec5, p, t);
    sec' := sec5;
    es := a + b + c + d + [ScanCall(i, t)] + [FetchCall(i, t)];
    LeadsThen(w, i, h, sec, a + b + c + d + [ScanCall(i, t)], t, h5, sec5, [FetchCall(i, t)], h', sec');
  }

  /** The pass comes first: it empties the secondary file, which is now the newer one; a prefetch empties the
      local file, and then each reads what the other left. */
  lemma PassFirst(w: World, h: Host, sec: Tier, p: Path, t: int) returns (es: seq<Event>, h': Host, sec': Tier)
    requires Interleaving.Routed(w) && w.request.Ready? && h.phase.Idle? && h.fetch.NoFetch? && p in h.registered
    requires p in h.local && (p in sec ==> sec[p].mtime < h.local[p].mtime) && h.local[p].mtime < t
    ensures Leads(w, w.owner(p), h, sec, es, t, h', sec') && Spoilt(w, h', sec', p)
  {
    var i := w.owner(p);
    var a, h1 := PassStarts(w, h, sec, p, t);
    var b, h2 := VisitDecides(w, i, h1, sec, p, h.registered - {p}, t);
    LeadsThen(w, i, h, sec, a, t, h1, sec, b, h2, sec);
    var c, h3, sec3 := VisitEmpties(w, i, h2, sec, p, h.registered - {p}, t);
    LeadsThen(w, i, h, sec, a + b, t, h2, sec, c, h3, sec3);
    var d, h4 := FetchEmpties(w, h3, sec3, p, t);
    LeadsThen(w, i, h, sec, a + b + c, t, h3, sec3, d, h4, sec3);
    var h5, sec5 := VisitFills(w, i, h4, sec3, p, h.registered - {p}, t);
    LeadsThen(w, i, h, sec, a + b + c + d, t, h4, sec3, [ScanCall(i, t)], h5, sec5);
    h' := FetchFills(w, i, h5, sec5, p, t);
    sec' := sec5;
    es := a + b + c + d + [ScanCall(i, t)] + [FetchCall(i, t)];
    LeadsThen(w, i, h, sec, a + b + c + d + [ScanCall(i, t)], t, h5, sec5, [FetchCall(i, t)], h', sec');
  }

  // ----- the exact condition -----

  function TimeOf(e: Event): Option<int> {
    if e.ScanCall? || e.FetchCall? then Some(e.now) else None
  }

  /** The clock does not go back. */
  ghost predicate InTime(clock: int, es: seq<Event>) {
    && (forall i :: 0 <= i < |es| && TimeOf(es[i]).Some? ==> clock <= TimeOf(es[i]).value)
    && forall i, j :: 0 <= i <= j < |es| && TimeOf(es[i]).Some? && TimeOf(es[j]).Some? ==>
         TimeOf(es[i]).value <= TimeOf(es[j]).value
  }

  /** A run of exporters and prefetches alone, on a clock that does not go back, that is done with the path. */
  ghost predicate Settles(w: World, es: seq<Event>, p: Path, clock: int)
    requires Interleaving.Routed(w)
  {
    (forall e :: e in es ==> Background(e)) && InTime(clock, es) && SpotOf(Run(w, es), p).Still()
  }

  /** Some such run changes what the path shows. */
  ghost predicate CanSpoil(w: World, p: Path, clock: int)
    requires Interleaving.Routed(w)
  {
    exists es :: Settles(w, es, p, clock) && SpotOf(Run(w, es), p).Seen() != SpotOf(w, p).Seen()
  }

  /** Some such run leaves the path without bytes on both tiers. */
  ghost predicate CanLose(w: World, p: Path, clock: int)
    requires Interleaving.Routed(w)
  {
    exists es :: Settles(w, es, p, clock) && SpotOf(w, p).Seen() != Some([]) && Lost(SpotOf(Run(w, es), p))
  }

  predicate Lost(s: Spot) {
    s.local.Some? && s.local.value.data == [] && s.secondary.Some? && s.secondary.value.data == []
  }

  lemma SameTime(es: seq<Event>, t: int, clock: int)
    requires clock <= t && forall e :: e in es ==> Happens(e, t)
    ensures InTime(clock, es) && forall e :: e in es ==> Background(e)
  {
    forall k | 0 <= k < |es| ensures Happens(es[k], t) {
      assert es[k] in es;
    }
  }

  /** A time after the stamps of both copies. */
  function Later(s: Spot, clock: int): (t: int)
    ensures clock <= t && (s.local.Some? ==> s.local.value.mtime < t)
    ensures s.secondary.Some? ==> s.secondary.value.mtime < t
  {
    var late := if s.local.Some? && clock <= s.local.value.mtime then s.local.value.mtime + 1 else clock;
    if s.secondary.Some? && late <= s.secondary.value.mtime then s.secondary.value.mtime + 1 else late
  }

  lemma ExposedIsLost(w: World, p: Path, clock: int) returns (es: seq<Event>)
    requires Quiescent(w) && Exposed(SpotOf(w, p))
    ensures Settles(w, es, p, clock) && Lost(SpotOf(Run(w, es), p))
  {
    var i, t := w.owner(p), Later(SpotOf(w, p), clock);
    var h', sec';
    if Older(SpotOf(w, p)) {
      es, h', sec' := FetchFirst(w, w.hosts[i], w.secondary, p, t);
    } else {
      es, h', sec' := PassFirst(w, w.hosts[i], w.secondary, p, t);
    }
    assert With(w, i, w.hosts[i], w.secondary) == w;
    SameTime(es, t, clock);
  }

  /** An export and a prefetch that overlap can change a file's bytes, and then lose them on both tiers, though
      no client writes: exactly when the file is registered and not empty, and its two copies have different
      time stamps or one of them is missing. */
  lemma SpoilsIff(w: World, p: Path, clock: int)
    requires Quiescent(w) && Agree(SpotOf(w, p).local, SpotOf(w, p).secondary)
    ensures CanSpoil(w, p, clock) <==> Exposed(SpotOf(w, p))
    ensures CanLose(w, p, clock) <==> Exposed(SpotOf(w, p))
  {
    if es :| Settles(w, es, p, clock) && SpotOf(w, p).Seen() != Some([]) && Lost(SpotOf(Run(w, es), p)) {
      assert SpotOf(Run(w, es), p).Seen() != SpotOf(w, p).Seen();
    }
    if Exposed(SpotOf(w, p)) {
      var es := ExposedIsLost(w, p, clock);
      assert SpotOf(Run(w, es), p).Seen() == Some([]);
    } else if es :| Settles(w, es, p, clock) && SpotOf(Run(w, es), p).Seen() != SpotOf(w, p).Seen() {
      BytesStay(w, es, p);
    }
  }

  // ----- the usual state of a file -----

  /** A server's state at one path, with nothing under way. */
  function Settled(n: Node, p: Path): Spot {
    Spot(Lookup(n.server.local, p), Lookup(n.secondary, p), p in n.server.registered, None, NoFetch)
  }

  /** A pass leaves each file that it copies exposed, unless it runs in the second of the last write. */
  lemma ExportExposes(n: Node, p: Path, now: int)
    requires p in n.server.registered && NeedsExport(n, p) && n.server.local[p].data != []
    ensures Exposed(Settled(Servers.Export(n, now), p)) <==> now != n.server.local[p].mtime
  {
  }
}
