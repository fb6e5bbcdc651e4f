// What can go wrong between an exporter's calls and the steps of a request, and exactly when: an exporter that
// crashes with its mutex held, an unlink that waits for ever, and a file that comes back.

module Hazards {
  import opened Basics
  import opened Servers
  import opened Interleaving
  import Atomicity

  // ----- exporters that crash -----

  /** The visit's next time stamps will be found. */
  predicate Firm(h: Host, secondary: Tier) {
    match h.phase
    case Visiting(p, call, _, _) => call.StampSource? || call.StampDestination? ==> p in secondary
    case Crashed => false
    case _ => true
  }

  /** Every registered file is local and every exporter is firm. */
  ghost predicate HostFirm(h: Host, secondary: Tier) {
    (forall p :: p in h.registered ==> p in h.local) && Firm(h, secondary)
  }

  /** Only files of the first server are being unlinked. A request has unregistered its file before it touches
      the secondary copy. */
  ghost predicate AllFirm(w: World) {
    && Safe(w) && (forall i :: 0 <= i < |w.hosts| ==> HostFirm(w.hosts[i], w.secondary))
    && match w.request
       case Ready => true
       case Unlinking(p, i, stage, _) => w.owner(p) == 0 && ((i == 0 && stage <= 1) || p !in w.hosts[0].registered)
       case Renaming(p, _, stage) => stage >= 2 ==> p !in w.hosts[w.owner(p)].registered
  }

  lemma VisitFirm(w: World, i: nat, now: int)
    requires AllFirm(w) && i < |w.hosts| && w.hosts[i].phase.Visiting?
    ensures AllFirm(Visit(w, i, now))
  {
    VisitSafe(w, i, now);
    assert HostOk(w, i);
    var w' := Visit(w, i, now);
    VisitEffect(w, i, now);
    forall j | 0 <= j < |w'.hosts| ensures HostFirm(w'.hosts[j], w'.secondary) {
      assert HostOk(w, j) && HostFirm(w.hosts[j], w.secondary);
      if j != i && w.hosts[j].phase.Visiting? {
        assert Lookup(w'.secondary, w.hosts[j].phase.path) == Lookup(w.secondary, w.hosts[j].phase.path);
      }
    }
  }

  lemma UnlinkFirm(w: World)
    requires AllFirm(w) && w.request.Unlinking?
    ensures AllFirm(ProceedUnlink(w))
  {
    ProceedUnlinkSafe(w);
    var w' := ProceedUnlink(w);
    forall j | 0 <= j < |w'.hosts| ensures HostFirm(w'.hosts[j], w'.secondary) {
      assert HostOk(w, j) && HostFirm(w.hosts[j], w.secondary);
    }
  }

  lemma RenameFirm(w: World, now: int)
    requires AllFirm(w) && w.request.Renaming?
    ensures AllFirm(ProceedRename(w, now))
  {
    ProceedRenameSafe(w, now);
    var w' := ProceedRename(w, now);
    forall j | 0 <= j < |w'.hosts| ensures HostFirm(w'.hosts[j], w'.secondary) {
      assert HostOk(w, j) && HostFirm(w.hosts[j], w.secondary);
    }
  }

  /** The step does not start to unlink a file of another server than the first. */
  predicate UnlinksFirst(owner: Path -> nat, e: Event) {
    e.BeginUnlink? ==> owner(e.path) == 0
  }

  lemma FetchFirm(w: World, i: nat, now: int)
    requires AllFirm(w) && i < |w.hosts|
    ensures AllFirm(FetchOn(w, i, now))
  {
    FetchCallSafe(w, i, now);
    if !w.hosts[i].fetch.NoFetch? {
      FetchEffect(w, i, now);
      var w' := FetchOn(w, i, now);
      forall j | 0 <= j < |w'.hosts| ensures HostFirm(w'.hosts[j], w'.secondary) {
        assert HostFirm(w.hosts[j], w.secondary);
      }
    }
  }

  lemma OtherFirm(w: World, e: Event)
    requires AllFirm(w) && UnlinksFirst(w.owner, e) && !e.ScanCall? && !e.Proceed? && !e.FetchCall?
    ensures AllFirm(Do(w, e))
  {
    StepKeepsSafe(w, e);
    var w' := Do(w, e);
    OtherSteps(w, e);
    forall j | 0 <= j < |w'.hosts| ensures HostFirm(w'.hosts[j], w'.secondary) {
      assert HostFirm(w.hosts[j], w.secondary);
    }
  }

  /** Such a step removes no file and registers nothing that is not local. */
  lemma OtherSteps(w: World, e: Event)
    requires Interleaving.Routed(w) && !e.ScanCall? && !e.Proceed? && !e.FetchCall?
    ensures var w' := Do(w, e);
      w'.secondary == w.secondary && (w'.request == w.request || w.request.Ready?)
    ensures var w' := Do(w, e);
      w'.request.Unlinking? && w.request.Ready? ==> e.BeginUnlink? && w'.request == Unlinking(e.path, 0, 0, false)
    ensures var w' := Do(w, e); w'.request.Renaming? && w.request.Ready? ==> w'.request.stage == 0
    ensures var w' := Do(w, e); forall j :: 0 <= j < |w.hosts| ==> var h, h' := w.hosts[j], w'.hosts[j];
      && (forall p :: p in h.local ==> p in h'.local)
      && (forall p :: p in h'.registered ==> p in h.registered || (e.Watch? && p in h'.local && w.request.Ready?))
      && (h'.phase == h.phase || h'.phase.Idle? || h'.phase.Scanning? ||
          (h'.phase.Visiting? && h'.phase.call.SeeDestination?))
  {
    assert w.owner("") < |w.hosts|;
  }

  lemma StepKeepsFirm(w: World, e: Event)
    requires AllFirm(w) && UnlinksFirst(w.owner, e)
    ensures AllFirm(Do(w, e))
  {
    match e
    case ScanCall(i, now) => if i < |w.hosts| && w.hosts[i].phase.Visiting? { VisitFirm(w, i, now); }
    case FetchCall(i, now) => if i < |w.hosts| { FetchFirm(w, i, now); }
    case Proceed(now) =>
      if w.request.Unlinking? {
        UnlinkFirm(w);
      } else if w.request.Renaming? {
        RenameFirm(w, now);
      }
    case _ => OtherFirm(w, e);
  }

  lemma {:induction false} RunKeepsFirm(w: World, es: seq<Event>)
    requires AllFirm(w) && forall e :: e in es ==> UnlinksFirst(w.owner, e)
    ensures AllFirm(Run(w, es))
    decreases |es|
  {
    if es != [] {
      assert es[0] in es;
      StepKeepsFirm(w, es[0]);
      RunKeepsFirm(Do(w, es[0]), es[1..]);
    }
  }

  /** Nothing is under way, and what is registered is local, as after a restart. */
  ghost predicate AtRest(w: World) {
    Quiescent(w) && forall i, p :: 0 <= i < |w.hosts| && p in w.hosts[i].registered ==> p in w.hosts[i].local
  }

  /** Renames, writes, prefetches, and unlinks of files of the first server: no exporter crashes, however many
      handlers a server runs at once. */
  lemma ExportersDoNotCrash(w: World, es: seq<Event>, i: nat)
    requires AtRest(w) && i < |w.hosts| && forall e :: e in es ==> UnlinksFirst(w.owner, e)
    ensures !Run(w, es).hosts[i].phase.Crashed?
  {
    RunKeepsFirm(w, es);
    assert HostFirm(Run(w, es).hosts[i], Run(w, es).secondary);
  }

  // ----- a run in which one does -----

  /** `p` is local on its owner, registered and newer than its secondary copy; nothing else exists. */
  function Ripe(owner: Path -> nat, n: nat, p: Path, serial: bool): World
    requires owner(p) < n
  {
    World(owner, seq(n, i => if i == owner(p) then Host(map[p := File("b", 2)], {p}, Idle, NoFetch)
                             else Host(map[], {}, Idle, NoFetch)),
          map[p := File("a", 1)], Ready, serial)
  }

  /** The owner's exporter has seen both files. */
  function AboutToStamp(w: World, p: Path): World
    requires w.owner(p) < |w.hosts|
  {
    WithPhase(w, w.owner(p), Visiting(p, StampSource, {}, {}))
  }

  lemma ScanSteps(owner: Path -> nat, n: nat, p: Path, serial: bool)
    requires (forall q :: owner(q) < n)
    ensures var o, w := owner(p), Ripe(owner, n, p, serial);
      Run(w, [ScanStart(o), ScanNext(o, p), ScanCall(o, 3)]) == AboutToStamp(w, p)
  {
    var o, w := owner(p), Ripe(owner, n, p, serial);
    var w1, w2 := WithPhase(w, o, Scanning({p}, {})), WithPhase(w, o, Visiting(p, SeeDestination, {}, {}));
    assert Do(w, ScanStart(o)) == w1;
    assert {p} - {p} == {};
    assert Do(w1, ScanNext(o, p)) == w2;
    assert Do(w2, ScanCall(o, 3)) == AboutToStamp(w, p);
    RunThree(w, ScanStart(o), ScanNext(o, p), ScanCall(o, 3), w1, w2);
  }

  lemma RunThree(w: World, a: Event, b: Event, c: Event, w1: World, w2: World)
    requires Interleaving.Routed(w) && Interleaving.Routed(w1) && Interleaving.Routed(w2)
    requires Do(w, a) == w1 && Do(w1, b) == w2
    ensures Run(w, [a, b, c]) == Do(w2, c)
  {
    assert [a, b, c][1..] == [b, c] && [b, c][1..] == [c] && [c][1..] == [];
    assert Run(w2, [c]) == Run(Do(w2, c), []);
  }

  /** An unlink's visit to the first server, which does not own the file. */
  lemma FirstVisit(w: World, p: Path)
    requires Interleaving.Routed(w) && w.request == Unlinking(p, 0, 0, false) && w.owner(p) > 0 && p in w.secondary
    requires p !in w.hosts[0].local && w.hosts[0].fetch.NoFetch?
    ensures Run(w, Atomicity.Repeat(Proceed(3), 3)) == w.(secondary := w.secondary - {p}, request := Unlinking(p, 1, 0, false))
  {
    Atomicity.RunAgain(w, Proceed(3), 3);
    Atomicity.TurnWithoutLocal(w, 3);
  }

  lemma StampCrashes(w: World, o: nat, p: Path)
    requires Interleaving.Routed(w) && o < |w.hosts| && w.hosts[o].phase == Visiting(p, StampSource, {}, {})
    requires p in w.hosts[o].local && p !in w.secondary
    ensures Run(w, [ScanCall(o, 3), ScanCall(o, 3)]).hosts[o].phase == Crashed
  {
    var e := ScanCall(o, 3);
    var w1 := Do(w, e);
    assert [e, e][1..] == [e] && [e][1..] == [];
    assert w1.hosts[o].phase.call.StampDestination? && w1.secondary == w.secondary;
    assert Run(w1, [e]) == Run(Do(w1, e), []);
  }

  function CrashEvents(o: nat, p: Path): seq<Event> {
    [ScanStart(o), ScanNext(o, p), ScanCall(o, 3)] + ([BeginUnlink(p)] + (Atomicity.Repeat(Proceed(3), 3) +
    [ScanCall(o, 3), ScanCall(o, 3)]))
  }

  lemma UnlinkCrashes(owner: Path -> nat, n: nat, p: Path, serial: bool)
    requires (forall q :: owner(q) < n) && owner(p) > 0
    ensures Run(Ripe(owner, n, p, serial), CrashEvents(owner(p), p)).hosts[owner(p)].phase.Crashed?
  {
    var o, w := owner(p), Ripe(owner, n, p, serial);
    var stamps := [ScanCall(o, 3), ScanCall(o, 3)];
    var w1 := AboutToStamp(w, p);
    ScanSteps(owner, n, p, serial);
    var visit := Atomicity.Repeat(Proceed(3), 3);
    RunThen(w, [ScanStart(o), ScanNext(o, p), ScanCall(o, 3)], [BeginUnlink(p)] + (visit + stamps));
    var w2 := w1.(request := Unlinking(p, 0, 0, false));
    RunThen(w1, [BeginUnlink(p)], visit + stamps);
    RunOne(w1, BeginUnlink(p));
    RunThen(w2, visit, stamps);
    FirstVisit(w2, p);
    StampCrashes(w2.(secondary := w2.secondary - {p}, request := Unlinking(p, 1, 0, false)), o, p);
  }

  /** Some run that unlinks nothing but `p` crashes an exporter. */
  ghost predicate CanCrash(owner: Path -> nat, n: nat, p: Path, serial: bool) {
    exists w: World, es: seq<Event>, i: nat ::
      && AtRest(w) && w.serial == serial && w.owner == owner && |w.hosts| == n && i < n
      && (forall e :: e in es ==> e.BeginUnlink? ==> e.path == p)
      && Run(w, es).hosts[i].phase.Crashed?
  }

  /** Unlinking `p` can crash an exporter exactly when `p` is not owned by the first server, whether or not
      servers are serial: an unlink visits the servers in order, and each one before the owner removes the
      shared secondary file without the mutex of the owner's exporter, which may be between its look at that
      file and its time stamp. */
  lemma UnlinkCrashesIff(owner: Path -> nat, n: nat, p: Path, serial: bool)
    requires forall q :: owner(q) < n
    ensures CanCrash(owner, n, p, serial) <==> owner(p) > 0
  {
    if owner(p) > 0 {
      UnlinkCrashes(owner, n, p, serial);
      var w := Ripe(owner, n, p, serial);
      assert AtRest(w);
      assert forall e :: e in CrashEvents(owner(p), p) ==> e.BeginUnlink? ==> e.path == p;
    } else if w: World, es: seq<Event>, i: nat :|
      && AtRest(w) && w.serial == serial && w.owner == owner && |w.hosts| == n && i < n
      && (forall e :: e in es ==> e.BeginUnlink? ==> e.path == p)
      && Run(w, es).hosts[i].phase.Crashed? {
      ExportersDoNotCrash(w, es, i);
    }
  }

  // ----- an unlink that waits for ever -----

  /** The exporter has crashed, or its next time stamp will. */
  predicate Doomed(h: Host, secondary: Tier) {
    h.phase.Crashed? ||
    (h.phase.Visiting? && (h.phase.call.StampSource? || h.phase.call.StampDestination?) && h.phase.path !in secondary)
  }

  /** The unlink needs the mutex of such an exporter. */
  ghost predicate Stuck(w: World) {
    w.request.Unlinking? && w.request.host < |w.hosts| && w.request.stage == 1 &&
    Doomed(w.hosts[w.request.host], w.secondary)
  }

  lemma VisitKeepsStuck(w: World, i: nat, now: int)
    requires Safe(w) && Stuck(w) && i < |w.hosts| && w.hosts[i].phase.Visiting?
    ensures Stuck(Visit(w, i, now)) && Visit(w, i, now).request == w.request
  {
    assert HostOk(w, i) && HostOk(w, w.request.host);
    VisitEffect(w, i, now);
    var h := w.hosts[w.request.host];
    if h.phase.Visiting? && i != w.request.host {
      assert Lookup(Visit(w, i, now).secondary, h.phase.path) == Lookup(w.secondary, h.phase.path);
    }
  }

  lemma StepKeepsStuck(w: World, e: Event)
    requires Safe(w) && Stuck(w)
    ensures Stuck(Do(w, e)) && Do(w, e).request == w.request
  {
    if e.ScanCall? && e.host < |w.hosts| && w.hosts[e.host].phase.Visiting? {
      VisitKeepsStuck(w, e.host, e.now);
    }
  }

  lemma {:induction false} RunKeepsStuck(w: World, es: seq<Event>)
    requires Safe(w) && Stuck(w)
    ensures Run(w, es).request == w.request
    decreases |es|
  {
    if es != [] {
      StepKeepsSafe(w, es[0]);
      StepKeepsStuck(w, es[0]);
      RunKeepsStuck(Do(w, es[0]), es[1..]);
    }
  }

  /** How many steps an exporter still takes before it releases the mutex. */
  function ScanLeft(phase: Phase): nat {
    match phase
    case Idle => 0
    case Scanning(todo, _) => 7 * |todo| + 1
    case Visiting(_, call, todo, _) => 7 * |todo| + (match call
      case SeeDestination => 7
      case StampSource => 6
      case StampDestination(_) => 5
      case OpenSource => 4
      case MakeDestination => 3
      case Fill => 2)
    case Crashed => 0
  }

  lemma VisitAdvances(w: World, i: nat, now: int)
    requires i < |w.hosts| && w.hosts[i].phase.Visiting? && PhaseOk(w.hosts[i]) && !Doomed(w.hosts[i], w.secondary)
    ensures var w' := Visit(w, i, now);
      w'.request == w.request && !Doomed(w'.hosts[i], w'.secondary) &&
      ScanLeft(w'.hosts[i].phase) < ScanLeft(w.hosts[i].phase)
  {
  }

  /** An exporter that is not doomed has a step towards releasing its mutex that leaves it undoomed. */
  lemma ExporterAdvances(w: World, i: nat) returns (e: Event)
    requires Safe(w) && i < |w.hosts| && !w.hosts[i].phase.Idle? && !Doomed(w.hosts[i], w.secondary)
    ensures var w' := Do(w, e);
      w'.request == w.request && !Doomed(w'.hosts[i], w'.secondary) &&
      ScanLeft(w'.hosts[i].phase) < ScanLeft(w.hosts[i].phase)
  {
    assert HostOk(w, i);
    var phase := w.hosts[i].phase;
    if phase.Visiting? {
      e := ScanCall(i, 0);
      VisitAdvances(w, i, 0);
    } else if phase.todo == {} {
      e := ScanEnd(i);
    } else {
      var p :| p in phase.todo;
      assert |phase.todo - {p}| == |phase.todo| - 1;
      e := ScanNext(i, p);
    }
  }

  lemma {:induction false} ExporterReleases(w: World, i: nat) returns (es: seq<Event>)
    requires Safe(w) && i < |w.hosts| && !Doomed(w.hosts[i], w.secondary)
    ensures var w' := Run(w, es); Safe(w') && w'.request == w.request && w'.hosts[i].phase.Idle?
    decreases ScanLeft(w.hosts[i].phase)
  {
    if w.hosts[i].phase.Idle? {
      es := [];
    } else {
      var e := ExporterAdvances(w, i);
      StepKeepsSafe(w, e);
      var rest := ExporterReleases(Do(w, e), i);
      es := [e] + rest;
      assert es[1..] == rest;
    }
  }

  function FetchLeft(fetch: Fetch): nat {
    match fetch
    case NoFetch => 0
    case Wanted(_) => 3
    case Reading(_, _) => 2
    case Writing(_, _) => 1
  }

  /** A prefetch always ends. */
  lemma {:induction false} FetchEnds(w: World, i: nat) returns (es: seq<Event>)
    requires Safe(w) && i < |w.hosts|
    ensures var w' := Run(w, es); Safe(w') && w'.request == w.request && w'.hosts[i].fetch.NoFetch?
    decreases FetchLeft(w.hosts[i].fetch)
  {
    if w.hosts[i].fetch.NoFetch? {
      es := [];
    } else {
      var e := FetchCall(i, 0);
      StepKeepsSafe(w, e);
      assert FetchLeft(Do(w, e).hosts[i].fetch) < FetchLeft(w.hosts[i].fetch);
      var rest := FetchEnds(Do(w, e), i);
      es := [e] + rest;
      assert es[1..] == rest;
    }
  }

  /** If it is not stuck, the unlink can take its next step, after the exporter or the prefetch it waits for. */
  lemma UnlinkMoves(w: World) returns (es: seq<Event>)
    requires Safe(w) && w.request.Unlinking? && !Stuck(w)
    ensures Run(w, es).request != w.request
  {
    var i := w.request.host;
    es := [];
    if w.request.stage == 0 {
      es := FetchEnds(w, i);
    } else if w.request.stage == 1 {
      es := ExporterReleases(w, i);
    }
    var w' := Run(w, es);
    RunThen(w, es, [Proceed(0)]);
    RunOne(w', Proceed(0));
    es := es + [Proceed(0)];
  }

  /** An unlink waits for ever, whatever else happens, exactly when it needs the mutex of an exporter that has
      crashed or is about to. The process lives on to wait if a request started the pass; after a crash on the
      exporter's own thread there is no server left to answer. */
  lemma UnlinkStuckIff(w: World)
    requires Safe(w) && w.request.Unlinking?
    ensures (forall es :: Run(w, es).request == w.request) <==> Stuck(w)
  {
    if Stuck(w) {
      forall es ensures Run(w, es).request == w.request {
        RunKeepsStuck(w, es);
      }
    } else {
      var es := UnlinkMoves(w);
    }
  }

  // ----- a file that comes back -----

  /** `p` is in the secondary tier, and nothing else exists. */
  function OnlySecondary(owner: Path -> nat, n: nat, p: Path, serial: bool): World {
    World(owner, seq(n, _ => Host(map[], {}, Idle, NoFetch)), map[p := File("a", 1)], Ready, serial)
  }

  /** A prefetch of `p` has read the secondary file. */
  function ReadBy(w: World, p: Path): World
    requires w.owner(p) < |w.hosts|
  {
    WithHost(w, w.owner(p), w.hosts[w.owner(p)].(fetch := Reading(p, "a")))
  }

  lemma FetchReads(owner: Path -> nat, n: nat, p: Path)
    requires forall q :: owner(q) < n
    ensures var w := OnlySecondary(owner, n, p, false);
      Run(w, [FetchBegin(p), FetchCall(owner(p), 2), BeginUnlink(p)]) == ReadBy(w, p).(request := Unlinking(p, 0, 0, false))
  {
    var w, o := OnlySecondary(owner, n, p, false), owner(p);
    var w1 := WithHost(w, o, w.hosts[o].(fetch := Wanted(p)));
    assert Do(w, FetchBegin(p)) == w1;
    assert Do(w1, FetchCall(o, 2)) == ReadBy(w, p);
    RunThree(w, FetchBegin(p), FetchCall(o, 2), BeginUnlink(p), w1, ReadBy(w, p));
  }

  function Visits(k: nat): seq<Event> {
    if k == 0 then [] else Atomicity.Repeat(Proceed(3), 3) + Visits(k - 1)
  }

  /** The unlink visits `k` servers, not yet the last one; none has a local file, and none waits. */
  lemma {:induction false} VisitsSome(w: World, p: Path, i: nat, k: nat)
    requires Interleaving.Routed(w) && !w.serial && i + k < |w.hosts| && w.request == Unlinking(p, i, 0, false)
    requires forall j :: 0 <= j < |w.hosts| ==> p !in w.hosts[j].local
    ensures Run(w, Visits(k)) ==
      w.(secondary := if k == 0 then w.secondary else w.secondary - {p}, request := Unlinking(p, i + k, 0, false))
    decreases k
  {
    if k > 0 {
      var turn := Atomicity.Repeat(Proceed(3), 3);
      Atomicity.RunAgain(w, Proceed(3), 3);
      Atomicity.TurnWithoutLocal(w, 3);
      RunThen(w, turn, Visits(k - 1));
      VisitsSome(w.(secondary := w.secondary - {p}, request := Unlinking(p, i + 1, 0, false)), p, i + 1, k - 1);
      assert w.secondary - {p} - {p} == w.secondary - {p};
    }
  }

  lemma UnlinkStep(w: World, now: int, w': World)
    requires Interleaving.Routed(w) && w.request.Unlinking? && w.request.host < |w.hosts| && ProceedUnlink(w) == w'
    ensures Do(w, Proceed(now)) == w'
  {
  }

  /** The step that completes the unlink. */
  lemma LastStep(w: World, p: Path, w2: World, w3: World)
    requires Interleaving.Routed(w) && w.hosts != [] && w2 == w.(request := Unlinking(p, |w.hosts| - 1, 4, p in w.secondary))
    requires w3 == w.(secondary := w.secondary - {p}, request := Ready)
    ensures Do(w2, Proceed(3)) == w3
  {
    assert p !in w.secondary ==> w.secondary - {p} == w.secondary;
    UnlinkStep(w2, 3, w3);
  }

  /** The last visit begins with two looks. */
  lemma TwoLooks(w: World, p: Path, w1: World, w2: World)
    requires Interleaving.Routed(w) && !w.serial && w.hosts != [] && w.request == Unlinking(p, |w.hosts| - 1, 0, false)
    requires p !in w.hosts[|w.hosts| - 1].local
    requires w1 == w.(request := Unlinking(p, |w.hosts| - 1, 3, false))
    requires w2 == w.(request := Unlinking(p, |w.hosts| - 1, 4, p in w.secondary))
    ensures Run(w, Atomicity.Repeat(Proceed(3), 2)) == w2
  {
    UnlinkStep(w, 3, w1);
    UnlinkStep(w1, 3, w2);
    Atomicity.AgainTwo(w, Proceed(3), w1, w2);
    Atomicity.RunAgain(w, Proceed(3), 2);
  }

  /** No run in which an unlink of `p` completes ever shows `p` again before it is made anew. */
  ghost predicate NeverComesBack(owner: Path -> nat, n: nat, p: Path, serial: bool) {
    forall w: World, before: seq<Event>, now: int, after: seq<Event> ::
      Quiescent(w) && w.owner == owner && |w.hosts| == n && w.serial == serial && Unlinks(w, before, now, after, p) ==>
      Absent(Run(w, before + [Proceed(now)] + after), p)
  }

  function BeforeLast(o: nat, n: nat, p: Path): seq<Event>
    requires n > 0
  {
    [FetchBegin(p), FetchCall(o, 2), BeginUnlink(p)] + (Visits(n - 1) + Atomicity.Repeat(Proceed(3), 2))
  }

  lemma AllVisits(w: World, p: Path)
    requires Interleaving.Routed(w) && !w.serial && w.hosts != [] && w.request == Unlinking(p, 0, 0, false)
    requires forall j :: 0 <= j < |w.hosts| ==> p !in w.hosts[j].local
    ensures var looked := Run(w, Visits(|w.hosts| - 1) + Atomicity.Repeat(Proceed(3), 2));
      && looked.request.Unlinking? && looked.request.path == p
      && Do(looked, Proceed(3)) == w.(secondary := w.secondary - {p}, request := Ready)
  {
    var w2 := w.(secondary := if |w.hosts| == 1 then w.secondary else w.secondary - {p},
                 request := Unlinking(p, |w.hosts| - 1, 0, false));
    VisitsSome(w, p, 0, |w.hosts| - 1);
    RunThen(w, Visits(|w.hosts| - 1), Atomicity.Repeat(Proceed(3), 2));
    assert w2.secondary - {p} == w.secondary - {p};
    var w4 := w2.(request := Unlinking(p, |w.hosts| - 1, 4, p in w2.secondary));
    TwoLooks(w2, p, w2.(request := Unlinking(p, |w.hosts| - 1, 3, false)), w4);
    LastStep(w2, p, w4, w.(secondary := w.secondary - {p}, request := Ready));
  }

  lemma Completes(owner: Path -> nat, n: nat, p: Path)
    requires forall q :: owner(q) < n
    ensures var w := OnlySecondary(owner, n, p, false);
      var w3 := Run(w, BeforeLast(owner(p), n, p));
      && w3.request.Unlinking? && w3.request.path == p
      && Do(w3, Proceed(3)) == ReadBy(w, p).(secondary := map[])
  {
    var w, o := OnlySecondary(owner, n, p, false), owner(p);
    var w1 := ReadBy(w, p).(request := Unlinking(p, 0, 0, false));
    FetchReads(owner, n, p);
    RunThen(w, [FetchBegin(p), FetchCall(o, 2), BeginUnlink(p)], Visits(n - 1) + Atomicity.Repeat(Proceed(3), 2));
    AllVisits(w1, p);
    assert map[p := File("a", 1)] - {p} == map[];
  }

  /** A prefetch of `p` that read the secondary file before the unlink makes the local file after it. */
  lemma PrefetchBringsBack(owner: Path -> nat, n: nat, p: Path)
    requires forall q :: owner(q) < n
    ensures var w, before, after := OnlySecondary(owner, n, p, false), BeforeLast(owner(p), n, p), [FetchCall(owner(p), 4)];
      Unlinks(w, before, 3, after, p) && !Absent(Run(w, before + [Proceed(3)] + after), p)
  {
    var w, o, before := OnlySecondary(owner, n, p, false), owner(p), BeforeLast(owner(p), n, p);
    Completes(owner, n, p);
    var w3, w4 := Run(w, before), ReadBy(w, p).(secondary := map[]);
    RunThen(w, before, [Proceed(3)]);
    RunOne(w3, Proceed(3));
    RunThen(w, before + [Proceed(3)], [FetchCall(o, 4)]);
    RunOne(w4, FetchCall(o, 4));
    FetchMakes(w4, o, p);
  }

  lemma FetchMakes(w: World, o: nat, p: Path)
    requires Interleaving.Routed(w) && o < |w.hosts| && w.hosts[o].fetch == Reading(p, "a")
    ensures !Absent(Do(w, FetchCall(o, 4)), p)
  {
    assert p in Do(w, FetchCall(o, 4)).hosts[o].local;
  }

  /** A completed unlink is final exactly on serial servers: where a server runs two handlers at once, a
      prefetch can make the file again after it is gone. One client process sends one request at a time, so the
      prefetch and the unlink come from two clients, or one is a retry after the other was given up. */
  lemma ComesBackIff(owner: Path -> nat, n: nat, p: Path, serial: bool)
    requires forall q :: owner(q) < n
    ensures NeverComesBack(owner, n, p, serial) <==> serial
  {
    if serial {
      forall w: World, before: seq<Event>, now: int, after: seq<Event> |
        Quiescent(w) && w.owner == owner && |w.hosts| == n && w.serial == serial && Unlinks(w, before, now, after, p)
        ensures Absent(Run(w, before + [Proceed(now)] + after), p)
      {
        NoResurrection(w, before, now, after, p);
      }
    } else {
      PrefetchBringsBack(owner, n, p);
      assert Quiescent(OnlySecondary(owner, n, p, false));
    }
  }
}
