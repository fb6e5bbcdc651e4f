// Run without interruption, the fine-grained steps of `Interleaving` add up to the whole requests of `Servers`.

module Atomicity {
  import opened Basics
  import opened Servers
  import opened Interleaving
  import LocalFileExporters

  /** The host is that server, as far as interleaving is concerned. */
  ghost predicate Stands(h: Host, s: Server) {
    h.local == s.local && h.registered == s.registered.Keys
  }

  /** `w'` differs from `w` in server `i`, the secondary tier and the request only. */
  ghost predicate OnlyServer(w: World, w': World, i: nat)
    requires i < |w.hosts|
  {
    && w' == w.(hosts := w'.hosts, secondary := w'.secondary, request := w'.request) && |w'.hosts| == |w.hosts|
    && forall j :: 0 <= j < |w.hosts| && j != i ==> w'.hosts[j] == w.hosts[j]
  }

  /** The same event `k` times. */
  function Repeat(e: Event, k: nat): seq<Event> {
    seq(k, _ => e)
  }

  function Again(w: World, e: Event, k: nat): (w': World)
    requires Interleaving.Routed(w)
    ensures Interleaving.Routed(w')
    decreases k
  {
    if k == 0 then w else Again(Do(w, e), e, k - 1)
  }

  lemma {:induction false} RunAgain(w: World, e: Event, k: nat)
    requires Interleaving.Routed(w)
    ensures Run(w, Repeat(e, k)) == Again(w, e, k)
    decreases k
  {
    if k > 0 {
      assert Repeat(e, k)[1..] == Repeat(e, k - 1);
      RunAgain(Do(w, e), e, k - 1);
    }
  }

  lemma {:induction false} AgainThen(w: World, e: Event, j: nat, k: nat)
    requires Interleaving.Routed(w)
    ensures Again(w, e, j + k) == Again(Again(w, e, j), e, k)
    decreases j
  {
    if j > 0 {
      AgainThen(Do(w, e), e, j - 1, k);
    }
  }

  lemma AgainTwo(w: World, e: Event, w1: World, w2: World)
    requires Interleaving.Routed(w) && Interleaving.Routed(w1) && Do(w, e) == w1 && Do(w1, e) == w2
    ensures Again(w, e, 2) == w2
  {
    assert Again(w2, e, 0) == w2;
    assert Again(w1, e, 1) == w2;
  }

  lemma AgainThree(w: World, e: Event, w1: World, w2: World, w3: World)
    requires Interleaving.Routed(w) && Interleaving.Routed(w1) && Interleaving.Routed(w2)
    requires Do(w, e) == w1 && Do(w1, e) == w2 && Do(w2, e) == w3
    ensures Again(w, e, 3) == w3
  {
    AgainTwo(w1, e, w2, w3);
  }

  lemma {:induction false} AgainIdle(w: World, e: Event, k: nat)
    requires Interleaving.Routed(w) && Do(w, e) == w
    ensures Again(w, e, k) == w
    decreases k
  {
    if k > 0 {
      AgainIdle(w, e, k - 1);
    }
  }

  // ----- a scan is an export pass -----

  /** Visit one entry: see it, and make the calls of the visit. */
  function EntryEvents(i: nat, p: Path, now: int): seq<Event> {
    [ScanNext(i, p)] + Repeat(ScanCall(i, now), 6)
  }

  /** Visit the entries in this order, then erase and release the mutex. */
  function PassEvents(i: nat, order: seq<Path>, now: int): seq<Event> {
    if order == [] then [ScanEnd(i)] else EntryEvents(i, order[0], now) + PassEvents(i, order[1..], now)
  }

  /** A host at a call of the visit of `p`, with the secondary tier as it is then. */
  function AtCall(w: World, i: nat, phase: Phase, secondary: Tier): World
    requires i < |w.hosts|
  {
    WithPhase(w.(secondary := secondary), i, phase)
  }

  lemma OpenCall(w: World, i: nat, p: Path, todo: set<Path>, gone: set<Path>, now: int)
    requires Interleaving.Routed(w) && i < |w.hosts| && p in w.hosts[i].local
    ensures var w1, w2 := AtCall(w, i, Visiting(p, OpenSource, todo, gone), w.secondary),
                          AtCall(w, i, Visiting(p, MakeDestination, todo, gone), w.secondary);
      Visit(w1, i, now) == w2
  {
  }

  lemma MakeCall(w: World, i: nat, p: Path, todo: set<Path>, gone: set<Path>, now: int)
    requires Interleaving.Routed(w) && i < |w.hosts|
    ensures var w1, w2 := AtCall(w, i, Visiting(p, MakeDestination, todo, gone), w.secondary),
                          AtCall(w, i, Visiting(p, Fill, todo, gone), w.secondary[p := File([], now)]);
      Visit(w1, i, now) == w2
  {
  }

  lemma FillCall(w: World, i: nat, p: Path, todo: set<Path>, gone: set<Path>, now: int)
    requires Interleaving.Routed(w) && i < |w.hosts| && p in w.hosts[i].local
    ensures var w1, w2 := AtCall(w, i, Visiting(p, Fill, todo, gone), w.secondary[p := File([], now)]),
                          AtCall(w, i, Scanning(todo, gone), w.secondary[p := File(w.hosts[i].local[p].data, now)]);
      Visit(w1, i, now) == w2
  {
    var file := File(w.hosts[i].local[p].data, now);
    assert w.secondary[p := File([], now)][p := file] == w.secondary[p := file];
  }

  lemma ThreeCalls(w: World, i: nat, now: int, w1: World, w2: World, w3: World)
    requires Interleaving.Routed(w) && i < |w.hosts| == |w1.hosts| == |w2.hosts| && w1.owner == w.owner && w2.owner == w.owner
    requires w.hosts[i].phase.Visiting? && w1.hosts[i].phase.Visiting? && w2.hosts[i].phase.Visiting?
    requires Visit(w, i, now) == w1 && Visit(w1, i, now) == w2 && Visit(w2, i, now) == w3
    ensures Again(w, ScanCall(i, now), 3) == w3
  {
    AgainThree(w, ScanCall(i, now), w1, w2, w3);
  }

  lemma CopyVisits(w: World, i: nat, p: Path, todo: set<Path>, gone: set<Path>, now: int, w1: World, w2: World, w3: World)
    requires Interleaving.Routed(w) && i < |w.hosts| && p in w.hosts[i].local
    requires w == AtCall(w, i, Visiting(p, OpenSource, todo, gone), w.secondary)
    requires w1 == AtCall(w, i, Visiting(p, MakeDestination, todo, gone), w.secondary)
    requires w2 == AtCall(w, i, Visiting(p, Fill, todo, gone), w.secondary[p := File([], now)])
    requires w3 == AtCall(w, i, Scanning(todo, gone), w.secondary[p := File(w.hosts[i].local[p].data, now)])
    ensures Visit(w, i, now) == w1 && Visit(w1, i, now) == w2 && Visit(w2, i, now) == w3
  {
    OpenCall(w, i, p, todo, gone, now);
    MakeCall(w, i, p, todo, gone, now);
    FillCall(w, i, p, todo, gone, now);
  }

  lemma CopyTo(w: World, i: nat, p: Path, todo: set<Path>, gone: set<Path>, now: int, w3: World)
    requires Interleaving.Routed(w) && i < |w.hosts| && p in w.hosts[i].local
    requires w == AtCall(w, i, Visiting(p, OpenSource, todo, gone), w.secondary)
    requires w3 == AtCall(w, i, Scanning(todo, gone), w.secondary[p := File(w.hosts[i].local[p].data, now)])
    ensures Again(w, ScanCall(i, now), 3) == w3
  {
    var w1 := AtCall(w, i, Visiting(p, MakeDestination, todo, gone), w.secondary);
    var w2 := AtCall(w, i, Visiting(p, Fill, todo, gone), w.secondary[p := File([], now)]);
    CopyVisits(w, i, p, todo, gone, now, w1, w2, w3);
    ThreeCalls(w, i, now, w1, w2, w3);
  }

  /** The copy itself is three calls. */
  lemma CopyCalls(w: World, i: nat, now: int)
    requires Interleaving.Routed(w) && i < |w.hosts| && w.hosts[i].phase.Visiting? && w.hosts[i].phase.call.OpenSource?
    requires w.hosts[i].phase.path in w.hosts[i].local
    ensures var Visiting(p, _, todo, gone) := w.hosts[i].phase;
      Again(w, ScanCall(i, now), 3) ==
      AtCall(w, i, Scanning(todo, gone), w.secondary[p := File(w.hosts[i].local[p].data, now)])
  {
    var Visiting(p, _, todo, gone) := w.hosts[i].phase;
    var w3 := AtCall(w, i, Scanning(todo, gone), w.secondary[p := File(w.hosts[i].local[p].data, now)]);
    CopyTo(w, i, p, todo, gone, now, w3);
  }

  /** Without a secondary file one call decides to copy. */
  lemma MissingCalls(w: World, i: nat, now: int)
    requires Interleaving.Routed(w) && i < |w.hosts| && w.hosts[i].phase.Visiting? && w.hosts[i].phase.call.SeeDestination?
    requires w.hosts[i].phase.path !in w.secondary
    ensures var Visiting(p, _, todo, gone) := w.hosts[i].phase;
      Again(w, ScanCall(i, now), 1) == WithPhase(w, i, Visiting(p, OpenSource, todo, gone))
  {
    assert Again(Do(w, ScanCall(i, now)), ScanCall(i, now), 0) == Do(w, ScanCall(i, now));
  }

  /** With one, three calls compare the time stamps. */
  lemma CompareCalls(w: World, i: nat, now: int)
    requires Interleaving.Routed(w) && i < |w.hosts| && w.hosts[i].phase.Visiting? && w.hosts[i].phase.call.SeeDestination?
    requires w.hosts[i].phase.path in w.hosts[i].local && w.hosts[i].phase.path in w.secondary
    ensures var Visiting(p, _, todo, gone) := w.hosts[i].phase;
      Again(w, ScanCall(i, now), 3) ==
      WithPhase(w, i, if w.hosts[i].local[p].mtime <= w.secondary[p].mtime then Scanning(todo, gone)
                      else Visiting(p, OpenSource, todo, gone))
  {
    var Visiting(p, _, todo, gone) := w.hosts[i].phase;
    var w1 := WithPhase(w, i, Visiting(p, StampSource, todo, gone));
    var w2 := WithPhase(w, i, Visiting(p, StampDestination(w.hosts[i].local[p].mtime), todo, gone));
    ThreeCalls(w, i, now, w1, w2, Visit(w2, i, now));
  }

  lemma VisitCalls(w: World, i: nat, now: int)
    requires Interleaving.Routed(w) && i < |w.hosts| && w.hosts[i].phase.Visiting? && w.hosts[i].phase.call.SeeDestination?
    requires w.hosts[i].phase.path in w.hosts[i].local
    ensures var Visiting(p, _, todo, gone) := w.hosts[i].phase;
      var file := w.hosts[i].local[p];
      Again(w, ScanCall(i, now), 6) ==
      WithPhase(if p in w.secondary && file.mtime <= w.secondary[p].mtime then w
                else w.(secondary := w.secondary[p := File(file.data, now)]), i, Scanning(todo, gone))
  {
    var p, e := w.hosts[i].phase.path, ScanCall(i, now);
    if p !in w.secondary {
      MissingCalls(w, i, now);
      CopyThenIdle(w, i, now, 1);
    } else {
      CompareCalls(w, i, now);
      if w.hosts[i].local[p].mtime <= w.secondary[p].mtime {
        AgainThen(w, e, 3, 3);
        IdleScan(Again(w, e, 3), i, now, 3);
      } else {
        CopyThenIdle(w, i, now, 3);
      }
    }
  }

  /** If the first `k` calls decide to copy, the next three copy and the rest do nothing. */
  lemma CopyThenIdle(w: World, i: nat, now: int, k: nat)
    requires Interleaving.Routed(w) && i < |w.hosts| && w.hosts[i].phase.Visiting? && k <= 3
    requires w.hosts[i].phase.path in w.hosts[i].local
    requires var Visiting(p, _, todo, gone) := w.hosts[i].phase;
      Again(w, ScanCall(i, now), k) == WithPhase(w, i, Visiting(p, OpenSource, todo, gone))
    ensures var Visiting(p, _, todo, gone) := w.hosts[i].phase;
      Again(w, ScanCall(i, now), 6) ==
      WithPhase(w.(secondary := w.secondary[p := File(w.hosts[i].local[p].data, now)]), i, Scanning(todo, gone))
  {
    var Visiting(p, _, todo, gone) := w.hosts[i].phase;
    var e := ScanCall(i, now);
    var w1 := WithPhase(w, i, Visiting(p, OpenSource, todo, gone));
    var w2 := WithPhase(w.(secondary := w.secondary[p := File(w.hosts[i].local[p].data, now)]), i, Scanning(todo, gone));
    CopyCalls(w1, i, now);
    assert Again(w1, e, 3) == w2 by {
      assert w1.hosts[i := w1.hosts[i].(phase := Scanning(todo, gone))] == w2.hosts;
    }
    AgainThen(w, e, k, 6 - k);
    AgainThen(w1, e, 3, 3 - k);
    IdleScan(w2, i, now, 3 - k);
  }

  lemma IdleScan(w: World, i: nat, now: int, k: nat)
    requires Interleaving.Routed(w) && i < |w.hosts| && w.hosts[i].phase.Scanning?
    ensures Again(w, ScanCall(i, now), k) == w
  {
    AgainIdle(w, ScanCall(i, now), k);
  }

  lemma EntryVisited(w: World, i: nat, p: Path, now: int)
    requires Interleaving.Routed(w) && i < |w.hosts| && w.hosts[i].phase.Scanning? && p in w.hosts[i].phase.todo
    ensures var w', h := Run(w, EntryEvents(i, p, now)), w.hosts[i];
      var copied := p in h.local && (p in w.secondary ==> w.secondary[p].mtime < h.local[p].mtime);
      && OnlyServer(w, w', i) && w'.request == w.request
      && w'.hosts[i] ==
           h.(phase := Scanning(h.phase.todo - {p}, if p in h.local then h.phase.gone else h.phase.gone + {p}))
      && w'.secondary == if copied then w.secondary[p := File(h.local[p].data, now)] else w.secondary
  {
    var e := ScanCall(i, now);
    var w1 := Scan(w, i, p);
    RunThen(w, [ScanNext(i, p)], Repeat(e, 6));
    RunOne(w, ScanNext(i, p));
    RunAgain(w1, e, 6);
    if p in w.hosts[i].local {
      VisitCalls(w1, i, now);
    } else {
      IdleScan(w1, i, now, 6);
    }
  }

  ghost predicate Distinct(order: seq<Path>) {
    forall j, k :: 0 <= j < k < |order| ==> order[j] != order[k]
  }

  /** A scan of server `i` that has visited `done` and still has `order` before it. */
  ghost predicate Scanned(w: World, i: nat, n: Node, done: set<Path>, order: seq<Path>, now: int) {
    && Interleaving.Routed(w) && i < |w.hosts| && Stands(w.hosts[i], n.server) && Distinct(order)
    && w.hosts[i].phase == Scanning(set p | p in order, set p | p in done && p !in n.server.local)
    && (forall p :: p in done ==> p !in order) && done + (set p | p in order) == n.server.registered.Keys
    && w.secondary == LocalFileExporters.ExportedSoFar(n, done, now)
  }

  lemma ScannedNext(w: World, i: nat, n: Node, done: set<Path>, order: seq<Path>, now: int)
    requires Scanned(w, i, n, done, order, now) && order != []
    ensures var w' := Run(w, EntryEvents(i, order[0], now));
      Scanned(w', i, n, done + {order[0]}, order[1..], now) && OnlyServer(w, w', i) && w'.request == w.request
  {
    var p, rest := order[0], order[1..];
    assert p in order;
    EntryVisited(w, i, p, now);
    LocalFileExporters.ExportNext(n, done, p, now);
    assert (set q | q in order) - {p} == set q | q in rest;
    assert (set q | q in done + {p} && q !in n.server.local) ==
           if p in n.server.local then w.hosts[i].phase.gone else w.hosts[i].phase.gone + {p};
    assert p in w.secondary <==> Lookup(w.secondary, p).Some?;
  }

  lemma ExportedAll(n: Node, now: int)
    ensures var done := n.server.registered.Keys;
      && LocalFileExporters.ExportedSoFar(n, done, now) == Servers.Export(n, now).secondary
      && Servers.Export(n, now).server.registered.Keys == done - set p | p in done && p !in n.server.local
  {
  }

  lemma ScannedAll(w: World, i: nat, n: Node, done: set<Path>, now: int)
    requires Scanned(w, i, n, done, [], now)
    ensures var w' := Run(w, [ScanEnd(i)]);
      && OnlyServer(w, w', i) && w'.request == w.request && w'.hosts[i].phase.Idle?
      && Stands(w'.hosts[i], Servers.Export(n, now).server) && w'.secondary == Servers.Export(n, now).secondary
  {
    assert [ScanEnd(i)][1..] == [];
    var w' := Do(w, ScanEnd(i));
    assert Run(w', []) == w' && Run(w, [ScanEnd(i)]) == w';
    assert done == n.server.registered.Keys && (set p: Path | p in []) == {};
    ExportedAll(n, now);
  }

  lemma {:induction false} PassFrom(w: World, i: nat, n: Node, done: set<Path>, order: seq<Path>, now: int)
    requires Scanned(w, i, n, done, order, now)
    ensures var w' := Run(w, PassEvents(i, order, now));
      && OnlyServer(w, w', i) && w'.request == w.request && w'.hosts[i].phase.Idle?
      && Stands(w'.hosts[i], Servers.Export(n, now).server) && w'.secondary == Servers.Export(n, now).secondary
    decreases |order|
  {
    if order == [] {
      ScannedAll(w, i, n, done, now);
    } else {
      var es := EntryEvents(i, order[0], now);
      ScannedNext(w, i, n, done, order, now);
      RunThen(w, es, PassEvents(i, order[1..], now));
      PassFrom(Run(w, es), i, n, done + {order[0]}, order[1..], now);
    }
  }

  /** Whatever the order of the entries, a scan that nothing interrupts is one export pass. */
  lemma ScanIsExport(w: World, i: nat, s: Server, order: seq<Path>, now: int)
    requires Interleaving.Routed(w) && i < |w.hosts| && w.hosts[i].phase.Idle? && Stands(w.hosts[i], s)
    requires Distinct(order) && s.registered.Keys == set p | p in order
    ensures var w', n := Run(w, [ScanStart(i)] + PassEvents(i, order, now)), Servers.Export(Node(s, w.secondary), now);
      && OnlyServer(w, w', i) && w'.request == w.request && w'.hosts[i].phase.Idle?
      && Stands(w'.hosts[i], n.server) && w'.secondary == n.secondary
  {
    var n := Node(s, w.secondary);
    var es := PassEvents(i, order, now);
    assert ([ScanStart(i)] + es)[1..] == es;
    var w1 := Do(w, ScanStart(i));
    assert w1.secondary == LocalFileExporters.ExportedSoFar(n, {}, now);
    PassFrom(w1, i, n, {}, order, now);
  }

  // ----- a server's turn of an unlink -----

  /** The last two steps: look for a secondary file, and remove it. */
  lemma SecondaryRemoved(w: World, now: int)
    requires Interleaving.Routed(w) && w.request.Unlinking? && w.request.stage == 3 && w.request.host < |w.hosts|
    ensures var Unlinking(p, i, _, _) := w.request;
      Again(w, Proceed(now), 2) ==
      w.(secondary := w.secondary - {p}, request := if i + 1 < |w.hosts| then Unlinking(p, i + 1, 0, false) else Ready)
  {
    var p, i := w.request.path, w.request.host;
    var w1 := w.(request := Unlinking(p, i, 4, p in w.secondary));
    assert Do(w, Proceed(now)) == w1;
    assert p !in w.secondary ==> w.secondary - {p} == w.secondary;
    AgainTwo(w, Proceed(now), w1, Do(w1, Proceed(now)));
  }

  /** Without a local file the unlink only looks at both tiers and removes the secondary file. */
  lemma TurnWithoutLocal(w: World, now: int)
    requires Interleaving.Routed(w) && w.request.Unlinking? && w.request.stage == 0 && w.request.host < |w.hosts|
    requires Free(w, w.request.host) && w.request.path !in w.hosts[w.request.host].local
    ensures var Unlinking(p, i, _, _) := w.request;
      Again(w, Proceed(now), 3) ==
      w.(secondary := w.secondary - {p}, request := if i + 1 < |w.hosts| then Unlinking(p, i + 1, 0, false) else Ready)
  {
    var p, i := w.request.path, w.request.host;
    var w1 := w.(request := Unlinking(p, i, 3, false));
    assert Do(w, Proceed(now)) == w1;
    SecondaryRemoved(w1, now);
  }

  /** With one, two more steps unregister and remove it first. */
  lemma TurnWithLocal(w: World, now: int)
    requires Interleaving.Routed(w) && w.request.Unlinking? && w.request.stage == 0 && w.request.host < |w.hosts|
    requires Free(w, w.request.host) && w.hosts[w.request.host].phase.Idle?
    requires w.request.path in w.hosts[w.request.host].local
    ensures var Unlinking(p, i, _, _) := w.request;
      var h := w.hosts[i].(local := w.hosts[i].local - {p}, registered := w.hosts[i].registered - {p});
      Again(w, Proceed(now), 5) ==
      w.(hosts := w.hosts[i := h], secondary := w.secondary - {p},
         request := if i + 1 < |w.hosts| then Unlinking(p, i + 1, 0, false) else Ready)
  {
    var p, i, e := w.request.path, w.request.host, Proceed(now);
    var h := w.hosts[i];
    var h1 := h.(registered := h.registered - {p});
    var w1 := w.(request := Unlinking(p, i, 1, false));
    assert Do(w, e) == w1;
    var w2 := w.(hosts := w.hosts[i := h1], request := Unlinking(p, i, 2, false));
    assert Do(w1, e) == w2;
    var w3 := w.(hosts := w.hosts[i := h1.(local := h.local - {p})], request := Unlinking(p, i, 3, false));
    assert Do(w2, e) == w3 by {
      assert w2.hosts[i := h1.(local := h.local - {p})] == w3.hosts;
    }
    SecondaryRemoved(w3, now);
    AgainThree(w, e, w1, w2, w3);
    AgainThen(w, e, 3, 2);
  }

  /** On a server whose exporter is idle, an unlink's five steps, or three if there is no local file, are the
      server's Unlink, and then it is the next server's turn. */
  lemma TurnIsUnlink(w: World, s: Server, now: int)
    requires Interleaving.Routed(w) && w.request.Unlinking? && w.request.stage == 0 && w.request.host < |w.hosts|
    requires Free(w, w.request.host) && w.hosts[w.request.host].phase.Idle? && Stands(w.hosts[w.request.host], s)
    ensures var p, i := w.request.path, w.request.host;
      var w', n := Run(w, Repeat(Proceed(now), if p in s.local then 5 else 3)), Servers.Unlink(Node(s, w.secondary), p);
      && OnlyServer(w, w', i) && w'.hosts[i].phase.Idle?
      && Stands(w'.hosts[i], n.server) && w'.secondary == n.secondary
      && w'.request == if i + 1 < |w.hosts| then Unlinking(p, i + 1, 0, false) else Ready
  {
    RunAgain(w, Proceed(now), if w.request.path in s.local then 5 else 3);
    if w.request.path in s.local {
      TurnWithLocal(w, now);
    } else {
      TurnWithoutLocal(w, now);
    }
  }

  // ----- a file rename -----

  ghost predicate Renames(w: World, stage: nat) {
    Interleaving.Routed(w) && w.request.Renaming? && w.request.stage == stage && w.hosts[w.owner(w.request.source)].phase.Idle?
  }

  lemma OneStep(w: World, now: int, w': World)
    requires Interleaving.Routed(w) && w.request.Renaming? && ProceedRename(w, now) == w'
    ensures Do(w, Proceed(now)) == w'
  {
  }

  lemma ThreeSteps(w: World, now: int, w1: World, w2: World, w3: World)
    requires Interleaving.Routed(w) && Interleaving.Routed(w1) && Interleaving.Routed(w2)
    requires w.request.Renaming? && w1.request.Renaming? && w2.request.Renaming?
    requires ProceedRename(w, now) == w1 && ProceedRename(w1, now) == w2 && ProceedRename(w2, now) == w3
    ensures Again(w, Proceed(now), 3) == w3
  {
    OneStep(w, now, w1);
    OneStep(w1, now, w2);
    OneStep(w2, now, w3);
    AgainThree(w, Proceed(now), w1, w2, w3);
  }

  /** The first three steps: look for a local file, unregister it, and remove the old secondary file. */
  lemma RenameUnregisters(w: World, now: int)
    requires Renames(w, 0) && Free(w, w.owner(w.request.source))
    requires w.request.source in w.hosts[w.owner(w.request.source)].local
    ensures var Renaming(p, q, _) := w.request;
      var i := w.owner(p);
      Again(w, Proceed(now), 3) ==
      w.(hosts := w.hosts[i := w.hosts[i].(registered := w.hosts[i].registered - {p})],
         secondary := w.secondary - {p}, request := Renaming(p, q, 3))
  {
    var Renaming(p, q, _) := w.request;
    var i := w.owner(p);
    var w1 := w.(request := Renaming(p, q, 1));
    var w2 := w.(hosts := w.hosts[i := w.hosts[i].(registered := w.hosts[i].registered - {p})], request := Renaming(p, q, 2));
    ThreeSteps(w, now, w1, w2, w2.(secondary := w.secondary - {p}, request := Renaming(p, q, 3)));
  }

  /** The others, if the new name is free: make and fill the new secondary file, and remove the local file. */
  lemma RenameCopies(w: World, now: int)
    requires Renames(w, 3) && w.request.source in w.hosts[w.owner(w.request.source)].local
    requires w.request.target !in w.secondary
    ensures var Renaming(p, q, _) := w.request;
      var h := w.hosts[w.owner(p)];
      Again(w, Proceed(now), 3) ==
      w.(hosts := w.hosts[w.owner(p) := h.(local := h.local - {p})],
         secondary := w.secondary[q := File(h.local[p].data, now)], request := Ready)
  {
    var Renaming(p, q, _) := w.request;
    var h, sec := w.hosts[w.owner(p)], w.secondary;
    var made, filled := sec[q := File([], now)], sec[q := File(h.local[p].data, now)];
    assert made[q := File(h.local[p].data, now)] == filled;
    var w1 := w.(secondary := made, request := Renaming(p, q, 4));
    var w2 := w.(secondary := filled, request := Renaming(p, q, 5));
    ThreeSteps(w, now, w1, w2, w2.(hosts := w.hosts[w.owner(p) := h.(local := h.local - {p})], request := Ready));
  }

  /** If it is not, only the local file is removed. */
  lemma RenameDrops(w: World, now: int)
    requires Renames(w, 3) && w.request.source in w.hosts[w.owner(w.request.source)].local
    requires w.request.target in w.secondary
    ensures var Renaming(p, q, _) := w.request;
      var h := w.hosts[w.owner(p)];
      Again(w, Proceed(now), 3) == w.(hosts := w.hosts[w.owner(p) := h.(local := h.local - {p})], request := Ready)
  {
    var Renaming(p, q, _) := w.request;
    var h, e := w.hosts[w.owner(p)], Proceed(now);
    var w1 := w.(request := Renaming(p, q, 5));
    var w2 := w.(hosts := w.hosts[w.owner(p) := h.(local := h.local - {p})], request := Ready);
    assert ProceedRename(w, now) == w1 && ProceedRename(w1, now) == w2;
    AgainTwo(w, e, w1, w2);
    AgainThen(w, e, 2, 1);
    IdleRequest(w2, now, 1);
  }

  lemma IdleRequest(w: World, now: int, k: nat)
    requires Interleaving.Routed(w) && w.request.Ready?
    ensures Again(w, Proceed(now), k) == w
  {
    AgainIdle(w, Proceed(now), k);
  }

  /** Without a local file: see that, rename in the secondary tier, and be done. */
  lemma RenameSecondary(w: World, now: int)
    requires Renames(w, 0) && Free(w, w.owner(w.request.source))
    requires w.request.source !in w.hosts[w.owner(w.request.source)].local
    ensures var Renaming(p, q, _) := w.request;
      Again(w, Proceed(now), 6) ==
      w.(secondary := if p in w.secondary && p != q then (w.secondary - {p})[q := w.secondary[p]] else w.secondary,
         request := Ready)
  {
    var Renaming(p, q, _) := w.request;
    var e := Proceed(now);
    var w1 := w.(request := Renaming(p, q, 6));
    var w2 := w.(secondary := if p in w.secondary && p != q then (w.secondary - {p})[q := w.secondary[p]] else w.secondary,
                 request := Ready);
    assert Do(w, e) == w1;
    assert Do(w1, e) == w2;
    AgainTwo(w, e, w1, w2);
    AgainThen(w, e, 2, 4);
    IdleRequest(w2, now, 4);
  }

  lemma RenameLocal(w: World, now: int)
    requires Renames(w, 0) && Free(w, w.owner(w.request.source))
    requires w.request.source in w.hosts[w.owner(w.request.source)].local
    ensures var Renaming(p, q, _) := w.request;
      var i, sec := w.owner(p), w.secondary - {p};
      var h := w.hosts[i].(local := w.hosts[i].local - {p}, registered := w.hosts[i].registered - {p});
      Again(w, Proceed(now), 6) ==
      w.(hosts := w.hosts[i := h], secondary := if q in sec then sec else sec[q := File(w.hosts[i].local[p].data, now)],
         request := Ready)
  {
    var e := Proceed(now);
    AgainThen(w, e, 3, 3);
    RenameUnregisters(w, now);
    var w3 := Again(w, e, 3);
    if w.request.target in w3.secondary {
      RenameDrops(w3, now);
    } else {
      RenameCopies(w3, now);
    }
  }

  /** With the owner's exporter idle, the steps of a rename are the server's Rename. */
  lemma StepsAreRename(w: World, s: Server, now: int)
    requires Renames(w, 0) && Free(w, w.owner(w.request.source)) && Stands(w.hosts[w.owner(w.request.source)], s)
    ensures var Renaming(p, q, _) := w.request;
      var w', n := Run(w, Repeat(Proceed(now), 6)), Servers.Rename(Node(s, w.secondary), p, q, now).0;
      && OnlyServer(w, w', w.owner(p)) && w'.request.Ready? && w'.hosts[w.owner(p)].phase.Idle?
      && Stands(w'.hosts[w.owner(p)], n.server) && w'.secondary == n.secondary
  {
    RunAgain(w, Proceed(now), 6);
    if w.request.source in s.local {
      RenameLocal(w, now);
    } else {
      RenameSecondary(w, now);
    }
  }

  // ----- a prefetch -----

  /** The steps of a prefetch are the server's. */
  lemma StepsArePrefetch(w: World, s: Server, p: Path, now: int)
    requires Interleaving.Routed(w) && Stands(w.hosts[w.owner(p)], s)
    requires w.hosts[w.owner(p)].fetch.NoFetch? && !(w.serial && Busy(w, w.owner(p)))
    ensures var i := w.owner(p);
      var w', n := Run(w, [FetchBegin(p)] + Repeat(FetchCall(i, now), 3)), Servers.Prefetch(Node(s, w.secondary), p, now);
      && OnlyServer(w, w', i) && w'.request == w.request && w'.hosts[i].fetch.NoFetch?
      && Stands(w'.hosts[i], n.server) && w'.secondary == n.secondary
  {
    var i := w.owner(p);
    var h, e, w1 := w.hosts[i], FetchCall(i, now), Do(w, FetchBegin(p));
    RunThen(w, [FetchBegin(p)], Repeat(e, 3));
    RunOne(w, FetchBegin(p));
    RunAgain(w1, e, 3);
    if w1.hosts[i].fetch.NoFetch? {
      AgainIdle(w1, e, 3);
    } else {
      FetchCalls(w1, i, now);
    }
  }

  lemma FetchStep(w: World, i: nat, now: int, h: Host, h': Host)
    requires Interleaving.Routed(w) && i < |w.hosts| && Fetching(h, w.secondary, now) == h'
    ensures Do(WithHost(w, i, h), FetchCall(i, now)) == WithHost(w, i, h')
  {
  }

  lemma FetchCalls(w: World, i: nat, now: int)
    requires Interleaving.Routed(w) && i < |w.hosts| && w.hosts[i].fetch.Wanted? && w.hosts[i].fetch.path in w.secondary
    ensures var h, p := w.hosts[i], w.hosts[i].fetch.path;
      Again(w, FetchCall(i, now), 3) ==
      WithHost(w, i, h.(local := h.local[p := File(w.secondary[p].data, now)], fetch := NoFetch))
  {
    var h, p, data := w.hosts[i], w.hosts[i].fetch.path, w.secondary[w.hosts[i].fetch.path].data;
    var h1 := h.(fetch := Reading(p, data));
    var h2 := h1.(local := h.local[p := File([], now)], fetch := Writing(p, data));
    var h3 := h.(local := h.local[p := File(data, now)], fetch := NoFetch);
    assert h.local[p := File([], now)][p := File(data, now)] == h.local[p := File(data, now)];
    assert WithHost(w, i, h) == w;
    FetchStep(w, i, now, h, h1);
    FetchStep(w, i, now, h1, h2);
    FetchStep(w, i, now, h2, h3);
    AgainThree(w, FetchCall(i, now), WithHost(w, i, h1), WithHost(w, i, h2), WithHost(w, i, h3));
  }
}
