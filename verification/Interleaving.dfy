// The exporters' scans interleaved, one file-system call at a time, with the steps of a client's unlinks and
// renames, and with prefetches. An exporter holds its server's mutex for a whole scan; a request takes it only
// to erase or insert one registration.

module Interleaving {
  import opened Basics
  import opened Servers

  /** What a visit to a registered file does next, once it has seen that the local file exists. */
  datatype Call = SeeDestination | StampSource | StampDestination(source: int) | OpenSource | MakeDestination | Fill

  /** Where a server's exporter is. `todo` are the entries still to visit, `gone` the visited ones whose local
      file had vanished. It crashes, with the mutex held, when a call throws: a time stamp of a file that is
      not there, or a copy without a source. A pass on the exporter's own thread then ends the server process; a
      pass that a request started is given up, and the mutex stays locked. */
  datatype Phase =
    | Idle
    | Scanning(todo: set<Path>, gone: set<Path>)
    | Visiting(path: Path, call: Call, todo: set<Path>, gone: set<Path>)
    | Crashed

  /** A prefetch that has decided to copy, has opened the secondary file, and has made the local one. */
  datatype Fetch = NoFetch | Wanted(path: Path) | Reading(path: Path, data: Data) | Writing(path: Path, data: Data)

  datatype Host = Host(local: Tier, registered: set<Path>, phase: Phase, fetch: Fetch)

  /** The request in progress: an unlink visits every server in turn; a rename runs on the owner. */
  datatype Request =
    | Ready
    | Unlinking(path: Path, host: nat, stage: nat, seen: bool)
    | Renaming(source: Path, target: Path, stage: nat)

  /** A serial server runs one handler at a time, as with one thread; otherwise a prefetch and another request
      can overlap on one server. */
  datatype World = World(owner: Path -> nat, hosts: seq<Host>, secondary: Tier, request: Request, serial: bool)

  /** One step of an exporter, of the client, or of a prefetch. Steps that cannot happen change nothing. */
  datatype Event =
    | ScanStart(host: nat)
    | ScanNext(host: nat, path: Path)
    | ScanCall(host: nat, now: int)
    | ScanEnd(host: nat)
    | BeginUnlink(path: Path)
    | BeginRename(source: Path, target: Path)
    | Proceed(now: int)
    | Forget(path: Path)
    | Watch(path: Path)
    | Make(path: Path, file: File)
    | FetchBegin(path: Path)
    | FetchCall(host: nat, now: int)

  ghost predicate Routed(w: World) {
    forall p :: w.owner(p) < |w.hosts|
  }

  function WithHost(w: World, i: nat, h: Host): World
    requires i < |w.hosts|
  {
    w.(hosts := w.hosts[i := h])
  }

  function WithPhase(w: World, i: nat, phase: Phase): World
    requires i < |w.hosts|
  {
    WithHost(w, i, w.hosts[i].(phase := phase))
  }

  // ----- the exporter of server i -----

  function Scan(w: World, i: nat, p: Path): World
    requires i < |w.hosts| && w.hosts[i].phase.Scanning?
  {
    var h := w.hosts[i];
    var Scanning(todo, gone) := h.phase;
    if p !in todo then w
    else if p !in h.local then WithPhase(w, i, Scanning(todo - {p}, gone + {p}))
    else WithPhase(w, i, Visiting(p, SeeDestination, todo - {p}, gone))
  }

  /** `copy_file` opens its source, creates or empties the destination, and writes; the bytes go to the file
      that was opened, and if its name is gone by then, nobody sees them. */
  function Visit(w: World, i: nat, now: int): World
    requires i < |w.hosts| && w.hosts[i].phase.Visiting?
  {
    var h, sec := w.hosts[i], w.secondary;
    var Visiting(p, call, todo, gone) := h.phase;
    match call
    case SeeDestination =>
      WithPhase(w, i, Visiting(p, if p in sec then StampSource else OpenSource, todo, gone))
    case StampSource =>
      WithPhase(w, i, if p in h.local then Visiting(p, StampDestination(h.local[p].mtime), todo, gone) else Crashed)
    case StampDestination(source) =>
      WithPhase(w, i, if p !in sec then Crashed
                      else if source <= sec[p].mtime then Scanning(todo, gone)
                      else Visiting(p, OpenSource, todo, gone))
    case OpenSource =>
      WithPhase(w, i, if p in h.local then Visiting(p, MakeDestination, todo, gone) else Crashed)
    case MakeDestination =>
      WithPhase(w.(secondary := sec[p := File([], now)]), i, Visiting(p, Fill, todo, gone))
    case Fill =>
      var filled := if p in h.local && p in sec then sec[p := File(h.local[p].data, now)] else sec;
      WithPhase(w.(secondary := filled), i, Scanning(todo, gone))
  }

  function EndScan(w: World, i: nat): World
    requires i < |w.hosts| && w.hosts[i].phase.Scanning?
  {
    var h := w.hosts[i];
    if h.phase.todo != {} then w
    else WithHost(w, i, h.(registered := h.registered - h.phase.gone, phase := Idle))
  }

  // ----- the client -----

  /** A handler other than a prefetch is under way on server `i`. */
  predicate Busy(w: World, i: nat) {
    (w.request.Unlinking? && w.request.host == i && w.request.stage > 0) ||
    (w.request.Renaming? && w.owner(w.request.source) == i && w.request.stage > 0)
  }

  /** A handler can start on server `i`. */
  predicate Free(w: World, i: nat)
    requires i < |w.hosts|
  {
    w.serial ==> w.hosts[i].fetch.NoFetch?
  }

  /** On each server: look for a local file; if there is one, unregister it (waiting for the mutex) and
      remove it; then look for a secondary file, and remove that if there was one. */
  function ProceedUnlink(w: World): World
    requires w.request.Unlinking? && w.request.host < |w.hosts|
  {
    var Unlinking(p, i, stage, seen) := w.request;
    var h := w.hosts[i];
    if stage == 0 then
      if Free(w, i) then w.(request := Unlinking(p, i, if p in h.local then 1 else 3, false)) else w
    else if stage == 1 then
      if h.phase.Idle?
      then WithHost(w, i, h.(registered := h.registered - {p})).(request := Unlinking(p, i, 2, false))
      else w
    else if stage == 2 then WithHost(w, i, h.(local := h.local - {p})).(request := Unlinking(p, i, 3, false))
    else if stage == 3 then w.(request := Unlinking(p, i, 4, p in w.secondary))
    else w.(secondary := if seen then w.secondary - {p} else w.secondary,
            request := if i + 1 < |w.hosts| then Unlinking(p, i + 1, 0, false) else Ready)
  }

  /** Rename of a file on its owner: unregister, drop the old secondary copy, copy to the new secondary
      name unless that exists, remove the local file; or rename in the secondary tier. */
  function ProceedRename(w: World, now: int): World
    requires w.request.Renaming? && w.owner(w.request.source) < |w.hosts|
  {
    var Renaming(p, q, stage) := w.request;
    var i := w.owner(p);
    var h, sec := w.hosts[i], w.secondary;
    if stage == 0 then
      if Free(w, i) then w.(request := Renaming(p, q, if p in h.local then 1 else 6)) else w
    else if stage == 1 then
      if h.phase.Idle?
      then WithHost(w, i, h.(registered := h.registered - {p})).(request := Renaming(p, q, 2))
      else w
    else if stage == 2 then w.(secondary := sec - {p}, request := Renaming(p, q, 3))
    else if stage == 3 then
      if p in h.local && q !in sec then w.(secondary := sec[q := File([], now)], request := Renaming(p, q, 4))
      else w.(request := Renaming(p, q, 5))
    else if stage == 4 then
      w.(secondary := if p in h.local && q in sec then sec[q := File(h.local[p].data, now)] else sec,
         request := Renaming(p, q, 5))
    else if stage == 5 then WithHost(w, i, h.(local := h.local - {p})).(request := Ready)
    else w.(secondary := if p in sec && p != q then (sec - {p})[q := sec[p]] else sec, request := Ready)
  }

  // ----- a prefetch on server i -----

  /** `copy_file` opens the secondary file, creates or empties the local one, and only then reads and writes:
      what the secondary file holds by then, or if its name is gone, what it held when it was opened. */
  function Fetching(h: Host, secondary: Tier, now: int): Host {
    match h.fetch
    case NoFetch => h
    case Wanted(p) => h.(fetch := if p in secondary then Reading(p, secondary[p].data) else NoFetch)
    case Reading(p, data) => h.(local := h.local[p := File([], now)], fetch := Writing(p, data))
    case Writing(p, data) =>
      var bytes := if p in secondary then secondary[p].data else data;
      h.(local := if p in h.local then h.local[p := File(bytes, now)] else h.local, fetch := NoFetch)
  }

  function FetchOn(w: World, i: nat, now: int): World
    requires i < |w.hosts|
  {
    WithHost(w, i, Fetching(w.hosts[i], w.secondary, now))
  }

  function Do(w: World, e: Event): (w': World)
    requires Routed(w)
    ensures w'.owner == w.owner && |w'.hosts| == |w.hosts| && w'.serial == w.serial
  {
    match e
    case ScanStart(i) =>
      if i < |w.hosts| && w.hosts[i].phase.Idle? then WithPhase(w, i, Scanning(w.hosts[i].registered, {})) else w
    case ScanNext(i, p) => if i < |w.hosts| && w.hosts[i].phase.Scanning? then Scan(w, i, p) else w
    case ScanCall(i, now) => if i < |w.hosts| && w.hosts[i].phase.Visiting? then Visit(w, i, now) else w
    case ScanEnd(i) => if i < |w.hosts| && w.hosts[i].phase.Scanning? then EndScan(w, i) else w
    case BeginUnlink(p) => if w.request.Ready? then w.(request := Unlinking(p, 0, 0, false)) else w
    case BeginRename(p, q) => if w.request.Ready? then w.(request := Renaming(p, q, 0)) else w
    case Proceed(now) =>
      if w.request.Unlinking? && w.request.host < |w.hosts| then ProceedUnlink(w)
      else if w.request.Renaming? then ProceedRename(w, now)
      else w
    case Forget(p) =>
      var h := w.hosts[w.owner(p)];
      if w.request.Ready? && h.phase.Idle? then WithHost(w, w.owner(p), h.(registered := h.registered - {p})) else w
    case Watch(p) =>
      var h := w.hosts[w.owner(p)];
      if w.request.Ready? && h.phase.Idle? && p in h.local
      then WithHost(w, w.owner(p), h.(registered := h.registered + {p})) else w
    case Make(p, file) =>
      var h := w.hosts[w.owner(p)];
      if w.request.Ready? then WithHost(w, w.owner(p), h.(local := h.local[p := file])) else w
    case FetchBegin(p) =>
      var h := w.hosts[w.owner(p)];
      if h.fetch.NoFetch? && !(w.serial && Busy(w, w.owner(p))) && p in w.secondary &&
         (p in h.local ==> h.local[p].mtime < w.secondary[p].mtime)
      then WithHost(w, w.owner(p), h.(fetch := Wanted(p))) else w
    case FetchCall(i, now) => if i < |w.hosts| then FetchOn(w, i, now) else w
  }

  function Run(w: World, es: seq<Event>): (w': World)
    requires Routed(w)
    ensures w'.owner == w.owner && |w'.hosts| == |w.hosts| && w'.serial == w.serial
    decreases |es|
  {
    if es == [] then w else Run(Do(w, es[0]), es[1..])
  }

  lemma {:induction false} RunThen(w: World, es: seq<Event>, fs: seq<Event>)
    requires Routed(w)
    ensures Run(w, es + fs) == Run(Run(w, es), fs)
    decreases |es|
  {
    if es == [] {
      assert es + fs == fs;
    } else {
      assert (es + fs)[1..] == es[1..] + fs;
      RunThen(Do(w, es[0]), es[1..], fs);
    }
  }

  lemma RunOne(w: World, e: Event)
    requires Routed(w)
    ensures Run(w, [e]) == Do(w, e)
  {
    assert [e][1..] == [];
  }

  // ----- what every step keeps -----

  /** A scan visits registered files only, and the one it is at is registered and exists. */
  ghost predicate PhaseOk(h: Host) {
    match h.phase
    case Idle => true
    case Scanning(todo, _) => todo <= h.registered
    case Visiting(p, _, todo, _) => todo <= h.registered && p in h.registered && p in h.local
    case Crashed => true
  }

  /** Files and prefetches are at their owners. */
  ghost predicate HostOk(w: World, i: nat)
    requires i < |w.hosts|
  {
    && PhaseOk(w.hosts[i])
    && (forall p :: p in w.hosts[i].local ==> w.owner(p) == i)
    && (!w.hosts[i].fetch.NoFetch? ==> w.owner(w.hosts[i].fetch.path) == i)
  }

  ghost predicate Absent(w: World, p: Path) {
    p !in w.secondary && forall i :: 0 <= i < |w.hosts| ==> p !in w.hosts[i].local
  }

  /** Nobody has the file, and no prefetch of it is under way. */
  ghost predicate Lost(w: World, p: Path)
    requires Routed(w)
  {
    Absent(w, p) && (var fetch := w.hosts[w.owner(p)].fetch; fetch.NoFetch? || fetch.path != p)
  }

  /** Between erasing the registration and removing the local file the path stays unregistered; on serial
      servers, once the owner has been visited the file is lost. */
  ghost predicate RequestOk(w: World)
    requires Routed(w)
  {
    match w.request
    case Ready => true
    case Unlinking(p, i, stage, seen) =>
      && i < |w.hosts| && stage <= 4
      && (stage == 2 ==> p !in w.hosts[i].registered)
      && (w.serial ==>
           && (stage > 0 ==> w.hosts[i].fetch.NoFetch?)
           && (stage >= 3 ==> p !in w.hosts[i].local)
           && (stage == 4 && w.owner(p) == i ==> (seen <==> p in w.secondary))
           && (w.owner(p) < i ==> Lost(w, p)))
    case Renaming(p, _, stage) =>
      && stage <= 6
      && (2 <= stage <= 5 ==> p !in w.hosts[w.owner(p)].registered)
      && (w.serial ==>
           && (stage > 0 ==> w.hosts[w.owner(p)].fetch.NoFetch?)
           && (stage == 6 ==> p !in w.hosts[w.owner(p)].local))
  }

  ghost predicate Safe(w: World) {
    Routed(w) && RequestOk(w) && forall i :: 0 <= i < |w.hosts| ==> HostOk(w, i)
  }

  lemma PhaseSafe(w: World, i: nat, phase: Phase)
    requires Safe(w) && i < |w.hosts| && PhaseOk(w.hosts[i].(phase := phase))
    ensures Safe(WithPhase(w, i, phase))
  {
    var w' := WithPhase(w, i, phase);
    forall j | 0 <= j < |w'.hosts| ensures HostOk(w', j) {
      assert HostOk(w, j);
    }
  }

  lemma ScanSafe(w: World, i: nat, p: Path)
    requires Safe(w) && i < |w.hosts| && w.hosts[i].phase.Scanning?
    ensures Safe(Scan(w, i, p))
  {
    assert HostOk(w, i);
    var Scanning(todo, gone) := w.hosts[i].phase;
    if p in todo {
      PhaseSafe(w, i, if p in w.hosts[i].local then Visiting(p, SeeDestination, todo - {p}, gone)
                      else Scanning(todo - {p}, gone + {p}));
    }
  }

  /** `w'` differs from `w` in the phase of server `i` and in the secondary file at `p` only. */
  ghost predicate OnlyPhase(w: World, w': World, i: nat, p: Path)
    requires i < |w.hosts|
  {
    && w' == w.(hosts := w'.hosts, secondary := w'.secondary) && |w'.hosts| == |w.hosts|
    && w'.hosts == w.hosts[i := w.hosts[i].(phase := w'.hosts[i].phase)]
    && forall q :: q != p ==> Lookup(w'.secondary, q) == Lookup(w.secondary, q)
  }

  lemma VisitEffect(w: World, i: nat, now: int)
    requires i < |w.hosts| && w.hosts[i].phase.Visiting? && PhaseOk(w.hosts[i])
    ensures OnlyPhase(w, Visit(w, i, now), i, w.hosts[i].phase.path) && PhaseOk(Visit(w, i, now).hosts[i])
  {
  }

  lemma OnlyPhaseSafe(w: World, w': World, i: nat, p: Path)
    requires Safe(w) && i < |w.hosts| && OnlyPhase(w, w', i, p) && PhaseOk(w'.hosts[i]) && p in w.hosts[i].local
    ensures Safe(w')
  {
    assert HostOk(w, i);
    forall j | 0 <= j < |w'.hosts| ensures HostOk(w', j) {
      assert HostOk(w, j);
    }
    forall q | q != p ensures q in w'.secondary <==> q in w.secondary {
      assert Lookup(w'.secondary, q) == Lookup(w.secondary, q);
    }
  }

  lemma VisitSafe(w: World, i: nat, now: int)
    requires Safe(w) && i < |w.hosts| && w.hosts[i].phase.Visiting?
    ensures Safe(Visit(w, i, now))
  {
    assert HostOk(w, i);
    VisitEffect(w, i, now);
    OnlyPhaseSafe(w, Visit(w, i, now), i, w.hosts[i].phase.path);
  }

  lemma EndScanSafe(w: World, i: nat)
    requires Safe(w) && i < |w.hosts| && w.hosts[i].phase.Scanning?
    ensures Safe(EndScan(w, i))
  {
    var w' := EndScan(w, i);
    forall j | 0 <= j < |w'.hosts| ensures HostOk(w', j) {
      assert HostOk(w, j);
    }
  }

  lemma ProceedUnlinkSafe(w: World)
    requires Safe(w) && w.request.Unlinking?
    ensures Safe(ProceedUnlink(w))
    ensures w.serial && ProceedUnlink(w).request.Ready? ==> Lost(ProceedUnlink(w), w.request.path)
  {
    var w' := ProceedUnlink(w);
    var p, i := w.request.path, w.request.host;
    forall j | 0 <= j < |w'.hosts| ensures HostOk(w', j) {
      assert HostOk(w, j);
    }
    if w.serial && w.request.stage == 4 && w.owner(p) <= i {
      assert p !in w'.secondary;
      forall j | 0 <= j < |w'.hosts| ensures p !in w'.hosts[j].local {
        assert HostOk(w, j);
      }
    }
  }

  lemma ProceedRenameSafe(w: World, now: int)
    requires Safe(w) && w.request.Renaming?
    ensures Safe(ProceedRename(w, now))
  {
    var w' := ProceedRename(w, now);
    forall j | 0 <= j < |w'.hosts| ensures HostOk(w', j) {
      assert HostOk(w, j);
    }
  }

  lemma FetchBeginSafe(w: World, p: Path)
    requires Safe(w)
    ensures Safe(Do(w, FetchBegin(p)))
  {
    var w' := Do(w, FetchBegin(p));
    forall j | 0 <= j < |w'.hosts| ensures HostOk(w', j) {
      assert HostOk(w, j);
    }
  }

  /** `w'` differs from `w` in the prefetch of server `i` and in its local file at `p` only. */
  ghost predicate OnlyFetch(w: World, w': World, i: nat, p: Path)
    requires i < |w.hosts|
  {
    && w' == w.(hosts := w'.hosts) && |w'.hosts| == |w.hosts|
    && w'.hosts == w.hosts[i := w.hosts[i].(local := w'.hosts[i].local, fetch := w'.hosts[i].fetch)]
    && (forall q :: q != p ==> (q in w'.hosts[i].local <==> q in w.hosts[i].local))
    && (p in w.hosts[i].local ==> p in w'.hosts[i].local)
    && (w'.hosts[i].fetch.NoFetch? || w'.hosts[i].fetch.path == p)
  }

  lemma FetchEffect(w: World, i: nat, now: int)
    requires i < |w.hosts| && !w.hosts[i].fetch.NoFetch?
    ensures OnlyFetch(w, FetchOn(w, i, now), i, w.hosts[i].fetch.path)
  {
  }

  lemma OnlyFetchSafe(w: World, w': World, i: nat, p: Path)
    requires Safe(w) && i < |w.hosts| && OnlyFetch(w, w', i, p)
    requires !w.hosts[i].fetch.NoFetch? && w.hosts[i].fetch.path == p
    ensures Safe(w')
  {
    assert HostOk(w, i);
    forall j | 0 <= j < |w'.hosts| ensures HostOk(w', j) {
      assert HostOk(w, j);
    }
  }

  lemma FetchCallSafe(w: World, i: nat, now: int)
    requires Safe(w) && i < |w.hosts|
    ensures Safe(FetchOn(w, i, now))
  {
    if !w.hosts[i].fetch.NoFetch? {
      FetchEffect(w, i, now);
      OnlyFetchSafe(w, FetchOn(w, i, now), i, w.hosts[i].fetch.path);
    } else {
      assert FetchOn(w, i, now).hosts == w.hosts;
    }
  }

  lemma ClientSafe(w: World, e: Event)
    requires Safe(w)
    requires e.BeginUnlink? || e.BeginRename? || e.Forget? || e.Watch? || e.Make? || e.ScanStart?
    ensures Safe(Do(w, e))
  {
    var w' := Do(w, e);
    assert w.owner("") < |w.hosts|;
    forall j | 0 <= j < |w'.hosts| ensures HostOk(w', j) {
      assert HostOk(w, j);
    }
  }

  /** Every step, of any exporter, of the client or of a prefetch, keeps the invariant. */
  lemma StepKeepsSafe(w: World, e: Event)
    requires Safe(w)
    ensures Safe(Do(w, e))
  {
    match e
    case ScanNext(i, p) => if i < |w.hosts| && w.hosts[i].phase.Scanning? { ScanSafe(w, i, p); }
    case ScanCall(i, now) => if i < |w.hosts| && w.hosts[i].phase.Visiting? { VisitSafe(w, i, now); }
    case ScanEnd(i) => if i < |w.hosts| && w.hosts[i].phase.Scanning? { EndScanSafe(w, i); }
    case Proceed(now) =>
      if w.request.Unlinking? {
        ProceedUnlinkSafe(w);
      } else if w.request.Renaming? {
        ProceedRenameSafe(w, now);
      }
    case FetchBegin(p) => FetchBeginSafe(w, p);
    case FetchCall(i, now) => if i < |w.hosts| { FetchCallSafe(w, i, now); }
    case _ => ClientSafe(w, e);
  }

  /** Nothing is under way, and every local file is at its owner. */
  ghost predicate Quiescent(w: World) {
    && Routed(w) && w.request.Ready?
    && forall i :: 0 <= i < |w.hosts| ==>
         w.hosts[i].phase.Idle? && w.hosts[i].fetch.NoFetch? && forall p :: p in w.hosts[i].local ==> w.owner(p) == i
  }

  lemma {:induction false} RunKeepsSafe(w: World, es: seq<Event>)
    requires Safe(w)
    ensures Safe(Run(w, es))
    decreases |es|
  {
    if es != [] {
      StepKeepsSafe(w, es[0]);
      RunKeepsSafe(Do(w, es[0]), es[1..]);
    }
  }

  // ----- no resurrection -----

  /** The step neither creates `p` anew nor starts to rename another file to it. */
  predicate Spares(e: Event, p: Path) {
    !(e.Make? && e.path == p) && !(e.BeginRename? && e.target == p)
  }

  ghost predicate Gone(w: World, p: Path)
    requires Routed(w)
  {
    Lost(w, p) && !(w.request.Renaming? && w.request.target == p)
  }

  lemma VisitKeepsGone(w: World, i: nat, now: int, p: Path)
    requires Safe(w) && Gone(w, p) && i < |w.hosts| && w.hosts[i].phase.Visiting?
    ensures Gone(Visit(w, i, now), p)
  {
    assert HostOk(w, i);
    VisitEffect(w, i, now);
    var w' := Visit(w, i, now);
    assert Lookup(w'.secondary, p) == Lookup(w.secondary, p);
  }

  lemma FetchKeepsGone(w: World, i: nat, now: int, p: Path)
    requires Safe(w) && Gone(w, p) && i < |w.hosts|
    ensures Gone(FetchOn(w, i, now), p)
  {
    assert HostOk(w, i);
    if !w.hosts[i].fetch.NoFetch? {
      FetchEffect(w, i, now);
    }
  }

  lemma ProceedKeepsGone(w: World, now: int, p: Path)
    requires Safe(w) && Gone(w, p)
    ensures Gone(Do(w, Proceed(now)), p)
  {
    forall j | 0 <= j < |w.hosts| ensures p !in Do(w, Proceed(now)).hosts[j].local {
    }
  }

  lemma StepKeepsGone(w: World, e: Event, p: Path)
    requires Safe(w) && Gone(w, p) && Spares(e, p)
    ensures Gone(Do(w, e), p)
  {
    match e
    case ScanCall(i, now) => if i < |w.hosts| && w.hosts[i].phase.Visiting? { VisitKeepsGone(w, i, now, p); }
    case FetchCall(i, now) => if i < |w.hosts| { FetchKeepsGone(w, i, now, p); }
    case Proceed(now) => ProceedKeepsGone(w, now, p);
    case _ =>
      forall j | 0 <= j < |w.hosts| ensures p !in Do(w, e).hosts[j].local {
      }
  }

  lemma {:induction false} RunKeepsGone(w: World, es: seq<Event>, p: Path)
    requires Safe(w) && Gone(w, p) && forall e :: e in es ==> Spares(e, p)
    ensures Gone(Run(w, es), p)
    decreases |es|
  {
    if es != [] {
      assert es[0] in es;
      StepKeepsSafe(w, es[0]);
      StepKeepsGone(w, es[0], p);
      RunKeepsGone(Do(w, es[0]), es[1..], p);
    }
  }

  /** The run `before` leads to the last step of an unlink of `p`, and `after` does not make `p` again. */
  ghost predicate Unlinks(w: World, before: seq<Event>, now: int, after: seq<Event>, p: Path)
    requires Routed(w)
  {
    && Run(w, before).request.Unlinking? && Run(w, before).request.path == p
    && Run(w, before + [Proceed(now)]).request.Ready?
    && forall e :: e in after ==> Spares(e, p)
  }

  /** After any run on serial servers, let a step complete an unlink of `p`. From then on `p` is on no tier,
      whatever the exporters, prefetches and later requests do, until it is created anew or something is
      renamed to it. */
  lemma NoResurrection(w: World, before: seq<Event>, now: int, after: seq<Event>, p: Path)
    requires Quiescent(w) && w.serial && Unlinks(w, before, now, after, p)
    ensures Absent(Run(w, before + [Proceed(now)] + after), p)
  {
    var mid := Run(w, before);
    RunKeepsSafe(w, before);
    RunThen(w, before, [Proceed(now)]);
    RunOne(mid, Proceed(now));
    ProceedUnlinkSafe(mid);
    RunKeepsGone(Do(mid, Proceed(now)), after, p);
    RunThen(w, before + [Proceed(now)], after);
  }
}
