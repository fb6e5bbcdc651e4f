// The client's handles: how a server's descriptor becomes a 64-bit file handle, and the table that maps
// handles back to files.

module Handles {
  import opened Basics

  newtype Int32 = n: int | -0x8000_0000 <= n < 0x8000_0000

  newtype Addr = n: int | 0 <= n < 0x1_0000_0000

  newtype Handle = n: int | 0 <= n < 0x1_0000_0000_0000_0000

  datatype ClientFile = ClientFile(path: Path, host: string, fdOrg: Int32, fd: Handle)

  /** `(addr << 32) | fd` in 64 bits. A negative `fd` is widened with its sign, so that its upper half is
      all ones and hides the address. */
  function Pack(addr: Addr, fd: Int32): Handle {
    if fd >= 0 then (addr as int * 0x1_0000_0000 + fd as int) as Handle
    else (0x1_0000_0000_0000_0000 + fd as int) as Handle
  }

  /** The upper half of a handle is the address and the lower half the descriptor; a negative descriptor is
      the number itself, in two's complement. */
  lemma PackHalves(addr: Addr, fd: Int32)
    ensures fd >= 0 ==>
      Pack(addr, fd) as int / 0x1_0000_0000 == addr as int && Pack(addr, fd) as int % 0x1_0000_0000 == fd as int
    ensures fd < 0 ==> Pack(addr, fd) as int - 0x1_0000_0000_0000_0000 == fd as int
  {
  }

  lemma PackInjective(a: Addr, b: Addr, f: Int32, g: Int32)
    requires 0 <= f && 0 <= g && Pack(a, f) == Pack(b, g)
    ensures a == b && f == g
  {
  }

  /** A handle tells two servers apart exactly when the descriptor is not negative. */
  lemma PackTellsServersIff(a: Addr, b: Addr, fd: Int32)
    requires a != b
    ensures Pack(a, fd) != Pack(b, fd) <==> fd >= 0
  {
  }

  /** `inet_aton`, and -1 for a host that is not a dotted address. */
  function AddrToBinary(aton: string -> Option<Addr>, host: string): Addr {
    if aton(host).Some? then aton(host).value else 0xffff_ffff
  }

  // ----- the table -----

  type Files = map<Handle, ClientFile>

  const NO_FILE := ClientFile("", "", 0, 0)

  function FileFor(aton: string -> Option<Addr>, path: Path, host: string, fd: Int32): ClientFile {
    ClientFile(path, host, fd, Pack(AddrToBinary(aton, host), fd))
  }

  class HandleTable {
    var gFiles: Files

    constructor ()
      ensures gFiles == map[]
    {
      gFiles := map[];
    }

    /** Open or create succeeded on `host` with descriptor `fd`; a negative one is an error code. */
    method Opened(aton: string -> Option<Addr>, path: Path, host: string, fd: Int32) returns (fh: Option<Handle>)
      modifies this
      ensures fh.None? <==> fd < 0
      ensures fh.None? ==> gFiles == old(gFiles)
      ensures fh.Some? ==> fh.value == Pack(AddrToBinary(aton, host), fd)
      ensures fh.Some? ==> gFiles == old(gFiles)[fh.value := ClientFile(path, host, fd, fh.value)]
      ensures fh.Some? ==> gFiles == Next(aton, State(old(gFiles), map[]), Open(path, host, fd)).files
    {
      if fd < 0 {
        return None;
      }
      var file := ClientFile(path, host, fd, Pack(AddrToBinary(aton, host), fd));
      gFiles := gFiles[file.fd := file];
      return Some(file.fd);
    }

    /** What read, write, release and the other handle operations act on; a missing entry springs up empty. */
    method At(fh: Handle) returns (file: ClientFile)
      modifies this
      ensures file == if fh in old(gFiles) then old(gFiles)[fh] else NO_FILE
      ensures gFiles == old(gFiles)[fh := file]
      ensures forall aton :: gFiles == Next(aton, State(old(gFiles), map[]), Use(fh)).files
    {
      if fh !in gFiles {
        gFiles := gFiles[fh := NO_FILE];
      }
      file := gFiles[fh];
    }
  }

  // ----- runs -----

  /** `live` says which path each descriptor still open on a server was opened for. */
  datatype State = State(files: Files, live: map<(string, Int32), Path>)

  datatype Event =
    | Open(path: Path, host: string, fd: Int32)
    | Use(fh: Handle)
    | Release(host: string, fd: Int32)

  /** Release keeps the entry, so a reused descriptor finds it and overwrites it. */
  function Next(aton: string -> Option<Addr>, s: State, e: Event): State {
    match e
    case Open(p, host, fd) =>
      var file := FileFor(aton, p, host, fd);
      State(s.files[file.fd := file], s.live[(host, fd) := p])
    case Use(fh) => s.(files := s.files[fh := if fh in s.files then s.files[fh] else NO_FILE])
    case Release(host, fd) => s.(live := s.live - {(host, fd)})
  }

  /** A server never hands out a descriptor that is still open there. */
  predicate Possible(hosts: seq<string>, s: State, e: Event) {
    e.Open? ==> e.host in hosts && e.fd >= 0 && (e.host, e.fd) !in s.live
  }

  predicate PossibleRun(aton: string -> Option<Addr>, hosts: seq<string>, s: State, es: seq<Event>)
    decreases |es|
  {
    es == [] || (Possible(hosts, s, es[0]) && PossibleRun(aton, hosts, Next(aton, s, es[0]), es[1..]))
  }

  function Run(aton: string -> Option<Addr>, s: State, es: seq<Event>): State
    decreases |es|
  {
    if es == [] then s else Run(aton, Next(aton, s, es[0]), es[1..])
  }

  /** The table has, under each open descriptor's handle, the path it was opened for, its host and itself. */
  ghost predicate Sound(aton: string -> Option<Addr>, hosts: seq<string>, s: State) {
    forall host, fd :: (host, fd) in s.live ==> host in hosts && fd >= 0 && Leads(aton, s, host, fd)
  }

  ghost predicate Leads(aton: string -> Option<Addr>, s: State, host: string, fd: Int32)
    requires (host, fd) in s.live
  {
    var fh := Pack(AddrToBinary(aton, host), fd);
    fh in s.files &&
    var file := s.files[fh];
    file.path == s.live[(host, fd)] && file.host == host && file.fdOrg == fd && file.fd == fh
  }

  /** What `inet_aton` says of two hosts, the failure value being an address like any other. */
  predicate SameAddr(a: Option<Addr>, b: Option<Addr>) {
    a == b || (a.None? && b == Some(0xffff_ffff)) || (a == Some(0xffff_ffff) && b.None?)
  }

  /** Different hosts have different addresses. */
  ghost predicate DistinctAddrs(aton: string -> Option<Addr>, hosts: seq<string>) {
    forall g, h :: g in hosts && h in hosts && SameAddr(aton(g), aton(h)) ==> g == h
  }

  lemma NextSound(aton: string -> Option<Addr>, hosts: seq<string>, s: State, e: Event)
    requires DistinctAddrs(aton, hosts) && Sound(aton, hosts, s) && Possible(hosts, s, e)
    ensures Sound(aton, hosts, Next(aton, s, e))
  {
  }

  lemma {:induction false} RunSound(aton: string -> Option<Addr>, hosts: seq<string>, s: State, es: seq<Event>)
    requires DistinctAddrs(aton, hosts) && Sound(aton, hosts, s) && PossibleRun(aton, hosts, s, es)
    ensures Sound(aton, hosts, Run(aton, s, es))
    decreases |es|
  {
    if es != [] {
      NextSound(aton, hosts, s, es[0]);
      RunSound(aton, hosts, Next(aton, s, es[0]), es[1..]);
    }
  }

  const START := State(map[], map[])

  ghost predicate AlwaysSound(aton: string -> Option<Addr>, hosts: seq<string>) {
    forall es :: PossibleRun(aton, hosts, START, es) ==> Sound(aton, hosts, Run(aton, START, es))
  }

  /** Every open handle leads to its own file over every run, with descriptors reused at will, exactly
      when no two servers have the same address. */
  lemma HandlesSoundIff(aton: string -> Option<Addr>, hosts: seq<string>)
    ensures AlwaysSound(aton, hosts) <==> DistinctAddrs(aton, hosts)
  {
    if DistinctAddrs(aton, hosts) {
      forall es | PossibleRun(aton, hosts, START, es) ensures Sound(aton, hosts, Run(aton, START, es)) {
        RunSound(aton, hosts, START, es);
      }
    } else {
      var g, h :| g in hosts && h in hosts && SameAddr(aton(g), aton(h)) && g != h;
      Clash(aton, hosts, g, h);
    }
  }

  lemma Clash(aton: string -> Option<Addr>, hosts: seq<string>, g: string, h: string)
    requires g in hosts && h in hosts && SameAddr(aton(g), aton(h)) && g != h
    ensures !AlwaysSound(aton, hosts)
  {
    var es := [Open("/a", g, 3), Open("/a", h, 3)];
    var s1 := Next(aton, START, es[0]);
    var s2 := Next(aton, s1, es[1]);
    assert es[1..] == [es[1]] && es[1..][1..] == [];
    assert PossibleRun(aton, hosts, s2, []);
    assert PossibleRun(aton, hosts, s1, es[1..]);
    assert PossibleRun(aton, hosts, START, es);
    assert Run(aton, s2, []) == s2;
    assert Run(aton, s1, es[1..]) == s2;
    assert Run(aton, START, es) == s2;
    assert (g, 3 as Int32) in s2.live;
    assert s2.files[Pack(AddrToBinary(aton, g), 3)].host == h;
    assert !Leads(aton, s2, g, 3);
  }

  /** Two servers configured by name rather than by dotted address always clash. */
  lemma NamedHostsClash(aton: string -> Option<Addr>, hosts: seq<string>, g: string, h: string)
    requires g in hosts && h in hosts && g != h && aton(g).None? && aton(h).None?
    ensures !AlwaysSound(aton, hosts)
  {
    Clash(aton, hosts, g, h);
  }
}
