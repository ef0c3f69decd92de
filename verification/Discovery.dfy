/**
 Discovery's target list: the hosts of each prefix outside the DHCP ranges and the
 excluded networks (discovery.py:160-221).
 */
module Discovery {
  import opened Prelude
  import opened Networks

  /** A DHCP scope as the server reports it; absent or empty fields are None. */
  datatype Scope = Scope(start: Option<Host>, end: Option<Host>, mask: Option<nat>)

  /** dhcp.py:36-42. */
  function ScopeNetwork(s: Scope): Option<Network> {
    if s.start.None? || s.mask.None? then None
    else
      match ParseAddr(s.start.value)
      case None => None
      case Some(a) => if Parses(Cidr(a, s.mask.value)) then Some(LooseNet(Cidr(a, s.mask.value))) else None
  }

  /** The address lies in the scope: it agrees with the scope's start up to the mask. */
  ghost predicate InScope(sc: Scope, host: Host) {
    && sc.start.Some? && sc.mask.Some?
    && match (sc.start.value, host)
       case (V4(a), V4(h)) =>
         sc.mask.value <= 32 && a < Pow2(32) && a / Pow2(32 - sc.mask.value) == h / Pow2(32 - sc.mask.value)
       case (V6(a, _), V6(h, _)) =>
         sc.mask.value <= 128 && a < Pow2(128) && a / Pow2(128 - sc.mask.value) == h / Pow2(128 - sc.mask.value)
       case _ => false
  }

  /** The network of a scope is made of the addresses in it. */
  lemma ScopeHolds(sc: Scope, host: Host)
    ensures InScope(sc, host) <==>
            && ScopeNetwork(sc).Some? && ParseAddr(host).Some?
            && Contains(ScopeNetwork(sc).value, ParseAddr(host).value)
  {
    hide Pow2, Contains, LooseNet, Parses;
    if sc.start.Some? && sc.mask.Some? && ParseAddr(sc.start.value).Some? {
      var a := ParseAddr(sc.start.value).value;
      ParsesIs(Cidr(a, sc.mask.value));
      if Parses(Cidr(a, sc.mask.value)) && ParseAddr(host).Some? {
        LooseNetHolds(a.v6, a.value, sc.mask.value, ParseAddr(host).value);
      }
    }
  }

  datatype Range = Range(lo: nat, hi: nat)

  /** What one scope contributes, or None when reading it raises. */
  function ScopeRange(s: Scope): Option<seq<Range>> {
    if s.start.Some? && s.end.Some? then
      match (ParseAddr(s.start.value), ParseAddr(s.end.value))
      case (Some(a), Some(b)) => Some([Range(a.value, b.value)])
      case _ => None
    else
      match ScopeNetwork(s)
      case Some(n) => Some([Range(n.base, Broadcast(n))])
      case None => Some([])
  }

  /** The ranges collected before the first scope that raises. */
  function DhcpRanges(scopes: seq<Scope>): seq<Range>
    decreases |scopes|
  {
    if scopes == [] || ScopeRange(scopes[0]).None? then []
    else ScopeRange(scopes[0]).value + DhcpRanges(scopes[1..])
  }

  /** The number of an address, if the text is one. */
  ghost function Number(h: Host): Option<nat> {
    match h
    case V4(n) => Some(n)
    case V6(n, _) => Some(n)
    case Junk(_) => None
  }

  /** A scope with both ends is the range between them, or raises; any other is its network, or nothing. */
  lemma RangeIs(sc: Scope)
    ensures sc.start.Some? && sc.end.Some? ==>
              match (Number(sc.start.value), Number(sc.end.value))
              case (Some(a), Some(b)) => ScopeRange(sc) == Some([Range(a, b)])
              case _ => ScopeRange(sc) == None
    ensures sc.start.None? || sc.end.None? ==>
              && ScopeRange(sc).Some?
              && forall h :: InRanges(h, ScopeRange(sc).value) <==> InScope(sc, V4(h)) || InScope(sc, V6(h, ""))
  {
    hide Contains, InScope, LooseNet, Parses, Broadcast;
    if sc.start.None? || sc.end.None? {
      forall h ensures InRanges(h, ScopeRange(sc).value) <==> InScope(sc, V4(h)) || InScope(sc, V6(h, "")) {
        ScopeHolds(sc, V4(h));
        ScopeHolds(sc, V6(h, ""));
        if ScopeNetwork(sc).Some? {
          var n := ScopeNetwork(sc).value;
          ContainsIsRange(n, Addr(false, h));
          ContainsIsRange(n, Addr(true, h));
          hide ScopeNetwork;
          OneRange(h, Range(n.base, Broadcast(n)));
        }
      }
    }
  }

  lemma OneRange(h: nat, r: Range)
    ensures InRanges(h, [r]) <==> r.lo <= h <= r.hi
  {
    assert r in [r];
  }

  /** The scopes count up to the first one that raises. */
  lemma {:induction false} RangesBeforeFailure(scopes: seq<Scope>, h: nat)
    ensures InRanges(h, DhcpRanges(scopes)) <==>
            exists i :: && 0 <= i < |scopes| && (forall j | 0 <= j <= i :: ScopeRange(scopes[j]).Some?)
                        && InRanges(h, ScopeRange(scopes[i]).value)
    decreases |scopes|
  {
    hide ScopeRange;
    if scopes != [] && ScopeRange(scopes[0]).Some? {
      RangesBeforeFailure(scopes[1..], h);
      InEither(h, ScopeRange(scopes[0]).value, DhcpRanges(scopes[1..]));
      hide InRanges, DhcpRanges;
      if i :| 0 <= i < |scopes[1..]| && (forall j | 0 <= j <= i :: ScopeRange(scopes[1..][j]).Some?)
              && InRanges(h, ScopeRange(scopes[1..][i]).value) {
        forall j | 0 <= j <= i + 1 ensures ScopeRange(scopes[j]).Some? {
          assert j > 0 ==> scopes[j] == scopes[1..][j - 1];
        }
        assert scopes[i + 1] == scopes[1..][i];
      }
      if i :| 0 < i < |scopes| && (forall j | 0 <= j <= i :: ScopeRange(scopes[j]).Some?)
              && InRanges(h, ScopeRange(scopes[i]).value) {
        forall j | 0 <= j <= i - 1 ensures ScopeRange(scopes[1..][j]).Some? {
          assert scopes[1..][j] == scopes[j + 1];
        }
        assert scopes[1..][i - 1] == scopes[i];
      }
    }
  }

  lemma InEither(h: nat, a: seq<Range>, b: seq<Range>)
    ensures InRanges(h, a + b) <==> InRanges(h, a) || InRanges(h, b)
  {
    assert forall r :: r in a + b <==> r in a || r in b;
  }

  method CollectRanges(scopes: seq<Scope>) returns (ranges: seq<Range>)
    ensures ranges == DhcpRanges(scopes)
  {
    hide ScopeRange;
    ranges := [];
    assert scopes[0..] == scopes;
    for i := 0 to |scopes|
      invariant ranges + DhcpRanges(scopes[i..]) == DhcpRanges(scopes)
    {
      assert scopes[i..][1..] == scopes[i + 1..] && scopes[i..][0] == scopes[i];
      var more := ScopeRange(scopes[i]);
      if more.None? {
        return;
      }
      ranges := ranges + more.value;
    }
  }

  predicate InRanges(h: nat, ranges: seq<Range>) {
    exists r | r in ranges :: r.lo <= h <= r.hi
  }

  predicate InNets(h: nat, nets: seq<Network>) {
    exists n | n in nets :: Contains(n, Addr(false, h))
  }

  predicate Allowed(h: nat, ranges: seq<Range>, exclude: seq<Network>) {
    !InRanges(h, ranges) && !InNets(h, exclude)
  }

  // ------------------------------------------------------------ one prefix

  /** `network.hosts()`: without network and broadcast address, except for /31 and /32. */
  function FirstHost(n: Network): nat {
    if n.len >= 31 then n.base else n.base + 1
  }

  function EndHosts(n: Network): nat {
    if n.len >= 31 then Broadcast(n) + 1 else Broadcast(n)
  }

  /** The first `room` allowed hosts from `lo` on, below `hi`. */
  function Scan(lo: nat, hi: nat, room: int, ranges: seq<Range>, exclude: seq<Network>): seq<nat>
    decreases hi - lo
  {
    if lo >= hi || room <= 0 then []
    else if Allowed(lo, ranges, exclude) then [lo] + Scan(lo + 1, hi, room - 1, ranges, exclude)
    else Scan(lo + 1, hi, room, ranges, exclude)
  }

  /** What the scan of a prefix must be, without saying how it is found. */
  ghost predicate IsFirstAllowed(s: seq<nat>, lo: nat, hi: nat, room: int, ranges: seq<Range>, exclude: seq<Network>) {
    && (forall i, j | 0 <= i < j < |s| :: s[i] < s[j])
    && (forall i | 0 <= i < |s| :: lo <= s[i] < hi && Allowed(s[i], ranges, exclude))
    && (s != [] ==> |s| <= room)
    && (forall h | lo <= h < hi && Allowed(h, ranges, exclude) ::
          h in s || (|s| >= room && (s != [] ==> s[|s| - 1] < h)))
  }

  /** The scan lists the allowed hosts in ascending order and stops only when the room is used up. */
  lemma {:induction false} ScanIsFirstAllowed(lo: nat, hi: nat, room: int, ranges: seq<Range>, exclude: seq<Network>)
    ensures IsFirstAllowed(Scan(lo, hi, room, ranges, exclude), lo, hi, room, ranges, exclude)
    decreases hi - lo
  {
    hide Allowed, IsFirstAllowed;
    if lo >= hi || room <= 0 {
      NoneIsFirstAllowed(lo, hi, room, ranges, exclude);
    } else if Allowed(lo, ranges, exclude) {
      ScanIsFirstAllowed(lo + 1, hi, room - 1, ranges, exclude);
      FirstAllowedCons(Scan(lo + 1, hi, room - 1, ranges, exclude), lo, hi, room, ranges, exclude);
    } else {
      ScanIsFirstAllowed(lo + 1, hi, room, ranges, exclude);
      FirstAllowedSkips(Scan(lo + 1, hi, room, ranges, exclude), lo, hi, room, ranges, exclude);
    }
  }

  lemma NoneIsFirstAllowed(lo: nat, hi: nat, room: int, ranges: seq<Range>, exclude: seq<Network>)
    requires lo >= hi || room <= 0
    ensures IsFirstAllowed([], lo, hi, room, ranges, exclude)
  {
  }

  lemma FirstAllowedCons(rest: seq<nat>, lo: nat, hi: nat, room: int, ranges: seq<Range>, exclude: seq<Network>)
    requires lo < hi && 0 < room && Allowed(lo, ranges, exclude)
    requires IsFirstAllowed(rest, lo + 1, hi, room - 1, ranges, exclude)
    ensures IsFirstAllowed([lo] + rest, lo, hi, room, ranges, exclude)
  {
    hide Allowed;
    var s := [lo] + rest;
    forall i | 0 <= i < |s| ensures lo <= s[i] < hi && Allowed(s[i], ranges, exclude) {
      if i > 0 { assert s[i] == rest[i - 1]; }
    }
    forall i, j | 0 <= i < j < |s| ensures s[i] < s[j] {
      assert s[j] == rest[j - 1];
      if i > 0 { assert s[i] == rest[i - 1]; }
    }
    forall h | lo <= h < hi && Allowed(h, ranges, exclude)
      ensures h in s || (|s| >= room && (s != [] ==> s[|s| - 1] < h))
    {
      if h == lo { assert s[0] == h; } else if h in rest { assert h in s; }
    }
  }

  lemma FirstAllowedSkips(s: seq<nat>, lo: nat, hi: nat, room: int, ranges: seq<Range>, exclude: seq<Network>)
    requires lo < hi && !Allowed(lo, ranges, exclude) && IsFirstAllowed(s, lo + 1, hi, room, ranges, exclude)
    ensures IsFirstAllowed(s, lo, hi, room, ranges, exclude)
  {
    hide Allowed;
  }

  lemma SomeFoundMeansOpen(s: seq<nat>, lo: nat, hi: nat, room: int, ranges: seq<Range>, exclude: seq<Network>)
    requires IsFirstAllowed(s, lo, hi, room, ranges, exclude) && s != []
    ensures lo < hi && 0 < room
  {
    assert lo <= s[0];
  }

  lemma FirstAllowedHead(s: seq<nat>, lo: nat, hi: nat, room: int, ranges: seq<Range>, exclude: seq<Network>)
    requires IsFirstAllowed(s, lo, hi, room, ranges, exclude) && lo < hi && 0 < room && Allowed(lo, ranges, exclude)
    ensures s != [] && s[0] == lo
    ensures IsFirstAllowed(s[1..], lo + 1, hi, room - 1, ranges, exclude)
  {
    hide Allowed;
    assert lo in s;
    forall h | lo + 1 <= h < hi && Allowed(h, ranges, exclude)
      ensures h in s[1..] || (|s[1..]| >= room - 1 && (s[1..] != [] ==> s[1..][|s[1..]| - 1] < h))
    {
      if h in s {
        var i :| 0 <= i < |s| && s[i] == h;
        assert s[1..][i - 1] == h;
      }
    }
  }

  lemma FirstAllowedLater(s: seq<nat>, lo: nat, hi: nat, room: int, ranges: seq<Range>, exclude: seq<Network>)
    requires IsFirstAllowed(s, lo, hi, room, ranges, exclude) && !Allowed(lo, ranges, exclude)
    ensures IsFirstAllowed(s, lo + 1, hi, room, ranges, exclude)
  {
    hide Allowed;
    forall i | 0 <= i < |s| ensures lo + 1 <= s[i] {
      assert Allowed(s[i], ranges, exclude);
    }
  }

  /** And nothing else fits that description. */
  lemma {:induction false} FirstAllowedIsScan(s: seq<nat>, lo: nat, hi: nat, room: int,
                                              ranges: seq<Range>, exclude: seq<Network>)
    requires IsFirstAllowed(s, lo, hi, room, ranges, exclude)
    ensures s == Scan(lo, hi, room, ranges, exclude)
    decreases hi - lo
  {
    hide Allowed, IsFirstAllowed;
    if lo < hi && room > 0 {
      if Allowed(lo, ranges, exclude) {
        FirstAllowedHead(s, lo, hi, room, ranges, exclude);
        FirstAllowedIsScan(s[1..], lo + 1, hi, room - 1, ranges, exclude);
      } else {
        FirstAllowedLater(s, lo, hi, room, ranges, exclude);
        FirstAllowedIsScan(s, lo + 1, hi, room, ranges, exclude);
      }
    } else if s != [] {
      SomeFoundMeansOpen(s, lo, hi, room, ranges, exclude);
    }
  }

  /** Skipping a prefix that lies inside one exclude entry never loses a target. */
  lemma SkipLosesNothing(n: Network, e: Network, room: int, ranges: seq<Range>, exclude: seq<Network>)
    requires !n.v6
    requires e in exclude && SubnetOf(n, e)
    ensures Scan(FirstHost(n), EndHosts(n), room, ranges, exclude) == []
  {
    NothingAllowed(FirstHost(n), n, e, room, ranges, exclude);
  }

  lemma SkippedWhole(n: Network, room: int, ranges: seq<Range>, exclude: seq<Network>)
    requires !n.v6 && exists e | e in exclude :: SubnetOf(n, e)
    ensures Scan(FirstHost(n), EndHosts(n), room, ranges, exclude) == []
  {
    hide SubnetOf, Scan;
    var e :| e in exclude && SubnetOf(n, e);
    SkipLosesNothing(n, e, room, ranges, exclude);
  }

  lemma {:induction false} NothingAllowed(lo: nat, n: Network, e: Network, room: int, ranges: seq<Range>,
                                          exclude: seq<Network>)
    requires !n.v6
    requires e in exclude && SubnetOf(n, e) && n.base <= lo
    ensures Scan(lo, EndHosts(n), room, ranges, exclude) == []
    decreases EndHosts(n) - lo
  {
    if lo < EndHosts(n) {
      SubnetIffEveryAddress(n, e);
      ContainsIsRange(n, Addr(false, lo));
      NothingAllowed(lo + 1, n, e, room, ranges, exclude);
    }
  }

  // ------------------------------------------------------------ all prefixes

  /** A host of the prefix: not its first or last address, unless it has two addresses at most. */
  ghost predicate HostOf(p: PrefixText, h: nat) {
    CoversV4(p, h) && (p.len >= 31 || (h > 0 && CoversV4(p, h - 1) && CoversV4(p, h + 1)))
  }

  lemma HostsAre(p: PrefixText, h: nat)
    requires Parses(p) && !LooseNet(p).v6
    ensures FirstHost(LooseNet(p)) <= h < EndHosts(LooseNet(p)) <==> HostOf(p, h)
  {
    var n := LooseNet(p);
    assert n.len == p.len;
    hide Contains, CoversV4, LooseNet, Parses, Size;
    InNetIs(p, n, h);
    InNetIs(p, n, h + 1);
    if h > 0 {
      InNetIs(p, n, h - 1);
    }
  }

  lemma InNetIs(p: PrefixText, n: Network, h: nat)
    requires Parses(p) && !n.v6 && n == LooseNet(p)
    ensures CoversV4(p, h) <==> n.base <= h <= Broadcast(n)
  {
    hide Contains, CoversV4, LooseNet, Parses;
    CoversV4Is(p, h);
    ContainsIsRange(n, Addr(false, h));
    ParsesIs(p);
  }

  /** Discovery probes the host: it is one of the prefix, in no DHCP range and in no excluded network. */
  ghost predicate Probed(p: PrefixText, h: nat, ranges: seq<Range>, excludes: seq<PrefixText>) {
    && HostOf(p, h) && (forall r | r in ranges :: !(r.lo <= h <= r.hi))
    && (forall e | e in excludes :: !CoversV4(e, h))
  }

  lemma AllowedIs(h: nat, ranges: seq<Range>, excludes: seq<PrefixText>)
    ensures Allowed(h, ranges, Ipv4Networks(excludes)) <==>
            && (forall r | r in ranges :: !(r.lo <= h <= r.hi))
            && (forall e | e in excludes :: !CoversV4(e, h))
  {
    hide Contains, CoversV4, Ipv4Networks;
    ExcludedIff(excludes, V4(h));
  }

  /** A host is scanned if it is allowed and fewer than `room` smaller ones are. */
  lemma {:induction false} ScanHas(lo: nat, hi: nat, room: int, ranges: seq<Range>, exclude: seq<Network>, h: nat)
    ensures h in Scan(lo, hi, room, ranges, exclude) <==>
            lo <= h < hi && Allowed(h, ranges, exclude) && |Smaller(lo, h, ranges, exclude)| < room
    decreases hi - lo
  {
    hide Allowed;
    SmallerStep(lo, h, ranges, exclude);
    hide Smaller;
    if lo < hi && room > 0 {
      if Allowed(lo, ranges, exclude) {
        ScanHas(lo + 1, hi, room - 1, ranges, exclude, h);
      } else {
        ScanHas(lo + 1, hi, room, ranges, exclude, h);
      }
    }
  }

  ghost function Smaller(lo: nat, h: nat, ranges: seq<Range>, exclude: seq<Network>): set<nat> {
    set x: nat | lo <= x < h && Allowed(x, ranges, exclude)
  }

  lemma SmallerStep(lo: nat, h: nat, ranges: seq<Range>, exclude: seq<Network>)
    ensures h <= lo ==> |Smaller(lo, h, ranges, exclude)| == 0
    ensures lo < h ==>
              |Smaller(lo, h, ranges, exclude)| ==
              |Smaller(lo + 1, h, ranges, exclude)| + if Allowed(lo, ranges, exclude) then 1 else 0
  {
    hide Allowed;
    var a, b := Smaller(lo, h, ranges, exclude), Smaller(lo + 1, h, ranges, exclude);
    if h <= lo {
      assert a == {};
    } else if Allowed(lo, ranges, exclude) {
      assert a == b + {lo} && lo !in b;
    } else {
      assert a == b;
    }
  }

  /** `ip_network(p)`: host bits must be clear. */
  predicate ParsesStrictly(p: PrefixText) {
    Parses(p) && LooseNet(p).base == p.addr.value
  }

  /** A prefix without host bits. */
  ghost predicate IsNetwork(p: PrefixText) {
    IsPrefix(p) && p.addr.value % Pow2((if p.addr.v6 then 128 else 32) - p.len) == 0
  }

  lemma StrictIs(p: PrefixText)
    ensures ParsesStrictly(p) <==> IsNetwork(p)
  {
    ParsesIs(p);
    hide Pow2, Parses;
  }

  /** The targets, prefix by prefix; IPv6 prefixes give none. */
  function Targets(prefixes: seq<PrefixText>, room: int, ranges: seq<Range>, exclude: seq<Network>): seq<nat>
    requires forall i | 0 <= i < |prefixes| :: ParsesStrictly(prefixes[i])
    decreases |prefixes|
  {
    if prefixes == [] then []
    else
      assert ParsesStrictly(prefixes[0]);
      var n := LooseNet(prefixes[0]);
      (if n.v6 then [] else Scan(FirstHost(n), EndHosts(n), room, ranges, exclude))
      + Targets(prefixes[1..], room, ranges, exclude)
  }

  /** The targets are exactly the first `room` hosts of each prefix that are to be probed. */
  lemma {:induction false} TargetsHave(prefixes: seq<PrefixText>, room: int, ranges: seq<Range>,
                                       excludes: seq<PrefixText>, h: nat)
    requires forall i | 0 <= i < |prefixes| :: ParsesStrictly(prefixes[i])
    ensures h in Targets(prefixes, room, ranges, Ipv4Networks(excludes)) <==>
            exists p | p in prefixes ::
              Probed(p, h, ranges, excludes) && |set x: nat | x < h && Probed(p, x, ranges, excludes)| < room
    decreases |prefixes|
  {
    hide Probed, Scan, ParsesStrictly, Ipv4Networks, LooseNet;
    if prefixes != [] {
      OnePrefix(prefixes[0], room, ranges, excludes, h);
      TargetsHave(prefixes[1..], room, ranges, excludes, h);
      TargetsStep(prefixes, room, ranges, Ipv4Networks(excludes));
      hide Targets;
      assert forall p :: p in prefixes <==> p == prefixes[0] || p in prefixes[1..];
    }
  }

  lemma TargetsStep(prefixes: seq<PrefixText>, room: int, ranges: seq<Range>, exclude: seq<Network>)
    requires prefixes != [] && forall i | 0 <= i < |prefixes| :: ParsesStrictly(prefixes[i])
    ensures Parses(prefixes[0])
    ensures var n := LooseNet(prefixes[0]);
            Targets(prefixes, room, ranges, exclude)
            == (if n.v6 then [] else Scan(FirstHost(n), EndHosts(n), room, ranges, exclude))
               + Targets(prefixes[1..], room, ranges, exclude)
  {
    hide Scan, LooseNet;
  }

  lemma OnePrefix(p: PrefixText, room: int, ranges: seq<Range>, excludes: seq<PrefixText>, h: nat)
    requires ParsesStrictly(p)
    ensures Parses(p)
    ensures var n := LooseNet(p);
            (!n.v6 && h in Scan(FirstHost(n), EndHosts(n), room, ranges, Ipv4Networks(excludes)))
            <==> Probed(p, h, ranges, excludes) && |set x: nat | x < h && Probed(p, x, ranges, excludes)| < room
  {
    hide Scan, Allowed, CoversV4, LooseNet, Ipv4Networks, Contains;
    var n := LooseNet(p);
    if n.v6 {
      NoV4(p, h);
    } else {
      forall x: nat ensures Probed(p, x, ranges, excludes) <==>
                       FirstHost(n) <= x < EndHosts(n) && Allowed(x, ranges, Ipv4Networks(excludes))
      {
        HostsAre(p, x);
        AllowedIs(x, ranges, excludes);
      }
      hide Probed;
      ScanHas(FirstHost(n), EndHosts(n), room, ranges, Ipv4Networks(excludes), h);
      assert h < EndHosts(n) ==>
               (set x: nat | x < h && Probed(p, x, ranges, excludes)) ==
               Smaller(FirstHost(n), h, ranges, Ipv4Networks(excludes));
    }
  }

  lemma NoV4(p: PrefixText, h: nat)
    requires Parses(p) && LooseNet(p).v6
    ensures !CoversV4(p, h)
  {
  }

  /** discovery.py:191-198 raises on an entry that does not parse. */
  method ReadExcludes(texts: seq<PrefixText>) returns (exclude: Option<seq<Network>>)
    ensures exclude.Some? <==> forall p | p in texts :: Parses(p)
    ensures exclude.Some? ==> exclude.value == Ipv4Networks(texts)
  {
    hide LooseNet, Parses, Ipv4Networks;
    var nets := [];
    assert texts[0..] == texts;
    for i := 0 to |texts|
      invariant nets + Ipv4Networks(texts[i..]) == Ipv4Networks(texts)
      invariant forall p | p in texts[..i] :: Parses(p)
    {
      Ipv4Round(texts, i);
      if !Parses(texts[i]) {
        return None;
      }
      var net := LooseNet(texts[i]);
      if !net.v6 {
        nets := nets + [net];
      }
    }
    assert texts[..|texts|] == texts;
    NoneLeft(texts);
    exclude := Some(nets);
  }

  method ScanPrefix(n: Network, room: int, ranges: seq<Range>, exclude: seq<Network>) returns (found: seq<nat>)
    ensures found == Scan(FirstHost(n), EndHosts(n), room, ranges, exclude)
  {
    hide InRanges, InNets;
    found := [];
    var count, host := 0, FirstHost(n);
    while host < EndHosts(n)
      invariant count == |found|
      invariant found + Scan(host, EndHosts(n), room - count, ranges, exclude)
             == Scan(FirstHost(n), EndHosts(n), room, ranges, exclude)
      decreases EndHosts(n) - host
    {
      if count >= room {
        break;
      }
      if InRanges(host, ranges) {
        host := host + 1;
        continue;
      }
      if InNets(host, exclude) {
        host := host + 1;
        continue;
      }
      found := found + [host];
      count := count + 1;
      host := host + 1;
    }
  }

  /**
   The loop over the prefixes, with its whole-prefix shortcut. `scopes` is None when
   the site has no DHCP server or it cannot be asked; None is returned when an exclude
   entry or a prefix does not parse.
   */
  method BuildTargets(prefixes: seq<PrefixText>, scopes: Option<seq<Scope>>, excludes: seq<PrefixText>, room: int)
    returns (targets: Option<seq<nat>>)
    ensures targets.Some? <==>
              (forall p | p in excludes :: IsPrefix(p)) && (forall p | p in prefixes :: IsNetwork(p))
    ensures targets.Some? ==> forall i | 0 <= i < |prefixes| :: ParsesStrictly(prefixes[i])
    ensures targets.Some? ==>
              var ranges := if scopes.Some? then DhcpRanges(scopes.value) else [];
              && targets.value == Targets(prefixes, room, ranges, Ipv4Networks(excludes))
              && forall h :: h in targets.value <==>
                   exists p | p in prefixes ::
                     && Probed(p, h, ranges, excludes)
                     && |set x: nat | x < h && Probed(p, x, ranges, excludes)| < room
  {
    hide DhcpRanges, Ipv4Networks, LooseNet, Scan, SubnetOf, Parses, Targets, Probed, IsPrefix, IsNetwork;
    forall p ensures (Parses(p) <==> IsPrefix(p)) && (ParsesStrictly(p) <==> IsNetwork(p)) {
      ParsesIs(p);
      StrictIs(p);
    }
    var ranges := [];
    if scopes.Some? {
      ranges := CollectRanges(scopes.value);
    }
    var read := ReadExcludes(excludes);
    if read.None? {
      return None;
    }
    var exclude, found := read.value, [];
    NoTargetsYet(prefixes, room, ranges, exclude);
    for i := 0 to |prefixes|
      invariant forall j | 0 <= j < i :: ParsesStrictly(prefixes[j])
      invariant found == Targets(prefixes[..i], room, ranges, exclude)
    {
      if !ParsesStrictly(prefixes[i]) {
        return None;
      }
      TargetsNext(prefixes, i, room, ranges, exclude);
      var n := LooseNet(prefixes[i]);
      if n.v6 {
        continue;
      }
      if exists e | e in exclude :: SubnetOf(n, e) {
        SkippedWhole(n, room, ranges, exclude);
        continue;
      }
      var hosts := ScanPrefix(n, room, ranges, exclude);
      found := found + hosts;
    }
    assert prefixes[..|prefixes|] == prefixes;
    targets := Some(found);
    forall h ensures h in found <==>
                     exists p | p in prefixes ::
                       && Probed(p, h, ranges, excludes)
                       && |set x: nat | x < h && Probed(p, x, ranges, excludes)| < room
    {
      TargetsHave(prefixes, room, ranges, excludes, h);
    }
  }

  lemma NoTargetsYet(prefixes: seq<PrefixText>, room: int, ranges: seq<Range>, exclude: seq<Network>)
    ensures Targets(prefixes[..0], room, ranges, exclude) == []
  {
  }

  lemma TargetsNext(prefixes: seq<PrefixText>, i: nat, room: int, ranges: seq<Range>, exclude: seq<Network>)
    requires i < |prefixes| && forall j | 0 <= j <= i :: ParsesStrictly(prefixes[j])
    ensures Targets(prefixes[..i + 1], room, ranges, exclude)
         == Targets(prefixes[..i], room, ranges, exclude)
            + (if LooseNet(prefixes[i]).v6 then []
               else Scan(FirstHost(LooseNet(prefixes[i])), EndHosts(LooseNet(prefixes[i])), room, ranges, exclude))
  {
    hide Targets, Scan;
    assert prefixes[..i + 1] == prefixes[..i] + [prefixes[i]];
    TargetsAppend(prefixes[..i], prefixes[i], room, ranges, exclude);
  }

  lemma {:induction false} TargetsAppend(prefixes: seq<PrefixText>, p: PrefixText, room: int, ranges: seq<Range>,
                                         exclude: seq<Network>)
    requires ParsesStrictly(p) && forall i | 0 <= i < |prefixes| :: ParsesStrictly(prefixes[i])
    ensures Targets(prefixes + [p], room, ranges, exclude)
         == Targets(prefixes, room, ranges, exclude)
            + (if LooseNet(p).v6 then []
               else Scan(FirstHost(LooseNet(p)), EndHosts(LooseNet(p)), room, ranges, exclude))
    decreases |prefixes|
  {
    hide LooseNet, Scan;
    if prefixes == [] {
      assert Targets([p][1..], room, ranges, exclude) == [];
    } else {
      assert (prefixes + [p])[1..] == prefixes[1..] + [p];
      TargetsAppend(prefixes[1..], p, room, ranges, exclude);
    }
  }

  /**
   The same exclude list means the same to discovery and to availability: a host of a
   scanned prefix is dropped here exactly when availability would not poll it.
   */
  lemma ExclusionAgrees(excludes: seq<PrefixText>, h: nat)
    requires forall p | p in excludes :: Parses(p)
    ensures InNets(h, Ipv4Networks(excludes)) <==> IpInNetworks(V4(h), Ipv4Networks(excludes))
    ensures InNets(h, Ipv4Networks(excludes)) <==>
            exists p | p in excludes && Parses(p) && !p.addr.v6 :: Contains(LooseNet(p), Addr(false, h))
  {
    ExcludedIff(excludes, V4(h));
  }
}
