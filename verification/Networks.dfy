/**
 IP addresses and networks as Python's ipaddress module sees them, and the two ways
 the program reads exclude lists (common.py:23-54, dhcp.py:36-42).
 */
module Networks {
  import opened Prelude

  /** An address: 32 bits for IPv4, 128 for IPv6. */
  datatype Addr = Addr(v6: bool, value: nat)

  /** A network: its first address and its prefix length. */
  datatype Net = Net(v6: bool, base: nat, len: nat)

  /**
   The text of a host address. IPv4 text is canonical (no leading zeros), so equal
   IPv4 addresses have equal text; other text is kept as it is.
   */
  datatype Host = V4(value: nat) | V6(value: nat, text: string) | Junk(text: string)

  function ParseAddr(h: Host): Option<Addr> {
    match h
    case V4(n) => Some(Addr(false, n))
    case V6(n, _) => Some(Addr(true, n))
    case Junk(_) => None
  }

  function Width(v6: bool): nat {
    if v6 then 128 else 32
  }

  /** How many addresses the network has. */
  function Size(n: Net): (size: nat)
    requires n.len <= Width(n.v6)
    ensures size > 0
  {
    Pow2(Width(n.v6) - n.len)
  }

  /** `x & netmask`: the host bits are cleared. */
  function Masked(x: nat, size: nat): nat
    requires size > 0
  {
    x - x % size
  }

  predicate ValidNet(n: Net) {
    n.len <= Width(n.v6) && Masked(n.base, Size(n)) == n.base && n.base + Size(n) <= Pow2(Width(n.v6))
  }

  type Network = n: Net | ValidNet(n) witness Net(false, 0, 0)

  predicate ValidAddr(a: Addr) {
    a.value < Pow2(Width(a.v6))
  }

  /** `addr in network`: the mask test; another address family is never inside. */
  predicate Contains(n: Network, a: Addr) {
    a.v6 == n.v6 && Masked(a.value, Size(n)) == n.base
  }

  function Broadcast(n: Network): nat {
    n.base + Size(n) - 1
  }

  /** `a.subnet_of(b)`, by the end points. */
  predicate SubnetOf(a: Network, b: Network) {
    a.v6 == b.v6 && b.base <= a.base && Broadcast(a) <= Broadcast(b)
  }

  /** The mask test and the address range say the same. */
  lemma ContainsIsRange(n: Network, a: Addr)
    ensures Contains(n, a) <==> a.v6 == n.v6 && n.base <= a.value <= Broadcast(n)
  {
    var s := Size(n);
    if n.base <= a.value < n.base + s {
      var k := n.base / s;
      assert n.base == k * s by { DivMod(n.base, s); }
      assert a.value / s == k by { QuotientUnique(a.value, s, k); }
      DivMod(a.value, s);
    }
  }

  lemma DivMod(x: nat, s: nat)
    requires s > 0
    ensures x == (x / s) * s + x % s
  {
  }

  lemma {:induction false} MulMonotone(a: nat, b: nat, s: nat)
    ensures a <= b ==> a * s <= b * s
  {
    if a <= b {
      assert b * s == a * s + (b - a) * s;
    }
  }

  lemma QuotientUnique(x: nat, s: nat, k: nat)
    requires s > 0 && k * s <= x < k * s + s
    ensures x / s == k
  {
    var q := x / s;
    DivMod(x, s);
    MulMonotone(q + 1, k, s);
    MulMonotone(k + 1, q, s);
  }

  /**
   The end-point test of subnet_of is exactly containment of every address by the mask
   test (RFC 4632 section 3.1).
   */
  lemma SubnetIffEveryAddress(a: Network, b: Network)
    ensures SubnetOf(a, b) <==> forall x: Addr | Contains(a, x) :: Contains(b, x)
  {
    if SubnetOf(a, b) {
      forall x: Addr | Contains(a, x) ensures Contains(b, x) {
        ContainsIsRange(a, x);
        ContainsIsRange(b, x);
      }
    } else {
      var first, last := Addr(a.v6, a.base), Addr(a.v6, Broadcast(a));
      ContainsIsRange(a, first);
      ContainsIsRange(a, last);
      ContainsIsRange(b, first);
      ContainsIsRange(b, last);
    }
  }

  // ------------------------------------------------------------ exclude lists

  /** A prefix string: an address with a mask length, or text that is neither. */
  datatype PrefixText = Cidr(addr: Addr, len: nat) | NotCidr

  /** A prefix length and address that ip_network accepts. */
  predicate Parses(p: PrefixText) {
    p.Cidr? && p.len <= Width(p.addr.v6) && ValidAddr(p.addr)
  }

  /** `ip_network(p, strict=False)`: host bits are masked off. */
  function LooseNet(p: PrefixText): (n: Network)
    requires Parses(p)
    ensures n.v6 == p.addr.v6
  {
    var size := Pow2(Width(p.addr.v6) - p.len);
    MaskedFits(p.addr.value, Width(p.addr.v6), Width(p.addr.v6) - p.len);
    Net(p.addr.v6, Masked(p.addr.value, size), p.len)
  }

  /** `x / size` tells the block an address lies in. */
  lemma SameBlock(x: nat, y: nat, size: nat)
    requires size > 0
    ensures Masked(x, size) == Masked(y, size) <==> x / size == y / size
  {
    DivMod(x, size);
    DivMod(y, size);
    MulMonotone(x / size + 1, y / size, size);
    MulMonotone(y / size + 1, x / size, size);
  }

  /** A network holds exactly the addresses of its family that agree with the given one up to the mask. */
  lemma LooseNetHolds(v6: bool, value: nat, len: nat, a: Addr)
    requires Parses(Cidr(Addr(v6, value), len))
    ensures len <= (if v6 then 128 else 32)
    ensures var size := Pow2((if v6 then 128 else 32) - len);
            Contains(LooseNet(Cidr(Addr(v6, value), len)), a) <==> a.v6 == v6 && a.value / size == value / size
  {
    SameBlock(a.value, value, Pow2((if v6 then 128 else 32) - len));
    hide Pow2, Masked;
  }

  /** An address with a mask length, both within the width of the family. */
  ghost predicate IsPrefix(p: PrefixText) {
    p.Cidr? && p.len <= (if p.addr.v6 then 128 else 32) && p.addr.value < Pow2(if p.addr.v6 then 128 else 32)
  }

  lemma ParsesIs(p: PrefixText)
    ensures Parses(p) <==> IsPrefix(p)
  {
    hide Pow2;
  }

  lemma {:induction false} Pow2Adds(a: nat, b: nat)
    ensures Pow2(a + b) == Pow2(a) * Pow2(b)
  {
    if b > 0 {
      Pow2Adds(a, b - 1);
      assert Pow2(a + b) == 2 * Pow2(a + (b - 1));
      assert Pow2(a) * Pow2(b) == 2 * (Pow2(a) * Pow2(b - 1));
    }
  }

  lemma MaskedFits(x: nat, width: nat, e: nat)
    requires e <= width && x < Pow2(width)
    ensures var m := Masked(x, Pow2(e)); Masked(m, Pow2(e)) == m && m + Pow2(e) <= Pow2(width)
  {
    Pow2Adds(width - e, e);
    MaskedBlock(x, Pow2(e), Pow2(width - e));
  }

  lemma MaskedBlock(x: nat, s: nat, blocks: nat)
    requires s > 0 && x < blocks * s
    ensures Masked(Masked(x, s), s) == Masked(x, s) && Masked(x, s) + s <= blocks * s
  {
    var q := x / s;
    DivMod(x, s);
    DivMod(q * s, s);
    QuotientUnique(q * s, s, q);
    MulMonotone(blocks, q, s);
    MulMonotone(q + 1, blocks, s);
  }

  /** common.py:23-37: entries that do not parse, or are not IPv4, are skipped. */
  function Ipv4Networks(prefixes: seq<PrefixText>): seq<Network>
    decreases |prefixes|
  {
    if prefixes == [] then []
    else
      var rest := Ipv4Networks(prefixes[1..]);
      if Parses(prefixes[0]) && !LooseNet(prefixes[0]).v6 then [LooseNet(prefixes[0])] + rest else rest
  }

  lemma Ipv4Round(prefixes: seq<PrefixText>, i: nat)
    requires i < |prefixes|
    ensures var p, rest := prefixes[i], Ipv4Networks(prefixes[i + 1..]);
            Ipv4Networks(prefixes[i..]) == if Parses(p) && !LooseNet(p).v6 then [LooseNet(p)] + rest else rest
  {
    hide LooseNet, Parses;
    assert prefixes[i..][1..] == prefixes[i + 1..] && prefixes[i..][0] == prefixes[i];
  }

  method ParseIpv4Networks(prefixes: seq<PrefixText>) returns (networks: seq<Network>)
    ensures networks == Ipv4Networks(prefixes)
  {
    hide LooseNet, Parses, Ipv4Networks;
    networks := [];
    assert prefixes[0..] == prefixes;
    for i := 0 to |prefixes|
      invariant networks + Ipv4Networks(prefixes[i..]) == Ipv4Networks(prefixes)
    {
      Ipv4Round(prefixes, i);
      if Parses(prefixes[i]) {
        var net := LooseNet(prefixes[i]);
        if !net.v6 {
          networks := networks + [net];
        }
      }
    }
    NoneLeft(prefixes);
  }

  lemma NoneLeft(prefixes: seq<PrefixText>)
    ensures Ipv4Networks(prefixes[|prefixes|..]) == []
  {
  }

  /** common.py:40-54. */
  predicate IpInNetworks(ip: Host, nets: seq<Network>) {
    match ParseAddr(ip)
    case None => false
    case Some(a) => !a.v6 && exists n | n in nets :: Contains(n, a)
  }

  /** The text is a valid IPv4 prefix that covers the address. */
  ghost predicate CoversV4(p: PrefixText, value: nat) {
    && p.Cidr? && !p.addr.v6 && p.len <= 32 && p.addr.value < Pow2(32)
    && value / Pow2(32 - p.len) == p.addr.value / Pow2(32 - p.len)
  }

  lemma CoversV4Is(p: PrefixText, value: nat)
    ensures CoversV4(p, value) <==> p.Cidr? && Parses(p) && !p.addr.v6 && Contains(LooseNet(p), Addr(false, value))
  {
    ParsesIs(p);
    if Parses(p) && !p.addr.v6 {
      LooseNetHolds(false, p.addr.value, p.len, Addr(false, value));
    }
    hide Pow2, Contains, LooseNet, Parses;
  }

  /** Availability's reading of an exclude list: some valid IPv4 entry covers the address. */
  lemma ExcludedIff(prefixes: seq<PrefixText>, ip: Host)
    ensures IpInNetworks(ip, Ipv4Networks(prefixes)) <==>
            ip.V4? && exists p | p in prefixes :: CoversV4(p, ip.value)
  {
    hide CoversV4, Parses, LooseNet, Contains, Ipv4Networks;
    InListIff(prefixes, ip);
    if ip.V4? {
      forall p ensures CoversV4(p, ip.value) <==>
                       p.Cidr? && Parses(p) && !p.addr.v6 && Contains(LooseNet(p), Addr(false, ip.value))
      {
        CoversV4Is(p, ip.value);
      }
    }
  }

  lemma {:induction false} InListIff(prefixes: seq<PrefixText>, ip: Host)
    ensures IpInNetworks(ip, Ipv4Networks(prefixes)) <==>
            ip.V4? && exists p | p in prefixes && p.Cidr? && Parses(p) && !p.addr.v6 ::
                Contains(LooseNet(p), Addr(false, ip.value))
    decreases |prefixes|
  {
    if prefixes != [] {
      InListIff(prefixes[1..], ip);
      var nets, rest := Ipv4Networks(prefixes), Ipv4Networks(prefixes[1..]);
      assert forall n :: n in nets <==>
          n in rest || (Parses(prefixes[0]) && !prefixes[0].addr.v6 && n == LooseNet(prefixes[0]));
      assert forall p :: p in prefixes <==> p == prefixes[0] || p in prefixes[1..];
    }
  }
}
