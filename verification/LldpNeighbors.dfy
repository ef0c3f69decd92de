/**
 What a switch reports about a neighbour (lldp/__init__.py:19-43, lldp/registry.py:25-57).
 */
module LldpNeighbors {
  import opened Prelude
  import opened Networks

  datatype Driver = Cisco | Arista | Aruba | Mikrotik | Unifi | Snmp | Unknown(name: string)

  predicate IsSsh(d: Driver) {
    d in {Cisco, Arista, Aruba, Mikrotik, Unifi}
  }

  /** What `select_driver` makes of a platform or a description. */
  type SshDriver = d: Driver | IsSsh(d) witness Cisco

  /** The port at the other end: not reported, an interface name, or a MAC, which may be malformed. */
  datatype Port = Unreported | PortName(name: string) | PortMac(mac: Option<string>)

  /**
   Empty strings are None. `vendor` says that the description names a switch vendor,
   `hint` is the driver the description suggests.
   */
  datatype Neighbor = Neighbor(localPort: string, chassis: Option<string>, sysname: Option<string>, port: Port,
                               mgmtIp: Option<Host>, bridge: bool, vendor: bool, hint: Option<SshDriver>)

  /** A MAC a switch reports as its own, with the interface it knows it by. */
  datatype OwnMac = OwnMac(mac: string, iface: Option<string>)

  predicate Crawlable(n: Neighbor) {
    n.bridge && n.mgmtIp.Some? && n.vendor
  }

  /** What a crawl goes on to: a bridge of a known switch vendor that gives its address. */
  ghost predicate IsSwitch(n: Neighbor) {
    n.bridge && n.vendor && n.mgmtIp.Some?
  }

  /** The part of a system name before its first dot. */
  function Short(name: string): string {
    if name == "" || name[0] == '.' then "" else [name[0]] + Short(name[1..])
  }

  /** Names are compared without regard to case. */
  function Fold(name: string): string {
    if name == "" then "" else [if 'A' <= name[0] <= 'Z' then name[0] + ' ' else name[0]] + Fold(name[1..])
  }

  /** It starts the name, has no dot, and ends with the name or before a dot. */
  lemma {:induction false} ShortIs(name: string)
    ensures Short(name) <= name && '.' !in Short(name)
    ensures |Short(name)| < |name| ==> name[|Short(name)|] == '.'
    decreases |name|
  {
    if name != "" && name[0] != '.' {
      ShortIs(name[1..]);
      assert name == [name[0]] + name[1..];
    }
  }

  /** The same letter, in upper or lower case, or the same character. */
  ghost predicate SameLetter(a: char, b: char) {
    a == b || ('A' <= a <= 'Z' && b == a + ' ') || ('A' <= b <= 'Z' && a == b + ' ')
  }

  lemma {:induction false} FoldIs(a: string, b: string)
    ensures Fold(a) == Fold(b) <==> |a| == |b| && forall i | 0 <= i < |a| :: SameLetter(a[i], b[i])
    decreases |a|
  {
    if a != "" && b != "" {
      FoldIs(a[1..], b[1..]);
      assert Fold(a)[1..] == Fold(a[1..]) && Fold(b)[1..] == Fold(b[1..]);
      assert Fold(a)[0] == Fold(b)[0] <==> SameLetter(a[0], b[0]);
      assert Fold(a) == Fold(b) <==> Fold(a)[0] == Fold(b)[0] && Fold(a)[1..] == Fold(b)[1..] by {
        assert Fold(a) == [Fold(a)[0]] + Fold(a)[1..] && Fold(b) == [Fold(b)[0]] + Fold(b)[1..];
      }
      hide Fold, SameLetter;
      if |a| == |b| && forall i | 0 <= i < |a| :: SameLetter(a[i], b[i]) {
        forall i | 0 <= i < |a[1..]| ensures SameLetter(a[1..][i], b[1..][i]) {
          assert a[1..][i] == a[i + 1] && b[1..][i] == b[i + 1];
        }
      }
      if SameLetter(a[0], b[0]) && |a| == |b| && forall i | 0 <= i < |a[1..]| :: SameLetter(a[1..][i], b[1..][i]) {
        forall i | 0 <= i < |a| ensures SameLetter(a[i], b[i]) {
          assert i > 0 ==> a[i] == a[1..][i - 1] && b[i] == b[1..][i - 1];
        }
      }
    }
  }
}
