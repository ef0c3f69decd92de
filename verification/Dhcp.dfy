/**
 Which addresses expire when their DHCP leases go away, over sites any of which may fail
 (dhcp.py:54-167, 243-275).
 */
module Dhcp {
  import opened Prelude
  import opened Networks
  import opened NetBoxStore
  import opened Discovery
  import opened LldpSafety
  import opened DhcpWrites

  /** What came of a site: an error, or its scopes and leases; `home` is its NetBox site. */
  datatype SiteResult = Failed | Fetched(scopes: seq<Scope>, leases: seq<Lease>, home: Option<string>)

  // ------------------------------------------------------------ what expires

  predicate Leases(site: SiteResult, host: Host) {
    site.Fetched? && exists l | l in site.leases :: l.address == Some(host)
  }

  /** The address lies in a scope of a site that was read. */
  ghost predicate Covers(site: SiteResult, host: Host) {
    site.Fetched? && exists sc | sc in site.scopes :: InScope(sc, host)
  }

  /** Ours, off every device, inside a scope that was read, and leased by no site that was read. */
  ghost predicate Expires(ip: Ip, sites: seq<SiteResult>) {
    && "managed-netbox-monitor" in ip.tags && "src-dhcp" in ip.tags && !ip.place.OnInterface?
    && (exists site | site in sites :: Covers(site, ip.host))
    && (forall site | site in sites :: !Leases(site, ip.host))
  }

  ghost function Expired(s: Store, sites: seq<SiteResult>): set<Id> {
    set i | i in s.ips && Expires(s.ips[i], sites)
  }

  // ----------------------------------------------------- the sets of a run

  /** The books of one run: leased addresses and the networks that were read. */
  ghost predicate Collected(sites: seq<SiteResult>, live: set<Host>, nets: seq<Network>) {
    && (forall h :: h in live <==> exists site | site in sites :: Leases(site, h))
    && (forall h | ParseAddr(h).Some? ::
          InSome(ParseAddr(h).value, nets) <==> exists site | site in sites :: Covers(site, h))
  }

  predicate InSome(a: Addr, nets: seq<Network>) {
    exists n | n in nets :: Contains(n, a)
  }

  /** Addresses and networks of the site at hand join those of the sites before. */
  lemma CollectedOn(sites: seq<SiteResult>, live: set<Host>, nets: seq<Network>, site: SiteResult,
                    more: set<Host>, moreNets: seq<Network>)
    requires Collected(sites, live, nets)
    requires forall h :: h in more <==> Leases(site, h)
    requires forall h | ParseAddr(h).Some? :: InSome(ParseAddr(h).value, moreNets) <==> Covers(site, h)
    ensures Collected(sites + [site], live + more, nets + moreNets)
  {
    assert forall x :: x in sites + [site] <==> x in sites || x == site;
    forall h | ParseAddr(h).Some?
      ensures InSome(ParseAddr(h).value, nets + moreNets) <==>
              exists x | x in sites + [site] :: Covers(x, h)
    {
      assert InSome(ParseAddr(h).value, nets + moreNets)
        <==> InSome(ParseAddr(h).value, nets) || InSome(ParseAddr(h).value, moreNets);
    }
  }

  /** dhcp.py:79-82. */
  method ScopeNetworks(scopes: seq<Scope>) returns (nets: seq<Network>)
    ensures forall h, leases, home | ParseAddr(h).Some? ::
              InSome(ParseAddr(h).value, nets) <==> Covers(Fetched(scopes, leases, home), h)
  {
    hide ScopeNetwork, Contains, InScope;
    nets := [];
    forall sc, h
      ensures InScope(sc, h) <==> && ScopeNetwork(sc).Some? && ParseAddr(h).Some?
                                  && Contains(ScopeNetwork(sc).value, ParseAddr(h).value)
    {
      ScopeHolds(sc, h);
    }
    for k := 0 to |scopes|
      invariant forall n :: n in nets <==> exists i | 0 <= i < k :: ScopeNetwork(scopes[i]) == Some(n)
    {
      var n := ScopeNetwork(scopes[k]);
      if n.Some? {
        nets := nets + [n.value];
      }
    }
  }

  /**
   dhcp.py:107-167: the addresses are noted before their records are written, so that a
   record that cannot be written does not look expired.
   */
  method ReconcileSite(nb: NetBox, leases: seq<Lease>, home: Option<string>, now: real, ghost hosts: set<Host>)
    returns (r: Outcome<(set<Host>, set<Host>)>)
    requires Linked(nb.State())
    requires forall l | l in leases && l.address.Some? :: l.address.value in hosts
    modifies nb
    ensures Explained(r, old(nb.faults), nb.faults) && (r.Raised? ==> !r.refusal)
    ensures Written(old(nb.State()), nb.State(), hosts)
    ensures r.Ok? ==> forall h :: (h in r.value.0 || h in r.value.1) <==> exists l | l in leases :: l.address == Some(h)
    ensures r.Ok? ==> forall h :: h in r.value.1 <==> exists l | l in leases && l.reserved :: l.address == Some(h)
    ensures nb.dryRun ==> nb.State() == old(nb.State())
  {
    hide Linked, Written;
    ghost var s := nb.State();
    WrittenSelf(s, hosts);
    var active: set<Host>, reserved: set<Host> := {}, {};
    for k := 0 to |leases|
      invariant forall h :: h in active <==>
                exists i | 0 <= i < k :: !leases[i].reserved && leases[i].address == Some(h)
      invariant forall h :: h in reserved <==>
                exists i | 0 <= i < k :: leases[i].reserved && leases[i].address == Some(h)
      invariant (nb.dryRun ==> nb.State() == s) && old(nb.faults) <= nb.faults
      invariant Written(s, nb.State(), hosts)
    {
      var ok := nb.Reached();
      if !ok {
        return Raised(false);
      }
      if leases[k].address.None? {
        continue;
      }
      var host := leases[k].address.value;
      if leases[k].reserved {
        reserved := reserved + {host};
      } else {
        active := active + {host};
      }
      ghost var t := nb.State();
      WrittenLinked(s, t, hosts);
      // a record that cannot be written is logged; the next one is tried
      var _ := WriteLease(nb, leases[k], host, home, now, hosts);
      WrittenThen(s, t, nb.State(), hosts);
    }
    r := Ok((active, reserved));
  }

  // --------------------------------------------------------------- the expiry

  lemma OneMoreGone(s: Store, gone: set<Id>, ip: Id)
    ensures WithoutIp(WithoutIps(s, gone), ip) == WithoutIps(s, gone + {ip})
  {
    var t, u := WithoutIp(WithoutIps(s, gone), ip), WithoutIps(s, gone + {ip});
    assert t.ips == u.ips;
    assert t.devices == u.devices;
  }

  lemma NoneGone(s: Store)
    ensures WithoutIps(s, {}) == s
  {
    assert WithoutIps(s, {}).devices == s.devices;
    assert WithoutIps(s, {}).ips == s.ips;
  }

  /** dhcp.py:243-275. */
  method DeleteExpired(nb: NetBox, active: set<Host>, reserved: set<Host>, nets: seq<Network>,
                       ghost sites: seq<SiteResult>)
    requires Collected(sites, active + reserved, nets)
    modifies nb
    ensures nb.faults == old(nb.faults)
    ensures nb.State() == if nb.dryRun then old(nb.State())
                          else WithoutIps(old(nb.State()), Expired(old(nb.State()), sites))
  {
    hide Expires, Collected, WithoutIps, WithoutIp;
    ghost var s := nb.State();
    var tagged := set i | i in nb.ips && SRC_DHCP in nb.ips[i].tags;
    var records := nb.ips;
    var todo := tagged;
    ghost var gone: set<Id> := {};
    NoneGone(s);
    while todo != {}
      invariant todo <= tagged
      invariant gone == set i | i in tagged && i !in todo && Expires(s.ips[i], sites)
      invariant nb.State() == (if nb.dryRun then s else WithoutIps(s, gone)) && nb.faults == old(nb.faults)
      decreases |todo|
    {
      var i :| i in todo;
      todo := todo - {i};
      var expires := Judge(records[i], active, reserved, nets, sites);
      if expires {
        var _ := nb.DeleteIp(i, records[i].tags, Some(SRC_DHCP));
        if Expires(records[i], sites) {
          OneMoreGone(s, gone, i);
          gone := gone + {i};
        }
      }
    }
    ExpiredAreTagged(s, sites);
    assert gone == Expired(s, sites);
  }

  lemma ExpiredAreTagged(s: Store, sites: seq<SiteResult>)
    ensures forall i | i in Expired(s, sites) :: SRC_DHCP in s.ips[i].tags
  {
  }

  /** dhcp.py:264-275; without the managed tag the delete itself is refused. */
  method Judge(ip: Ip, active: set<Host>, reserved: set<Host>, nets: seq<Network>, ghost sites: seq<SiteResult>)
    returns (expires: bool)
    requires Collected(sites, active + reserved, nets)
    ensures expires && MANAGED in ip.tags && SRC_DHCP in ip.tags <==> Expires(ip, sites)
  {
    ExpiresWhen(ip, active + reserved, nets, sites);
    hide Expires, Collected, InSome;
    if ip.host in active || ip.host in reserved {
      return false;
    }
    if ip.place.OnInterface? {
      return false;
    }
    var addr := ParseAddr(ip.host);
    if addr.None? {
      return false;
    }
    expires := InSome(addr.value, nets);
  }

  lemma ExpiresWhen(ip: Ip, live: set<Host>, nets: seq<Network>, sites: seq<SiteResult>)
    requires Collected(sites, live, nets)
    ensures Expires(ip, sites) <==>
              && IsManaged(ip.tags, Some(SRC_DHCP)) && !ip.place.OnInterface? && ip.host !in live
              && ParseAddr(ip.host).Some? && InSome(ParseAddr(ip.host).value, nets)
  {
    CoversParses(sites, ip.host);
    hide Leases, Covers, InSome, ParseAddr;
  }

  lemma CoversParses(sites: seq<SiteResult>, host: Host)
    ensures (exists site | site in sites :: Covers(site, host)) ==> ParseAddr(host).Some?
  {
    hide InScope, ParseAddr;
    if site :| site in sites && Covers(site, host) {
      var sc :| sc in site.scopes && InScope(sc, host);
      ScopeHolds(sc, host);
    }
  }

  // -------------------------------------------------------------------- a run

  /** Each site was read as its server answered, or failed. */
  ghost predicate ReadFrom(sites: seq<SiteResult>, answers: seq<SiteResult>) {
    |sites| == |answers| && forall k | 0 <= k < |sites| :: sites[k] == Failed || sites[k] == answers[k]
  }

  predicate LeasedBySome(sites: seq<SiteResult>, host: Host) {
    exists site | site in sites :: Leases(site, host)
  }

  /** The hosts that servers lease, whatever became of their sites. */
  function AllLeased(answers: seq<SiteResult>): set<Host> {
    set k, i | 0 <= k < |answers| && answers[k].Fetched? && 0 <= i < |answers[k].leases|
               && answers[k].leases[i].address.Some? :: answers[k].leases[i].address.value
  }

  lemma AllLeasedHas(answers: seq<SiteResult>, host: Host)
    ensures host in AllLeased(answers) <==> LeasedBySome(answers, host)
  {
    if LeasedBySome(answers, host) {
      var site :| site in answers && Leases(site, host);
      var k :| 0 <= k < |answers| && answers[k] == site;
      var l :| l in site.leases && l.address == Some(host);
      var i :| 0 <= i < |site.leases| && site.leases[i] == l;
      assert answers[k].leases[i].address.value == host;
    }
    if host in AllLeased(answers) {
      var k, i :| 0 <= k < |answers| && answers[k].Fetched? && 0 <= i < |answers[k].leases|
                  && answers[k].leases[i].address == Some(host);
      assert answers[k] in answers && answers[k].leases[i] in answers[k].leases;
    }
  }

  /** The address sits on no device, or on one that went. */
  predicate OffDevices(s: Store, t: Store, place: Place) {
    place.OnInterface? ==> DeviceGone(s, t, place)
  }

  /**
   A run with expiry, from the inventory `s` it found to the inventory `t` it left: an
   address that is gone was ours, lay in a scope that was read, had no lease at a site that
   was read, and sat on no device that is still there, unless a site that failed moved it to
   a guest first. Among the addresses nobody leases these are exactly the ones that are gone.
   */
  ghost predicate ExpiredOverRun(s: Store, t: Store, sites: seq<SiteResult>, answers: seq<SiteResult>) {
    && (forall i | i in s.ips && i !in t.ips :: ExpiryOf(s, t, sites, answers, i))
    && (forall i | i in s.ips && Expirable(s, t, sites, answers, i) :: i !in t.ips)
    && (forall i | i in s.ips && i in t.ips :: t.ips[i].host == s.ips[i].host && t.ips[i].tags == s.ips[i].tags)
    && (forall i | i in t.ips && i !in s.ips :: LeasedBySome(answers, t.ips[i].host))
    && DevicesKept(s, t) && InterfacesSafe(s, t) && CablesSafe(s, t) && t.vms.Keys == s.vms.Keys
  }

  /** dhcp.py:68-90: what one site contributes; an error contributes nothing. */
  method ReadSite(nb: NetBox, answer: SiteResult, now: real, ghost hosts: set<Host>)
    returns (site: SiteResult, active: set<Host>, reserved: set<Host>, nets: seq<Network>)
    requires Linked(nb.State())
    requires answer.Fetched? ==> forall l | l in answer.leases && l.address.Some? :: l.address.value in hosts
    modifies nb
    ensures site == Failed || site == answer
    ensures old(nb.faults) <= nb.faults && (nb.faults == old(nb.faults) ==> site == answer)
    ensures Written(old(nb.State()), nb.State(), hosts)
    ensures nb.dryRun ==> nb.State() == old(nb.State())
    ensures forall h :: h in active + reserved <==> Leases(site, h)
    ensures forall h | ParseAddr(h).Some? :: InSome(ParseAddr(h).value, nets) <==> Covers(site, h)
  {
    hide Linked, Written, InSome, Covers;
    WrittenSelf(nb.State(), hosts);
    site, active, reserved, nets := Failed, {}, {}, [];
    FailedGivesNothing(site, active + reserved, nets);
    if answer.Fetched? {
      var r := ReconcileSite(nb, answer.leases, answer.home, now, hosts);
      if r.Ok? {
        site, active, reserved := answer, r.value.0, r.value.1;
        nets := ScopeNetworks(answer.scopes);
      }
    }
  }

  /** dhcp.py:61-90: all sites, one after the other. */
  method ReadAll(nb: NetBox, answers: seq<SiteResult>, now: real)
    returns (sites: seq<SiteResult>, active: set<Host>, reserved: set<Host>, nets: seq<Network>)
    requires Linked(nb.State())
    modifies nb
    ensures ReadFrom(sites, answers) && Collected(sites, active + reserved, nets)
    ensures old(nb.faults) <= nb.faults && (nb.faults == old(nb.faults) ==> sites == answers)
    ensures Written(old(nb.State()), nb.State(), AllLeased(answers))
    ensures nb.dryRun ==> nb.State() == old(nb.State())
  {
    hide Linked, Written, AllLeased, Leases, Covers, InSome, Collected;
    ghost var s, hosts := nb.State(), AllLeased(answers);
    WrittenSelf(s, hosts);
    NothingCollected();
    sites, active, reserved, nets := [], {}, {}, [];
    for k := 0 to |answers|
      invariant ReadFrom(sites, answers[..k])
      invariant Collected(sites, active + reserved, nets)
      invariant Written(s, nb.State(), hosts)
      invariant nb.dryRun ==> nb.State() == s
      invariant old(nb.faults) <= nb.faults && (nb.faults == old(nb.faults) ==> sites == answers[..k])
    {
      ghost var t := nb.State();
      WrittenLinked(s, t, hosts);
      if answers[k].Fetched? {
        LeasesOf(answers, k);
      }
      var site, more, moreReserved, moreNets := ReadSite(nb, answers[k], now, hosts);
      WrittenThen(s, t, nb.State(), hosts);
      CollectedOn(sites, active + reserved, nets, site, more + moreReserved, moreNets);
      assert (active + more) + (reserved + moreReserved) == (active + reserved) + (more + moreReserved);
      active, reserved, nets := active + more, reserved + moreReserved, nets + moreNets;
      sites := sites + [site];
    }
    assert answers[..|answers|] == answers;
  }

  /**
   dhcp.py:54-97. `before` is the inventory when the leases were written. The check for an
   empty list of networks changes nothing: without networks nothing expires. An address
   with a live lease at a site that was read is still there, even if its record could not
   be written.
   */
  method Run(nb: NetBox, answers: seq<SiteResult>, deleteOnExpiry: bool, now: real)
    returns (sites: seq<SiteResult>, ghost before: Store)
    requires Linked(nb.State())
    modifies nb
    ensures ReadFrom(sites, answers) && (nb.faults == old(nb.faults) ==> sites == answers)
    ensures Written(old(nb.State()), before, AllLeased(answers))
    ensures nb.State() == if deleteOnExpiry && !nb.dryRun then WithoutIps(before, Expired(before, sites)) else before
    ensures nb.dryRun ==> nb.State() == old(nb.State())
    ensures deleteOnExpiry && !nb.dryRun ==> ExpiredOverRun(old(nb.State()), nb.State(), sites, answers)
    ensures forall i | i in old(nb.ips) && LeasedBySome(sites, old(nb.ips[i].host)) :: i in nb.ips
  {
    hide Linked, Written, AllLeased, ExpiredOverRun, Expired, LeasedBySome, Collected, ReadFrom;
    var active, reserved, nets;
    sites, active, reserved, nets := ReadAll(nb, answers, now);
    before := nb.State();
    if deleteOnExpiry && nets != [] {
      DeleteExpired(nb, active, reserved, nets, sites);
    } else if nets == [] {
      NothingCovered(before, sites, active + reserved);
      NoneGone(before);
    }
    OverTheRun(old(nb.State()), before, sites, answers);
  }

  lemma NothingCollected()
    ensures Collected([], {} + {}, [])
  {
  }

  lemma LeasesOf(answers: seq<SiteResult>, k: nat)
    requires k < |answers| && answers[k].Fetched?
    ensures forall l | l in answers[k].leases && l.address.Some? :: l.address.value in AllLeased(answers)
  {
  }

  lemma FailedGivesNothing(site: SiteResult, live: set<Host>, nets: seq<Network>)
    ensures site.Failed? && live == {} ==> forall h :: h in live <==> Leases(site, h)
    ensures site.Failed? && nets == [] ==>
              forall h | ParseAddr(h).Some? :: InSome(ParseAddr(h).value, nets) <==> Covers(site, h)
  {
  }

  /** What the leases' writes and the expiry together come to. */
  lemma OverTheRun(s: Store, before: Store, sites: seq<SiteResult>, answers: seq<SiteResult>)
    requires Linked(s) && Written(s, before, AllLeased(answers)) && ReadFrom(sites, answers)
    ensures ExpiredOverRun(s, WithoutIps(before, Expired(before, sites)), sites, answers)
    ensures forall i | i in s.ips && LeasedBySome(sites, s.ips[i].host) ::
              i in before.ips && i !in Expired(before, sites)
  {
    hide AllLeased, Leases, Covers, ReadFrom, OffDevices, ExpiryOf, Expirable, LeasedBySome, InterfacesSafe, CablesSafe,
         IpsKept, DevicesKept, Linked, IdsSafe, Expired;
    var t := WithoutIps(before, Expired(before, sites));
    forall h ensures h in AllLeased(answers) <==> LeasedBySome(answers, h) {
      AllLeasedHas(answers, h);
    }
    forall h | LeasedBySome(sites, h) ensures LeasedBySome(answers, h) {
      ReadLeases(sites, answers, h);
    }
    forall i | i in s.ips
      ensures i !in t.ips ==> ExpiryOf(s, t, sites, answers, i)
      ensures Expirable(s, t, sites, answers, i) ==> i !in t.ips
      ensures LeasedBySome(sites, s.ips[i].host) ==> i !in Expired(before, sites)
    {
      OneOverTheRun(s, before, sites, answers, i);
    }
    RecordsOverTheRun(s, before, sites, answers);
  }

  lemma RecordsOverTheRun(s: Store, before: Store, sites: seq<SiteResult>, answers: seq<SiteResult>)
    requires Written(s, before, AllLeased(answers))
    requires forall h :: h in AllLeased(answers) <==> LeasedBySome(answers, h)
    ensures var t := WithoutIps(before, Expired(before, sites));
            && (forall i | i in s.ips && i in t.ips :: t.ips[i].host == s.ips[i].host && t.ips[i].tags == s.ips[i].tags)
            && (forall i | i in t.ips && i !in s.ips :: LeasedBySome(answers, t.ips[i].host))
            && DevicesKept(s, t) && InterfacesSafe(s, t) && CablesSafe(s, t) && t.vms.Keys == s.vms.Keys
    ensures forall i | i in s.ips :: i in before.ips
  {
    hide AllLeased, LeasedBySome, Expired;
  }

  /** Ours, without a lease anywhere, in a scope that was read, and on no device. */
  ghost predicate Expirable(s: Store, t: Store, sites: seq<SiteResult>, answers: seq<SiteResult>, i: Id)
    requires i in s.ips
  {
    && "managed-netbox-monitor" in s.ips[i].tags && "src-dhcp" in s.ips[i].tags && !LeasedBySome(answers, s.ips[i].host)
    && (exists site | site in sites :: Covers(site, s.ips[i].host))
    && OffDevices(s, t, s.ips[i].place)
  }

  lemma OneOverTheRun(s: Store, before: Store, sites: seq<SiteResult>, answers: seq<SiteResult>, i: Id)
    requires IpsKept(s, before, AllLeased(answers)) && i in s.ips
    requires Linked(s) && Linked(before) && InterfacesSafe(s, before)
    requires forall h :: h in AllLeased(answers) <==> LeasedBySome(answers, h)
    requires forall h | LeasedBySome(sites, h) :: LeasedBySome(answers, h)
    ensures var t := WithoutIps(before, Expired(before, sites));
            && (i !in t.ips ==> ExpiryOf(s, t, sites, answers, i))
            && (Expirable(s, t, sites, answers, i) ==> i !in t.ips)
            && (LeasedBySome(sites, s.ips[i].host) ==> i !in Expired(before, sites))
  {
    var t, was, left := WithoutIps(before, Expired(before, sites)), s.ips[i], before.ips[i];
    NotLeased(sites, was.host);
    hide AllLeased, Leases, Covers, LeasedBySome;
    assert i in t.ips <==> !Expires(left, sites);
    assert DeviceGone(s, t, was.place) == DeviceGone(s, before, was.place);
    if !LeasedBySome(answers, was.host) {
      assert left.place.OnInterface? <==> !OffDevices(s, t, was.place);
    }
  }

  lemma NotLeased(sites: seq<SiteResult>, host: Host)
    ensures (forall site | site in sites :: !Leases(site, host)) <==> !LeasedBySome(sites, host)
  {
  }

  /** The conditions under which an address may be gone after a run. */
  ghost predicate ExpiryOf(s: Store, t: Store, sites: seq<SiteResult>, answers: seq<SiteResult>, i: Id)
    requires i in s.ips
  {
    && "managed-netbox-monitor" in s.ips[i].tags && "src-dhcp" in s.ips[i].tags
    && (exists site | site in sites :: Covers(site, s.ips[i].host))
    && !LeasedBySome(sites, s.ips[i].host)
    && (OffDevices(s, t, s.ips[i].place) || LeasedBySome(answers, s.ips[i].host))
  }

  lemma ReadLeases(sites: seq<SiteResult>, answers: seq<SiteResult>, h: Host)
    requires ReadFrom(sites, answers) && LeasedBySome(sites, h)
    ensures LeasedBySome(answers, h)
  {
    var site :| site in sites && Leases(site, h);
    var k :| 0 <= k < |sites| && sites[k] == site;
    assert answers[k] == site;
  }

  lemma NothingCovered(s: Store, sites: seq<SiteResult>, live: set<Host>)
    requires Collected(sites, live, [])
    ensures Expired(s, sites) == {}
  {
    forall i | i in s.ips ensures !Expires(s.ips[i], sites) {
      if ParseAddr(s.ips[i].host).Some? {
        assert !InSome(ParseAddr(s.ips[i].host).value, []);
      }
    }
  }

  // ------------------------------------------------------------------ results

  /**
   What a run spares: whatever has a live lease, is not ours, sits on a device, or lies
   only in scopes of sites that failed. All else about the inventory stands.
   */
  lemma Spared(s: Store, sites: seq<SiteResult>, i: Id)
    requires i in s.ips
    requires || (exists site | site in sites :: Leases(site, s.ips[i].host))
             || !IsManaged(s.ips[i].tags, Some(SRC_DHCP)) || s.ips[i].place.OnInterface?
             || (forall site | site in sites && Covers(site, s.ips[i].host) :: site.Failed?)
    ensures var t := WithoutIps(s, Expired(s, sites));
            && i in t.ips && t.ips[i] == s.ips[i]
            && t.interfaces == s.interfaces && t.cables == s.cables && t.devices.Keys == s.devices.Keys
  {
  }

  /** A primary address on a device's own interface never expires, so no device loses it. */
  lemma PrimariesKept(s: Store, sites: seq<SiteResult>)
    requires PrimariesOwned(s)
    ensures WithoutIps(s, Expired(s, sites)).devices == s.devices
  {
    var gone := Expired(s, sites);
    forall d | d in s.devices ensures ReleasedAll(s.devices[d], gone) == s.devices[d] {
      forall i | Designates(s.devices[d], i) ensures i !in gone {
        assert i in IpsOf(s, d);
      }
    }
  }

  /** Ours, off every device, leased by site `k` alone, and in a scope of another site. */
  ghost predicate LostByFailure(ip: Ip, sites: seq<SiteResult>, k: nat)
    requires k < |sites|
  {
    && IsManaged(ip.tags, Some(SRC_DHCP)) && !ip.place.OnInterface? && Leases(sites[k], ip.host)
    && (forall j | 0 <= j < |sites| && j != k :: !Leases(sites[j], ip.host))
    && (exists j | 0 <= j < |sites| && j != k :: Covers(sites[j], ip.host))
  }

  /**
   What the failure of one site adds to the expired addresses: exactly those it alone
   leases while a scope of another site covers them. With disjoint scopes that is nothing.
   */
  lemma FailureAdds(s: Store, sites: seq<SiteResult>, k: nat, i: Id)
    requires k < |sites| && i in s.ips
    ensures i in Expired(s, sites[k := Failed]) && i !in Expired(s, sites) <==> LostByFailure(s.ips[i], sites, k)
  {
    var failing, h := sites[k := Failed], s.ips[i].host;
    SomeSite(sites, h);
    SomeSite(failing, h);
    assert !Leases(failing[k], h) && !Covers(failing[k], h);
    assert forall j | 0 <= j < |sites| && j != k :: failing[j] == sites[j];
    hide Leases, Covers, IsManaged;
  }

  /** The site is found at an index. */
  lemma SomeSite(sites: seq<SiteResult>, h: Host)
    ensures (exists site | site in sites :: Covers(site, h)) <==> (exists j | 0 <= j < |sites| :: Covers(sites[j], h))
    ensures (forall site | site in sites :: !Leases(site, h)) <==> (forall j | 0 <= j < |sites| :: !Leases(sites[j], h))
  {
  }

  /** The failure of one site adds no expired address if and only if there is no such address. */
  lemma FailureIsHarmlessIff(s: Store, sites: seq<SiteResult>, k: nat)
    requires k < |sites|
    ensures Expired(s, sites[k := Failed]) <= Expired(s, sites)
       <==> forall i | i in s.ips :: !LostByFailure(s.ips[i], sites, k)
  {
    forall i | i in s.ips
      ensures LostByFailure(s.ips[i], sites, k) <==> i in Expired(s, sites[k := Failed]) && i !in Expired(s, sites)
    {
      FailureAdds(s, sites, k, i);
    }
    hide Expires, LostByFailure;
  }

  /** It happens: two sites share a scope, and the one that leases the address fails. */
  lemma SharedScopeLosesLease() returns (s: Store, sites: seq<SiteResult>, i: Id)
    ensures |sites| == 2 && i in s.ips && i in Expired(s, sites[0 := Failed]) && i !in Expired(s, sites)
  {
    hide InScope, Leases, Covers, LostByFailure, Expires;
    var host := V4(0x0a00_0005);
    var shared := Scope(Some(host), None, Some(32));
    ScopeOfOne(shared, 0x0a00_0005);
    var first := Fetched([shared], [Lease(Some(host), false, None, "", "lan")], None);
    var second := Fetched([shared], [], None);
    LeasedHere(first, 0, host);
    CoveredHere(second, 0, host);
    NothingLeased(second, host);
    var ip := Ip(host, {MANAGED, SRC_DHCP}, Nowhere, Info("dhcp", "", ""), None);
    sites, i := [first, second], 1;
    s := Store(map[], map[], map[], map[1 := ip], map[], map[], map[], 2);
    LostTo(ip, first, second);
    FailureAdds(s, sites, 0, i);
    hide LostByFailure, Expires;
  }

  lemma LeasedHere(site: SiteResult, k: nat, host: Host)
    requires site.Fetched? && k < |site.leases| && site.leases[k].address == Some(host)
    ensures Leases(site, host)
  {
  }

  lemma NothingLeased(site: SiteResult, host: Host)
    requires site.Fetched? && site.leases == []
    ensures !Leases(site, host)
  {
  }

  lemma CoveredHere(site: SiteResult, k: nat, host: Host)
    requires site.Fetched? && k < |site.scopes| && InScope(site.scopes[k], host)
    ensures Covers(site, host)
  {
    hide InScope;
  }

  lemma LostTo(ip: Ip, first: SiteResult, second: SiteResult)
    requires IsManaged(ip.tags, Some(SRC_DHCP)) && !ip.place.OnInterface?
    requires Leases(first, ip.host) && !Leases(second, ip.host) && Covers(second, ip.host)
    ensures LostByFailure(ip, [first, second], 0)
  {
    hide Leases, Covers, IsManaged;
    var sites := [first, second];
    assert sites[0] == first && sites[1] == second;
    assert Covers(sites[1], ip.host);
  }

  lemma ScopeOfOne(sc: Scope, host: nat)
    requires sc.start == Some(V4(host)) && sc.mask == Some(32) && host < 0x1_0000_0000
    ensures InScope(sc, V4(host))
  {
    Ipv4Space();
    hide Pow2;
  }

  lemma Ipv4Space()
    ensures Pow2(32) == 0x1_0000_0000
  {
    Pow2Adds(16, 16);
    Pow2Adds(8, 8);
    assert Pow2(8) == 256;
  }
}
