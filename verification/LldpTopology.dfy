/**
 Drawing what a switch reports: finding or creating the devices and ports at the other
 end, and documenting the links as cables (lldp.py:493-587, 736-875).
 */
module LldpTopology {
  import opened Prelude
  import opened Networks
  import opened NetBoxStore
  import opened Common
  import opened LldpNeighbors
  import opened LldpSafety
  import opened LldpMerge
  import opened LldpDedup

  // ------------------------------------------------------------------ cables

  predicate Free(s: Store, iface: Id) {
    forall c | c in s.cables :: iface !in s.cables[c].ends
  }

  /** From `s` to `t` at most `n` cables were drawn, each between ends free in `s`; the others stand. */
  ghost predicate Wired(s: Store, t: Store, n: nat) {
    && (forall c | c in s.cables :: c in t.cables && t.cables[c] == s.cables[c])
    && (forall c, e | c in t.cables && c !in s.cables && e in t.cables[c].ends :: Free(s, e))
    && |t.cables.Keys - s.cables.Keys| <= n
    && (CablesApart(s) ==> CablesApart(t))
  }

  lemma SameCables(s: Store, t: Store)
    requires t.cables == s.cables
    ensures Wired(s, t, 0)
  {
    assert t.cables.Keys - s.cables.Keys == {};
  }

  lemma WiredCompose(s: Store, t: Store, u: Store, n: nat, m: nat)
    requires Wired(s, t, n) && Wired(t, u, m)
    ensures Wired(s, u, n + m)
  {
    hide Free, CablesApart;
    FreeBefore(s, t);
    NewCablesAdd(s.cables.Keys, t.cables.Keys, u.cables.Keys);
    forall c, e | c in u.cables && c !in s.cables && e in u.cables[c].ends ensures Free(s, e) {
      if c !in t.cables {
        assert Free(t, e);
      }
    }
  }

  lemma NewCablesAdd(a: set<Id>, b: set<Id>, c: set<Id>)
    requires a <= b <= c
    ensures |c - a| == |b - a| + |c - b|
  {
    assert c - a == (b - a) + (c - b);
  }

  lemma FreeBefore(s: Store, t: Store)
    requires forall c | c in s.cables :: c in t.cables && t.cables[c] == s.cables[c]
    ensures forall e :: Free(t, e) ==> Free(s, e)
  {
  }

  lemma NewCable(s: Store, c: Cable)
    requires IdsBelow(s) && forall e | e in c.ends :: Free(s, e)
    ensures Wired(s, AddedCable(s, c), 1)
  {
    var t := AddedCable(s, c);
    assert t.cables.Keys - s.cables.Keys == {s.nextId};
    if CablesApart(s) {
      forall x, y | x in t.cables && y in t.cables && x != y ensures t.cables[x].ends !! t.cables[y].ends {
        if x == s.nextId {
          assert forall e | e in c.ends :: e !in s.cables[y].ends;
        } else if y == s.nextId {
          assert forall e | e in c.ends :: e !in s.cables[x].ends;
        }
      }
    }
  }

  /** The cable between two ports, marked as ours. */
  function Drawing(local: Id, remote: Id, now: real): Cable {
    Cable({local, remote}, {MANAGED, SRC_LLDP}, Some(now))
  }

  /** lldp.py:841-875: drawn if and only if both ends are free. */
  method EnsureCable(nb: NetBox, local: Id, remote: Id, now: real) returns (r: Outcome<bool>)
    requires Linked(nb.State()) && local in nb.interfaces && remote in nb.interfaces
    modifies nb
    ensures Explained(r, old(nb.faults), nb.faults)
    ensures Safe(old(nb.State()), nb.State()) && Linked(nb.State())
    ensures Wired(old(nb.State()), nb.State(), 1) && nb.devices == old(nb.devices)
    ensures nb.dryRun ==> nb.State() == old(nb.State())
    ensures r.Ok? ==> r.value == (old(Free(nb.State(), local)) && old(Free(nb.State(), remote)) && !nb.dryRun)
    ensures nb.State() == if r == Ok(true) then AddedCable(old(nb.State()), Drawing(local, remote, now))
                             else old(nb.State())
  {
    ghost var s := nb.State();
    SafeSelf(s);
    SameCables(s, s);
    if !Free(nb.State(), local) || !Free(nb.State(), remote) {
      // documented already, or a conflict that is left for a human
      return Ok(false);
    }
    var cable := nb.CreateCable(local, remote, {MANAGED, SRC_LLDP}, now);
    if cable.Raised? {
      return Raised(cable.refusal);
    }
    if cable.value.Some? {
      NewCable(s, Drawing(local, remote, now));
      AddedCableSafe(s, Drawing(local, remote, now));
    }
    r := Ok(cable.value.Some?);
  }

  // ----------------------------------------------------------------- lookups

  predicate IsNamed(s: Store, device: Id, name: string) {
    device in s.devices && Fold(s.devices[device].name) == Fold(name)
  }

  /** Letter by letter, in upper or lower case. */
  lemma NamedIs(s: Store, device: Id, name: string)
    ensures IsNamed(s, device, name) <==>
            && device in s.devices && |s.devices[device].name| == |name|
            && forall i | 0 <= i < |name| :: SameLetter(s.devices[device].name[i], name[i])
  {
    hide Fold, SameLetter;
    if device in s.devices {
      FoldIs(s.devices[device].name, name);
    }
  }

  predicate NameTaken(s: Store, name: string) {
    exists d | d in s.devices :: IsNamed(s, d, name)
  }

  /** The MAC leads to a device, and to no guest. */
  predicate MacKnown(s: Store, mac: string) {
    !OnSomeVm(s, mac) && exists d | d in s.devices :: Carries(s, d, mac)
  }

  /** The device has the address on one of its interfaces. */
  predicate HoldsIp(s: Store, device: Id, host: Host) {
    exists i | i in s.ips :: s.ips[i].host == host && i in IpsOf(s, device)
  }

  /** lldp.py:786-808: the whole name, then the short one, then the chassis MAC, then the address. */
  predicate FoundAs(s: Store, n: Neighbor, device: Id) {
    && device in s.devices
    && if n.sysname.Some? && NameTaken(s, n.sysname.value) then IsNamed(s, device, n.sysname.value)
       else if n.sysname.Some? && NameTaken(s, Short(n.sysname.value)) then IsNamed(s, device, Short(n.sysname.value))
       else if n.chassis.Some? && MacKnown(s, n.chassis.value) then Carries(s, device, n.chassis.value)
       else n.mgmtIp.Some? && HoldsIp(s, device, n.mgmtIp.value)
  }

  ghost predicate NobodyFound(s: Store, n: Neighbor) {
    forall d | d in s.devices :: !FoundAs(s, n, d)
  }

  /** Devices by name, without regard to case. */
  method FindByName(nb: NetBox, name: string) returns (r: Outcome<Option<Id>>)
    modifies nb`faults
    ensures Explained(r, old(nb.faults), nb.faults) && (r.Raised? ==> !r.refusal)
    ensures r.Ok? ==> if r.value.Some? then IsNamed(nb.State(), r.value.value, name) else !NameTaken(nb.State(), name)
  {
    var ok := nb.Reached();
    if !ok {
      return Raised(false);
    }
    if exists d | d in nb.devices :: IsNamed(nb.State(), d, name) {
      var d :| d in nb.devices && IsNamed(nb.State(), d, name);
      return Ok(Some(d));
    }
    r := Ok(None);
  }

  /** lldp.py:799-807: the device that holds one of the records of an address. */
  method FindHolder(nb: NetBox, host: Host) returns (r: Outcome<Option<Id>>)
    requires Linked(nb.State())
    modifies nb`faults
    ensures Explained(r, old(nb.faults), nb.faults) && (r.Raised? ==> !r.refusal)
    ensures r.Ok? ==> if r.value.Some? then r.value.value in nb.devices && HoldsIp(nb.State(), r.value.value, host)
                      else forall d | d in nb.devices :: !HoldsIp(nb.State(), d, host)
  {
    var ok := nb.Reached();
    if !ok {
      return Raised(false);
    }
    if exists i | i in nb.ips :: nb.ips[i].host == host && nb.ips[i].place.OnInterface? {
      var i :| i in nb.ips && nb.ips[i].host == host && nb.ips[i].place.OnInterface?;
      var device := nb.interfaces[nb.ips[i].place.iface].device;
      assert i in IpsOf(nb.State(), device);
      return Ok(Some(device));
    }
    r := Ok(None);
  }

  /** lldp.py:786-808. A MAC lookup that does not get through is as good as an unknown MAC. */
  method FindRemoteDevice(nb: NetBox, n: Neighbor) returns (r: Outcome<Option<Id>>)
    requires Linked(nb.State())
    modifies nb`faults
    ensures Explained(r, old(nb.faults), nb.faults) && (r.Raised? ==> !r.refusal)
    ensures r.Ok? && r.value.Some? ==> r.value.value in nb.devices
    ensures r.Ok? && nb.faults == old(nb.faults) ==>
              if r.value.Some? then FoundAs(nb.State(), n, r.value.value) else NobodyFound(nb.State(), n)
  {
    hide Linked, IsNamed, NameTaken, Carries, OnSomeVm, HoldsIp, Short, Fold;
    ghost var s := nb.State();
    if n.sysname.Some? {
      r := FindByName(nb, n.sysname.value);
      if r.Raised? || r.value.Some? {
        NamedIsThere(s, r, n.sysname.value);
        return;
      }
      r := FindByName(nb, Short(n.sysname.value));
      if r.Raised? || r.value.Some? {
        NamedIsThere(s, r, Short(n.sysname.value));
        return;
      }
    }
    if n.chassis.Some? {
      var device := FindDeviceByMac(nb, n.chassis.value);
      CarrierKnown(s, n.chassis.value);
      if device.Some? {
        return Ok(device);
      }
    }
    if n.mgmtIp.Some? {
      r := FindHolder(nb, n.mgmtIp.value);
      return;
    }
    r := Ok(None);
  }

  lemma NamedIsThere(s: Store, r: Outcome<Option<Id>>, name: string)
    requires r.Ok? && r.value.Some? ==> IsNamed(s, r.value.value, name)
    ensures r.Ok? && r.value.Some? ==> r.value.value in s.devices && NameTaken(s, name)
  {
  }

  lemma CarrierKnown(s: Store, mac: string)
    requires Linked(s)
    ensures forall d | Carries(s, d, mac) :: d in s.devices && (OnSomeVm(s, mac) || MacKnown(s, mac))
    ensures OnSomeVm(s, mac) || (forall o :: !Carries(s, o, mac)) ==> !MacKnown(s, mac)
  {
  }

  // ----------------------------------------------------------------- devices

  /** What a safe request that draws no cable and deletes no device does. */
  ghost predicate Quiet(s: Store, t: Store) {
    Safe(s, t) && Linked(t) && Grown(s, t) && t.cables == s.cables && s.devices.Keys <= t.devices.Keys
  }

  lemma QuietThen(s: Store, t: Store, u: Store)
    requires Linked(s) && Quiet(s, t) && Safe(t, u) && Linked(u) && Grown(t, u)
    requires u.cables == t.cables && t.devices.Keys <= u.devices.Keys
    ensures Quiet(s, u)
  {
    SafeTransitive(s, t, u);
  }

  lemma QuietTwice(s: Store, t: Store, u: Store)
    requires Linked(s) && Quiet(s, t) && Quiet(t, u)
    ensures Quiet(s, u)
  {
    SafeTransitive(s, t, u);
  }

  lemma QuietSelf(s: Store)
    requires Linked(s)
    ensures Quiet(s, s)
  {
    SafeSelf(s);
  }

  lemma QuietLinked(s: Store, t: Store)
    requires Quiet(s, t)
    ensures Linked(t)
  {
  }

  /** At most the primary address of one device changed. */
  ghost predicate OnlyPrimary(s: Store, t: Store, device: Id) {
    && device in s.devices && device in t.devices
    && t.devices == s.devices[device := s.devices[device].(primary4 := t.devices[device].primary4)]
  }

  /** At most the record of one address changed, or was added. */
  ghost predicate OnlyAddress(s: Store, t: Store, host: Option<Host>) {
    && (forall i | i in s.ips && i in t.ips && t.ips[i] != s.ips[i] :: host == Some(s.ips[i].host))
    && (forall i | i in t.ips && i !in s.ips :: host == Some(t.ips[i].host))
  }

  /** At most a record of one MAC, on one interface, was added. */
  ghost predicate OnlyMac(s: Store, t: Store, mac: Option<string>, iface: Id, id: Id) {
    t.macs == s.macs || (mac.Some? && t.macs == s.macs[id := MacRecord(mac.value, OnInterface(iface))])
  }

  /** The record the management address of a new switch is to get. */
  function MgmtAddress(host: Host, iface: Id, name: string, now: real): Wanted {
    Wanted(host, SRC_LLDP, OnInterface(iface), Info("active", "", "LLDP mgmt IP for " + name), now)
  }

  lemma OnlyPrimarySelf(s: Store, t: Store, device: Id)
    requires device in s.devices && t.devices == s.devices
    ensures OnlyPrimary(s, t, device) && forall u | OnlyPrimary(t, u, device) :: OnlyPrimary(s, u, device)
  {
  }

  lemma OnlyAddressSelf(s: Store, t: Store, host: Option<Host>)
    requires t.ips == s.ips
    ensures OnlyAddress(s, t, host) && forall u | OnlyAddress(t, u, host) :: OnlyAddress(s, u, host)
  {
  }

  lemma TouchesOnly(s: Store, t: Store, w: Wanted)
    requires Linked(s) && IpTouched(s, t, w)
    ensures OnlyAddress(s, t, Some(w.host))
  {
  }

  /**
   The device has the address on record as its primary one, on the interface, unless the
   server would not have it.
   */
  ghost predicate Addressed(s: Store, t: Store, device: Id, mgmtIp: Option<Host>, iface: Id, now: real) {
    device in t.devices
    && var primary := t.devices[device].primary4;
       if mgmtIp.None? then primary.None? && t.ips == s.ips
       else if primary.None? then !HasRecord(t, mgmtIp.value)
       else exists text ::
              OnRecord(s, t, Wanted(mgmtIp.value, "src-lldp", OnInterface(iface), Info("active", "", text), now),
                       primary.value)
  }

  lemma AddressedBy(s: Store, t: Store, u: Store, device: Id, host: Host, iface: Id, name: string, now: real)
    requires t.ips == s.ips && device in u.devices
    requires if u.devices[device].primary4.Some?
             then OnRecord(t, u, MgmtAddress(host, iface, name, now), u.devices[device].primary4.value)
             else !HasRecord(u, host)
    ensures Addressed(s, u, device, Some(host), iface, now)
  {
    if u.devices[device].primary4.Some? {
      assert OnRecord(s, u, MgmtAddress(host, iface, name, now), u.devices[device].primary4.value);
    }
  }

  lemma SameOnRecord(s: Store, t: Store, u: Store, w: Wanted, ip: Id)
    requires OnRecord(s, t, w, ip)
    ensures u.ips == t.ips ==> OnRecord(s, u, w, ip)
  {
  }

  /** lldp.py:574-586: the address, as the primary one of a device that has none. */
  method AddAddress(nb: NetBox, device: Id, w: Wanted) returns (r: Outcome<bool>)
    requires Linked(nb.State()) && device in nb.devices
    modifies nb
    ensures Explained(r, old(nb.faults), nb.faults)
    ensures Quiet(old(nb.State()), nb.State()) && OnlyPrimary(old(nb.State()), nb.State(), device)
    ensures OnlyAddress(old(nb.State()), nb.State(), Some(w.host))
    ensures nb.interfaces == old(nb.interfaces) && nb.macs == old(nb.macs)
    ensures r.Ok? && !nb.dryRun && old(nb.devices[device].primary4).None? && nb.devices[device].primary4.None? ==>
              !HasRecord(nb.State(), w.host)
    ensures r.Ok? && !nb.dryRun && old(nb.devices[device].primary4).None? && nb.devices[device].primary4.Some? ==>
              OnRecord(old(nb.State()), nb.State(), w, nb.devices[device].primary4.value)
  {
    hide Safe, Grown, Linked, Placed, IpTouched, OnlyAddress, OnRecord;
    ghost var s := nb.State();
    LinkedPlaced(s);
    LinkedBelow(s);
    var ip := UpsertIp(nb, w);
    ghost var t := nb.State();
    IpTouchedSafe(s, t, w);
    TouchesOnly(s, t, w);
    QuietSelf(s);
    QuietThen(s, s, t);
    if ip.Raised? {
      return Raised(ip.refusal);
    }
    r := Ok(true);
    if ip.value.Some? && nb.devices[device].primary4.None? {
      WithPrimariesSafe(t, device, ip.value, nb.devices[device].primary6);
      r := nb.SetPrimary4(device, ip.value.value);
      SameAddresses(s, t, nb.State(), Some(w.host));
      if !nb.dryRun {
        SameOnRecord(s, t, nb.State(), w, ip.value.value);
      }
      if r.Ok? {
        QuietThen(s, t, nb.State());
      }
    }
  }

  lemma SameAddresses(s: Store, t: Store, u: Store, host: Option<Host>)
    requires OnlyAddress(s, t, host)
    ensures u.ips == t.ips ==> OnlyAddress(s, u, host)
  {
  }

  /** lldp.py:561-586: the interface with the chassis MAC and the primary address. */
  method AddManagement(nb: NetBox, device: Id, mgmtIp: Option<Host>, chassis: Option<string>, name: string, now: real)
    returns (r: Outcome<bool>)
    requires Linked(nb.State()) && !nb.dryRun && device in nb.devices
    modifies nb
    ensures Explained(r, old(nb.faults), nb.faults)
    ensures Quiet(old(nb.State()), nb.State())
    ensures r.Ok? ==>
              && OnlyPrimary(old(nb.State()), nb.State(), device)
              && OnlyAddress(old(nb.State()), nb.State(), mgmtIp)
              && OnlyMac(old(nb.State()), nb.State(), chassis, old(nb.nextId), old(nb.nextId) + 1)
              && nb.interfaces == old(nb.interfaces)[old(nb.nextId) := Interface(device, MGMT)]
              && (old(nb.devices[device].primary4).None? ==>
                    Addressed(old(nb.State()), nb.State(), device, mgmtIp, old(nb.nextId), now))
    ensures r.Ok? && nb.faults == old(nb.faults) && chassis.Some? ==> Carries(nb.State(), device, chassis.value)
  {
    hide Safe, Grown, Linked, Carries, OnlyAddress, Quiet, OnRecord, HasRecord;
    ghost var s := nb.State();
    QuietSelf(s);
    r := Ok(true);
    var mgmt :- nb.CreateInterface(device, MGMT);
    AddedInterfaceSafe(s, device, MGMT);
    QuietThen(s, s, nb.State());
    ghost var carried := nb.State();
    if chassis.Some? {
      ghost var t := nb.State();
      nb.SetInterfaceMac(mgmt.value, chassis.value);
      if nb.State() != t {
        MacTouchedSafe(t, nb.State(), mgmt.value, chassis.value);
        QuietThen(s, t, nb.State());
      }
      CarriedBy(nb.State(), mgmt.value, chassis.value);
      carried := nb.State();
    }
    assert nb.interfaces[mgmt.value] == Interface(device, MGMT);
    OnlyPrimarySelf(s, nb.State(), device);
    OnlyAddressSelf(s, nb.State(), mgmtIp);
    if mgmtIp.Some? {
      ghost var t := nb.State();
      r := AddAddress(nb, device, MgmtAddress(mgmtIp.value, mgmt.value, name, now));
      QuietTwice(s, t, nb.State());
      if r.Ok? && s.devices[device].primary4.None? {
        AddressedBy(s, t, nb.State(), device, mgmtIp.value, mgmt.value, name, now);
      }
    }
    if chassis.Some? {
      SameCarriers(carried, nb.State(), device, chassis.value);
    }
  }

  lemma LinkedPlaced(s: Store)
    requires Linked(s)
    ensures Placed(s)
  {
  }

  lemma CarriedBy(s: Store, iface: Id, mac: string)
    requires iface in s.interfaces
    ensures HasMac(s, iface, mac) ==> Carries(s, s.interfaces[iface].device, mac)
  {
  }

  lemma SameCarriers(s: Store, t: Store, device: Id, mac: string)
    requires t.macs == s.macs && t.interfaces == s.interfaces
    ensures Carries(t, device, mac) == Carries(s, device, mac)
  {
  }

  /**
   A switch of ours at the site, named after what it calls itself, with a management
   interface for the MAC and the address it was reported with. Nothing else is new, and
   nobody else's record changed.
   */
  ghost predicate NewSwitch(s: Store, t: Store, id: Id, site: string, x: Sighting, now: real) {
    && id == s.nextId && id in t.devices
    && t.devices == s.devices[id := t.devices[id]]
    && t.devices[id] == Device(t.devices[id].name, site, {MANAGED, SRC_LLDP}, Active, t.devices[id].primary4, None,
                               Some(now))
    && (x.sysname.Some? && Short(x.sysname.value) != "" ==> t.devices[id].name == Short(x.sysname.value))
    && t.interfaces == s.interfaces[id + 1 := Interface(id, MGMT)]
    && OnlyMac(s, t, x.chassis, id + 1, id + 2)
    && OnlyAddress(s, t, x.mgmtIp) && Addressed(s, t, id, x.mgmtIp, id + 1, now)
    && t.cables == s.cables && t.vms == s.vms
  }

  /** lldp.py:542-587, the part that documents a switch nobody has documented yet. */
  method CreateSwitch(nb: NetBox, site: string, x: Sighting, now: real) returns (r: Outcome<Option<Handle>>)
    requires Linked(nb.State())
    modifies nb
    ensures Explained(r, old(nb.faults), nb.faults)
    ensures Quiet(old(nb.State()), nb.State())
    ensures nb.dryRun ==> nb.State() == old(nb.State())
    ensures r.Ok? && r.value.Some? ==> HandleOk(nb.State(), r.value.value) && Current(nb.State(), r.value.value)
    ensures r.Ok? ==> r.value.None? == nb.dryRun
    ensures r.Ok? && r.value.Some? ==> NewSwitch(old(nb.State()), nb.State(), r.value.value.id, site, x, now)
    ensures r.Ok? && r.value.Some? && nb.faults == old(nb.faults) && x.chassis.Some? ==>
              Carries(nb.State(), r.value.value.id, x.chassis.value)
  {
    hide Safe, Grown, Linked, SameDevice, Carries, OnlyMac, OnlyAddress, OnlyPrimary, Addressed;
    ghost var s := nb.State();
    QuietSelf(s);
    var name: string := *;
    if x.sysname.Some? && Short(x.sysname.value) != "" {
      name := Short(x.sysname.value);
    }
    var created :- nb.CreateDevice(name, site, {MANAGED, SRC_LLDP}, now);
    if created.None? {
      return Ok(None);
    }
    var device := created.value;
    ghost var t := nb.State();
    AddedDeviceSafe(s, nb.devices[device]);
    QuietThen(s, s, t);
    var managed := AddManagement(nb, device, x.mgmtIp, x.chassis, name, now);
    QuietTwice(s, t, nb.State());
    if managed.Raised? {
      return Raised(managed.refusal);
    }
    LinkedBelow(s);
    QuietHas(s, nb.State());
    SwitchIsNew(s, t, nb.State(), Device(name, site, {MANAGED, SRC_LLDP}, Active, None, None, Some(now)), x);
    FreshHandle(nb.State(), device);
    r := Ok(Some(Handle(device, nb.devices[device])));
  }

  lemma SwitchIsNew(s: Store, t: Store, u: Store, d: Device, x: Sighting)
    requires IdsBelow(s) && t == AddedDevice(s, d)
    requires d.tags == {MANAGED, SRC_LLDP} && d.status == Active && d.primary6.None? && d.lastSeen.Some?
    requires OnlyPrimary(t, u, s.nextId) && OnlyAddress(t, u, x.mgmtIp)
    requires OnlyMac(t, u, x.chassis, t.nextId, t.nextId + 1)
    requires u.interfaces == t.interfaces[t.nextId := Interface(s.nextId, MGMT)]
    requires x.sysname.Some? && Short(x.sysname.value) != "" ==> d.name == Short(x.sysname.value)
    requires u.cables == s.cables && u.vms == s.vms
    requires Addressed(t, u, s.nextId, x.mgmtIp, t.nextId, d.lastSeen.value)
    ensures NewSwitch(s, u, s.nextId, d.site, x, d.lastSeen.value)
  {
  }

  lemma FreshHandle(s: Store, device: Id)
    requires Linked(s) && device in s.devices
    ensures HandleOk(s, Handle(device, s.devices[device])) && Current(s, Handle(device, s.devices[device]))
  {
  }

  /** What a switch is known by before it is polled. */
  datatype Sighting = Sighting(mgmtIp: Option<Host>, chassis: Option<string>, sysname: Option<string>)

  /** lldp.py:520-537: the chassis MAC, then the short name, then the address. */
  predicate KnownAs(s: Store, x: Sighting, device: Id) {
    && device in s.devices
    && if x.chassis.Some? && MacKnown(s, x.chassis.value) then Carries(s, device, x.chassis.value)
       else if x.sysname.Some? && NameTaken(s, Short(x.sysname.value)) then IsNamed(s, device, Short(x.sysname.value))
       else x.mgmtIp.Some? && HoldsIp(s, device, x.mgmtIp.value)
  }

  /** Some record of the address sits on no device, or there is none. */
  predicate Unheld(s: Store, host: Host) {
    !HasRecord(s, host) || exists i | i in s.ips :: s.ips[i].host == host && !s.ips[i].place.OnInterface?
  }

  /** No lookup leads to a device. */
  predicate Unsighted(s: Store, x: Sighting) {
    && (x.chassis.Some? ==> !MacKnown(s, x.chassis.value))
    && (x.sysname.Some? ==> !NameTaken(s, Short(x.sysname.value)))
    && (x.mgmtIp.Some? ==> Unheld(s, x.mgmtIp.value))
  }

  /** lldp.py:492-509: whatever record of the address comes first. */
  method DeviceByIp(nb: NetBox, host: Host) returns (r: Outcome<Option<Id>>)
    requires Linked(nb.State())
    modifies nb`faults
    ensures Explained(r, old(nb.faults), nb.faults) && (r.Raised? ==> !r.refusal)
    ensures r.Ok? ==> if r.value.Some? then r.value.value in nb.devices && HoldsIp(nb.State(), r.value.value, host)
                      else Unheld(nb.State(), host)
  {
    var ok := nb.Reached();
    if !ok {
      return Raised(false);
    }
    if exists i | i in nb.ips :: nb.ips[i].host == host {
      var i :| i in nb.ips && nb.ips[i].host == host;
      if nb.ips[i].place.OnInterface? {
        var device := nb.interfaces[nb.ips[i].place.iface].device;
        assert i in IpsOf(nb.State(), device);
        return Ok(Some(device));
      }
    }
    r := Ok(None);
  }

  /** lldp.py:520-537. */
  method FindKnown(nb: NetBox, x: Sighting) returns (r: Outcome<Option<Id>>)
    requires Linked(nb.State())
    modifies nb`faults
    ensures Explained(r, old(nb.faults), nb.faults) && (r.Raised? ==> !r.refusal)
    ensures r.Ok? && r.value.Some? ==> r.value.value in nb.devices
    ensures r.Ok? && nb.faults == old(nb.faults) ==>
              if r.value.Some? then KnownAs(nb.State(), x, r.value.value) else Unsighted(nb.State(), x)
  {
    hide Linked, IsNamed, NameTaken, Carries, OnSomeVm, HoldsIp, Unheld, Short, Fold;
    ghost var s := nb.State();
    if x.chassis.Some? {
      var device := FindDeviceByMac(nb, x.chassis.value);
      CarrierKnown(s, x.chassis.value);
      if device.Some? {
        return Ok(device);
      }
    }
    if x.sysname.Some? {
      r := FindByName(nb, Short(x.sysname.value));
      if r.Raised? || r.value.Some? {
        NamedIsThere(s, r, Short(x.sysname.value));
        return;
      }
    }
    if x.mgmtIp.Some? {
      r := DeviceByIp(nb, x.mgmtIp.value);
      return;
    }
    r := Ok(None);
  }

  /** What `ensure_switch_device` does when no request fails: the switch on record, or a new one at the site. */
  ghost predicate Ensured(s: Store, t: Store, site: Option<string>, x: Sighting, now: real, device: Option<Handle>) {
    if device.None? then t == s && site.None? && Unsighted(s, x)
    else
      && Current(t, device.value)
      && ((t == s && KnownAs(s, x, device.value.id))
          || (Unsighted(s, x) && site.Some? && Documented(s, t, device.value.id, site.value, x, now)))
  }

  /** A new switch carries the MAC it was reported with. */
  ghost predicate Documented(s: Store, t: Store, id: Id, site: string, x: Sighting, now: real) {
    NewSwitch(s, t, id, site, x, now) && (x.chassis.Some? ==> Carries(t, id, x.chassis.value))
  }

  /** lldp.py:511-587: a switch that no lookup leads to is documented, at the site. */
  method EnsureSwitchDevice(nb: NetBox, site: Option<string>, x: Sighting, now: real)
    returns (r: Outcome<Option<Handle>>, created: bool)
    requires Linked(nb.State())
    modifies nb
    ensures Explained(r, old(nb.faults), nb.faults)
    ensures Quiet(old(nb.State()), nb.State())
    ensures nb.dryRun ==> nb.State() == old(nb.State())
    ensures r.Ok? && r.value.Some? ==> HandleOk(nb.State(), r.value.value) && Current(nb.State(), r.value.value)
    ensures r.Ok? && r.value.None? ==> site.None? || nb.dryRun
    ensures created ==>
              && r.Ok? && r.value.Some? && site.Some?
              && NewSwitch(old(nb.State()), nb.State(), r.value.value.id, site.value, x, now)
    ensures !created && r.Ok? ==> nb.State() == old(nb.State())
    ensures r.Ok? && nb.faults == old(nb.faults) && !nb.dryRun ==>
              && Ensured(old(nb.State()), nb.State(), site, x, now, r.value)
              && (created ==> old(Unsighted(nb.State(), x)))
  {
    hide Linked, Quiet, NewSwitch, KnownAs, Unsighted, Carries, HandleOk;
    QuietSelf(nb.State());
    created := false;
    var known :- FindKnown(nb, x);
    if known.Some? {
      FreshHandle(nb.State(), known.value);
      return Ok(Some(Handle(known.value, nb.devices[known.value]))), false;
    }
    if site.None? {
      return Ok(None), false;
    }
    r := CreateSwitch(nb, site.value, x, now);
    created := r.Ok? && r.value.Some?;
  }

  // ------------------------------------------------------------------- ports

  /** The interface is the reported port, or the only one there is. */
  ghost predicate RemotePort(s: Store, device: Id, n: Neighbor, iface: Id) {
    && iface in s.interfaces && s.interfaces[iface].device == device
    && match n.port
       case PortName(p) =>
         if HasPort(s, device, p) then s.interfaces[iface].name == p else OnlyPort(s, device, iface)
       case PortMac(Some(m)) => HasMac(s, iface, m) || OnlyPort(s, device, iface)
       case _ => OnlyPort(s, device, iface)
  }

  /** The reported port is not on record, may not be added, and cannot be guessed either. */
  ghost predicate PortUnknown(s: Store, device: Id, n: Neighbor) {
    && (forall i :: !OnlyPort(s, device, i))
    && (n.port.PortName? ==> !HasPort(s, device, n.port.name) && !MadeByCrawl(s, device))
  }

  /** It is the one interface the device has. */
  ghost predicate OnlyPort(s: Store, device: Id, iface: Id) {
    && iface in s.interfaces && s.interfaces[iface].device == device
    && forall i | i in s.interfaces && s.interfaces[i].device == device :: i == iface
  }

  lemma OnlyPortIs(s: Store, device: Id)
    ensures forall i: Id :: OnlyPort(s, device, i) <==> InterfacesOf(s, device) == {i}
    ensures (exists i: Id :: OnlyPort(s, device, i)) <==> |InterfacesOf(s, device)| == 1
  {
    forall i: Id ensures OnlyPort(s, device, i) <==> InterfacesOf(s, device) == {i} {
      if InterfacesOf(s, device) == {i} {
        assert i in InterfacesOf(s, device);
        assert forall j: Id | j in s.interfaces && s.interfaces[j].device == device :: j in InterfacesOf(s, device);
      }
    }
    if |InterfacesOf(s, device)| == 1 {
      var only :| only in InterfacesOf(s, device);
      OnlyOne(InterfacesOf(s, device), only);
    }
  }

  /** A switch that the crawl documented, by its tags. */
  ghost predicate MadeByCrawl(s: Store, device: Id) {
    && device in s.devices
    && "managed-netbox-monitor" in s.devices[device].tags && "src-lldp" in s.devices[device].tags
  }

  /** A switch the crawl documented. */
  predicate IsOurs(s: Store, device: Id) {
    device in s.devices && IsManaged(s.devices[device].tags, Some(SRC_LLDP))
  }

  /** The port at the other end: added if it may be, else what is on record, if that leaves no doubt. */
  ghost predicate PortFound(s: Store, t: Store, device: Id, n: Neighbor, port: Option<Id>) {
    if n.port.PortName? && !HasPort(s, device, n.port.name) && MadeByCrawl(s, device) then
      port == Some(s.nextId) && t == AddedInterface(s, Interface(device, n.port.name))
    else
      t == s && if port.Some? then RemotePort(s, device, n, port.value) else PortUnknown(s, device, n)
  }

  /** lldp.py:810-839. Newer servers no longer find interfaces by MAC. */
  method FindRemoteInterface(nb: NetBox, device: Id, n: Neighbor) returns (r: Outcome<Option<Id>>)
    requires Linked(nb.State()) && device in nb.devices
    modifies nb
    ensures Explained(r, old(nb.faults), nb.faults)
    ensures Quiet(old(nb.State()), nb.State()) && nb.devices == old(nb.devices)
    ensures nb.dryRun ==> nb.State() == old(nb.State())
    ensures r.Ok? && r.value.Some? ==> r.value.value in nb.interfaces
    ensures r.Ok? && !nb.dryRun ==> PortFound(old(nb.State()), nb.State(), device, n, r.value)
  {
    hide Safe, Grown, Linked, OnlyPort;
    ghost var s := nb.State();
    QuietSelf(s);
    OnlyPortIs(s, device);
    if n.port.PortName? {
      if exists i | i in nb.interfaces :: nb.interfaces[i] == Interface(device, n.port.name) {
        var i :| i in nb.interfaces && nb.interfaces[i] == Interface(device, n.port.name);
        return Ok(Some(i));
      }
      if IsOurs(nb.State(), device) {
        AddedInterfaceSafe(s, device, n.port.name);
        QuietThen(s, s, AddedInterface(s, Interface(device, n.port.name)));
        r := nb.CreateInterface(device, n.port.name);
        return;
      }
    }
    if n.port.PortMac? && n.port.mac.Some? {
      var answers: bool := *;
      if answers && exists i | i in nb.interfaces ::
                      nb.interfaces[i].device == device && HasMac(nb.State(), i, n.port.mac.value) {
        var i :| i in nb.interfaces && nb.interfaces[i].device == device && HasMac(nb.State(), i, n.port.mac.value);
        return Ok(Some(i));
      }
    }
    var ports := InterfacesOf(nb.State(), device);
    if |ports| == 1 {
      var only :| only in ports;
      OnlyOne(ports, only);
      assert OnlyPort(s, device, only);
      return Ok(Some(only));
    }
    r := Ok(None);
  }

  lemma OnlyOne(ports: set<Id>, only: Id)
    requires |ports| == 1 && only in ports
    ensures ports == {only}
  {
    assert |ports - {only}| == 0;
  }

  predicate PortOf(s: Store, iface: Id, switch: Id, name: string) {
    iface in s.interfaces && s.interfaces[iface] == Interface(switch, name)
  }

  /** The switch's own port of that name, added if it is not on record; none without a name. */
  ghost predicate LocalPort(s: Store, t: Store, switch: Id, name: string, port: Option<Id>) {
    if name == "" then t == s && port.None?
    else if HasPort(s, switch, name) then t == s && port.Some? && PortOf(s, port.value, switch, name)
    else port == Some(s.nextId) && t == AddedInterface(s, Interface(switch, name))
  }

  /** lldp.py:739-741: the port of the switch itself. */
  method LocalEnd(nb: NetBox, switch: Id, name: string) returns (r: Outcome<Option<Id>>)
    requires Linked(nb.State())
    modifies nb
    ensures Explained(r, old(nb.faults), nb.faults)
    ensures Quiet(old(nb.State()), nb.State())
    ensures nb.dryRun ==> nb.State() == old(nb.State())
    ensures r.Ok? && r.value.Some? ==> PortOf(nb.State(), r.value.value, switch, name)
    ensures r.Ok? && !nb.dryRun ==> LocalPort(old(nb.State()), nb.State(), switch, name, r.value)
  {
    hide Safe, Grown, Linked;
    ghost var s := nb.State();
    QuietSelf(s);
    LinkedBelow(s);
    r := LocalInterface(nb, switch, name);
    if r.Ok? && r.value.Some? && nb.State() == s {
      assert PortOf(s, r.value.value, switch, name) && HasPort(s, switch, name);
    } else if nb.State() != s {
      AddedInterfaceSafe(s, switch, name);
      QuietThen(s, s, nb.State());
    }
  }

  // --------------------------------------------------------------- reconcile

  /** What reconciling keeps: a safe run that drew at most `n` cables and rewrote or deleted nothing. */
  ghost predicate Drawn(s: Store, t: Store, n: nat) {
    Safe(s, t) && Linked(t) && Grown(s, t) && Wired(s, t, n) && s.devices.Keys <= t.devices.Keys
  }

  lemma DrawnThen(s: Store, t: Store, u: Store, n: nat, m: nat)
    requires Linked(s) && Drawn(s, t, n) && Drawn(t, u, m)
    ensures Drawn(s, u, n + m)
  {
    SafeTransitive(s, t, u);
    WiredCompose(s, t, u, n, m);
  }

  lemma QuietDraws(s: Store, t: Store)
    requires Quiet(s, t)
    ensures Drawn(s, t, 0) && Drawn(s, t, 1)
  {
    SameCables(s, t);
  }

  lemma CableDraws(s: Store, t: Store)
    requires Safe(s, t) && Linked(t) && Grown(s, t) && Wired(s, t, 1) && t.devices == s.devices
    ensures Drawn(s, t, 1)
  {
  }

  /** Who is not found as a neighbour is not found as a new switch either. */
  lemma NobodyKnown(s: Store, n: Neighbor)
    requires NobodyFound(s, n)
    ensures forall d :: !KnownAs(s, Sighting(n.mgmtIp, n.chassis, n.sysname), d)
  {
  }

  /**
   The device at the other end of a link: the one found by its name, MAC or address, else
   the switch that is documented for it, if it may be.
   */
  ghost predicate RemoteFound(s: Store, t: Store, site: Option<string>, n: Neighbor, now: real, device: Option<Id>) {
    if !NobodyFound(s, n) then t == s && device.Some? && FoundAs(s, n, device.value)
    else if IsSwitch(n) && site.Some? then
      && device.Some?
      && Documented(s, t, device.value, site.value, Sighting(n.mgmtIp, n.chassis, n.sysname), now)
    else t == s && device.None?
  }

  /** lldp.py:742-753: the device at the other end. */
  method RemoteDevice(nb: NetBox, site: Option<string>, n: Neighbor, now: real) returns (r: Outcome<Option<Id>>)
    requires Linked(nb.State())
    modifies nb
    ensures Explained(r, old(nb.faults), nb.faults)
    ensures Quiet(old(nb.State()), nb.State())
    ensures nb.dryRun ==> nb.State() == old(nb.State())
    ensures r.Ok? && r.value.Some? ==> r.value.value in nb.devices
    ensures r.Ok? && nb.faults == old(nb.faults) && !nb.dryRun ==>
              RemoteFound(old(nb.State()), nb.State(), site, n, now, r.value)
  {
    hide Quiet, Linked, FoundAs, NobodyFound, KnownAs, Unsighted, Documented, HandleOk, NewSwitch;
    ghost var s := nb.State();
    QuietSelf(s);
    r := FindRemoteDevice(nb, n);
    if r.Ok? && r.value.Some? {
      SomebodyFound(s, n, r.value.value);
    } else if r.Ok? && Crawlable(n) {
      var ensured, _ := EnsureSwitchDevice(nb, site, Sighting(n.mgmtIp, n.chassis, n.sysname), now);
      if ensured.Raised? {
        return Raised(ensured.refusal);
      }
      if nb.faults == old(nb.faults) {
        NobodyKnown(s, n);
      }
      r := Ok(if ensured.value.Some? then Some(ensured.value.value.id) else None);
    }
  }

  lemma SomebodyFound(s: Store, n: Neighbor, device: Id)
    ensures FoundAs(s, n, device) ==> !NobodyFound(s, n) && device in s.devices
  {
  }

  /** The inventory with the link drawn, if no cable ends at either port. */
  ghost function Connected(s: Store, a: Id, b: Id, now: real): Store {
    if forall c | c in s.cables :: a !in s.cables[c].ends && b !in s.cables[c].ends then
      s.(cables := s.cables[s.nextId := Cable({a, b}, {"managed-netbox-monitor", "src-lldp"}, Some(now))],
         nextId := s.nextId + 1)
    else s
  }

  lemma ConnectedIs(s: Store, a: Id, b: Id, now: real)
    ensures Connected(s, a, b, now)
         == if Free(s, a) && Free(s, b) then AddedCable(s, Drawing(a, b, now)) else s
  {
  }

  /** The way of one neighbour's turn: what it found, and the inventory after each finding. */
  datatype Way = Way(local: Option<Id>, first: Store, remote: Option<Id>, second: Store, port: Option<Id>, third: Store)

  /**
   One neighbour's turn, exactly: the local port, the device at the other end and its port
   are found or documented, and the link between them is drawn if both ends are free. The
   first of them that is missing ends the turn.
   */
  ghost predicate Turned(s: Store, t: Store, w: Way, site: Option<string>, switch: Id, n: Neighbor, now: real) {
    && LocalPort(s, w.first, switch, n.localPort, w.local)
    && if w.local.None? then t == w.first
       else LinkedFrom(t, w, w.local.value, site, n, now)
  }

  ghost predicate LinkedFrom(t: Store, w: Way, local: Id, site: Option<string>, n: Neighbor, now: real) {
    && RemoteFound(w.first, w.second, site, n, now, w.remote)
    && if w.remote.None? then t == w.second
       else
         && PortFound(w.second, w.third, w.remote.value, n, w.port)
         && t == if w.port.None? then w.third else Connected(w.third, local, w.port.value, now)
  }

  lemma QuietKeepsPort(s: Store, t: Store, iface: Id)
    requires Linked(s) && Quiet(s, t) && iface in s.interfaces
    ensures iface in t.interfaces && t.interfaces[iface] == s.interfaces[iface]
  {
  }

  lemma QuietHas(s: Store, t: Store)
    requires Quiet(s, t)
    ensures t.cables == s.cables && t.vms == s.vms && IdsBelow(t)
  {
  }

  /** lldp.py:742-766: from a local port on. */
  method LinkFrom(nb: NetBox, local: Id, site: Option<string>, n: Neighbor, now: real)
    returns (r: Outcome<bool>, ghost w: Way)
    requires Linked(nb.State()) && local in nb.interfaces
    modifies nb
    ensures Explained(r, old(nb.faults), nb.faults)
    ensures Drawn(old(nb.State()), nb.State(), 1)
    ensures nb.dryRun ==> nb.State() == old(nb.State())
    ensures w.local == Some(local) && w.first == old(nb.State())
    ensures r.Ok? && nb.faults == old(nb.faults) && !nb.dryRun ==> LinkedFrom(nb.State(), w, local, site, n, now)
  {
    hide Quiet, Linked, Drawn, Safe, Grown, Wired, Free, RemoteFound, PortFound, Connected;
    ghost var first := nb.State();
    w := Way(Some(local), first, None, first, None, first);
    var remote := RemoteDevice(nb, site, n, now);
    ghost var second := nb.State();
    QuietLinked(first, second);
    QuietDraws(first, second);
    w := w.(remote := if remote.Ok? then remote.value else None, second := second);
    if remote.Raised? || remote.value.None? {
      return if remote.Raised? then Raised(remote.refusal) else Ok(false), w;
    }
    var port := FindRemoteInterface(nb, remote.value.value, n);
    ghost var third := nb.State();
    QuietTwice(first, second, third);
    QuietLinked(first, third);
    QuietDraws(first, third);
    w := w.(port := if port.Ok? then port.value else None, third := third);
    if port.Raised? || port.value.None? {
      return if port.Raised? then Raised(port.refusal) else Ok(false), w;
    }
    QuietKeepsPort(first, third, local);
    ConnectedIs(third, local, port.value.value, now);
    r := EnsureCable(nb, local, port.value.value, now);
    CableGrows(third, nb.State());
    CableDraws(third, nb.State());
    DrawnThen(first, third, nb.State(), 0, 1);
  }

  /** lldp.py:738-768, one neighbour: its link is drawn, or there is a reason not to. */
  method ReconcileOne(nb: NetBox, site: Option<string>, switch: Id, n: Neighbor, now: real)
    returns (r: Outcome<bool>, ghost w: Way)
    requires Linked(nb.State())
    modifies nb
    ensures Explained(r, old(nb.faults), nb.faults)
    ensures Drawn(old(nb.State()), nb.State(), 1)
    ensures nb.dryRun ==> nb.State() == old(nb.State())
    ensures r.Ok? && nb.faults == old(nb.faults) && !nb.dryRun ==>
              Turned(old(nb.State()), nb.State(), w, site, switch, n, now)
  {
    hide Quiet, Linked, Drawn, LocalPort, LinkedFrom;
    ghost var s := nb.State();
    var local := LocalEnd(nb, switch, n.localPort);
    ghost var first := nb.State();
    QuietLinked(s, first);
    QuietDraws(s, first);
    w := Way(None, first, None, first, None, first);
    r := if local.Raised? then Raised(local.refusal) else Ok(false);
    if local.Ok? && local.value.Some? {
      r, w := LinkFrom(nb, local.value.value, site, n, now);
      DrawnThen(s, first, nb.State(), 0, 1);
    }
  }

  lemma CableGrows(s: Store, t: Store)
    requires t == s.(cables := t.cables, nextId := t.nextId)
    ensures Grown(s, t)
  {
  }

  /** One neighbour's turn was taken. */
  ghost predicate Attempted(s: Store, t: Store, site: Option<string>, switch: Id, n: Neighbor, now: real) {
    Drawn(s, t, 1) && exists w :: Turned(s, t, w, site, switch, n, now)
  }

  /** The inventories `b` on the way: one neighbour's turn after the other. */
  ghost predicate AllAttempted(b: seq<Store>, site: Option<string>, switch: Id, neighbors: seq<Neighbor>, now: real) {
    0 < |b| <= |neighbors| + 1 && forall k: nat | k + 1 < |b| :: AttemptedAt(b, k, site, switch, neighbors, now)
  }

  ghost predicate AttemptedAt(b: seq<Store>, k: nat, site: Option<string>, switch: Id, neighbors: seq<Neighbor>,
                              now: real) {
    k + 1 < |b| && k < |neighbors| && Attempted(b[k], b[k + 1], site, switch, neighbors[k], now)
  }

  /** The inventories from `s` to `t`. */
  ghost predicate Trail(b: seq<Store>, s: Store, t: Store) {
    b != [] && b[0] == s && b[|b| - 1] == t
  }

  lemma TrailGrows(b: seq<Store>, s: Store, t: Store, u: Store)
    requires Trail(b, s, t)
    ensures Trail(b + [u], s, u)
  {
  }

  lemma OneTurn(s: Store, t: Store, w: Way, site: Option<string>, switch: Id, n: Neighbor, now: real)
    requires Drawn(s, t, 1) && Turned(s, t, w, site, switch, n, now)
    ensures Attempted(s, t, site, switch, n, now)
  {
    hide Drawn, Turned;
  }

  /** From `s` to `t` every reported link had its turn. */
  ghost predicate LinksAttempted(s: Store, t: Store, site: Option<string>, switch: Id, neighbors: seq<Neighbor>,
                                 now: real) {
    exists b :: AllAttempted(b, site, switch, neighbors, now) && |b| == |neighbors| + 1 && Trail(b, s, t)
  }

  /**
   lldp.py:736-768. Whatever neighbours are reported: every earlier cable stands, each
   neighbour adds one cable at most, a new cable joins only ends that were free, and
   each interface still ends at most one cable. If no request failed, each neighbour has
   its turn, and every new cable is a link that one of them reported; `b` lists the
   inventories on the way.
   */
  method Reconcile(nb: NetBox, site: Option<string>, switch: Id, neighbors: seq<Neighbor>, now: real)
    returns (r: Outcome<bool>, ghost b: seq<Store>)
    requires Linked(nb.State())
    modifies nb
    ensures Explained(r, old(nb.faults), nb.faults)
    ensures Drawn(old(nb.State()), nb.State(), |neighbors|)
    ensures nb.dryRun ==> nb.State() == old(nb.State())
    ensures r.Ok? ==> b != [] && |b| == |neighbors| + 1 && Trail(b, old(nb.State()), nb.State())
    ensures r.Ok? && nb.faults == old(nb.faults) && !nb.dryRun ==>
              && AllAttempted(b, site, switch, neighbors, now)
              && LinksAttempted(old(nb.State()), nb.State(), site, switch, neighbors, now)
              && CablesReported(b, site, switch, neighbors, now)
  {
    hide Safe, Grown, Wired, Drawn, Linked, Turned, AllAttempted, LinksAttempted, CablesReported, Attempted, Trail;
    ghost var s := nb.State();
    QuietSelf(s);
    QuietDraws(s, s);
    b := [s];
    NoneAttempted(s, site, switch, neighbors, now);
    for k := 0 to |neighbors|
      invariant Drawn(s, nb.State(), k) && old(nb.faults) <= nb.faults
      invariant nb.dryRun ==> nb.State() == s
      invariant |b| == k + 1 && Trail(b, s, nb.State())
      invariant nb.faults == old(nb.faults) && !nb.dryRun ==> AllAttempted(b, site, switch, neighbors, now)
    {
      ghost var t := nb.State();
      DrawnLinked(s, t, k);
      var done, w := ReconcileOne(nb, site, switch, neighbors[k], now);
      DrawnThen(s, t, nb.State(), k, 1);
      if done.Raised? {
        DrawnMore(s, nb.State(), k + 1, |neighbors|);
        return Raised(done.refusal), b;
      }
      if nb.faults == old(nb.faults) && !nb.dryRun {
        OneTurn(t, nb.State(), w, site, switch, neighbors[k], now);
        OneMoreAttempted(b, s, t, nb.State(), site, switch, neighbors, now);
      }
      TrailGrows(b, s, t, nb.State());
      b := b + [nb.State()];
    }
    if nb.faults == old(nb.faults) && !nb.dryRun {
      Witnessed(b, s, nb.State(), site, switch, neighbors, now);
      NewCablesReported(b, site, switch, neighbors, now);
    }
    r := Ok(true);
  }

  /** The cable was drawn in this turn, between the two ports of the link that `n` reported. */
  ghost predicate DrawnFor(s: Store, t: Store, c: Id, site: Option<string>, switch: Id, n: Neighbor, now: real) {
    && c in t.cables && c !in s.cables
    && exists w :: && Turned(s, t, w, site, switch, n, now) && w.local.Some? && w.remote.Some? && w.port.Some?
                   && (forall k | k in s.cables ::
                         w.local.value !in s.cables[k].ends && w.port.value !in s.cables[k].ends)
                   && t.cables[c].ends == {w.local.value, w.port.value}
                   && t.cables[c].tags == {"managed-netbox-monitor", "src-lldp"}
  }

  /** The cable stands as it was drawn in turn `k`. */
  ghost predicate DrawnIn(b: seq<Store>, k: nat, c: Id, site: Option<string>, switch: Id, neighbors: seq<Neighbor>,
                          now: real) {
    && k < |b| - 1 && k < |neighbors| && DrawnFor(b[k], b[k + 1], c, site, switch, neighbors[k], now)
    && c in b[|b| - 1].cables && b[|b| - 1].cables[c] == b[k + 1].cables[c]
  }

  /** Every cable that was not there at the start was drawn for one of the neighbours, in its turn. */
  ghost predicate CablesReported(b: seq<Store>, site: Option<string>, switch: Id, neighbors: seq<Neighbor>, now: real)
    requires 0 < |b|
  {
    forall c | c in b[|b| - 1].cables && c !in b[0].cables ::
      exists k :: DrawnIn(b, k, c, site, switch, neighbors, now)
  }

  lemma NewCablesReported(b: seq<Store>, site: Option<string>, switch: Id, neighbors: seq<Neighbor>, now: real)
    requires 0 < |b| && AllAttempted(b, site, switch, neighbors, now)
    ensures CablesReported(b, site, switch, neighbors, now)
  {
    hide AllAttempted, DrawnIn;
    forall c | c in b[|b| - 1].cables && c !in b[0].cables
      ensures exists k :: DrawnIn(b, k, c, site, switch, neighbors, now)
    {
      var k := NewCableReported(b, site, switch, neighbors, now, c);
    }
  }

  lemma {:induction false} NewCableReported(b: seq<Store>, site: Option<string>, switch: Id, neighbors: seq<Neighbor>,
                                            now: real, c: Id) returns (k: nat)
    requires 0 < |b| && AllAttempted(b, site, switch, neighbors, now)
    requires c in b[|b| - 1].cables && c !in b[0].cables
    ensures DrawnIn(b, k, c, site, switch, neighbors, now)
    decreases |b|
  {
    hide AllAttempted, Attempted, DrawnFor;
    var m := |b| - 2;
    LastAttempted(b, site, switch, neighbors, now);
    OnlyItsCable(b[m], b[m + 1], site, switch, neighbors[m], now);
    k := m;
    if c in b[m].cables {
      k := NewCableReported(b[..m + 1], site, switch, neighbors, now, c);
    }
  }

  lemma LastAttempted(b: seq<Store>, site: Option<string>, switch: Id, neighbors: seq<Neighbor>, now: real)
    requires |b| > 1 && AllAttempted(b, site, switch, neighbors, now)
    ensures |b| - 2 < |neighbors|
    ensures Attempted(b[|b| - 2], b[|b| - 1], site, switch, neighbors[|b| - 2], now)
    ensures AllAttempted(b[..|b| - 1], site, switch, neighbors, now)
  {
    hide Attempted;
    assert AttemptedAt(b, |b| - 2, site, switch, neighbors, now);
    var before := b[..|b| - 1];
    forall k: nat | k + 1 < |before| ensures AttemptedAt(before, k, site, switch, neighbors, now) {
      assert AttemptedAt(b, k, site, switch, neighbors, now);
    }
  }

  /** One turn draws at most the cable of its own link, and leaves the others. */
  lemma OnlyItsCable(s: Store, t: Store, site: Option<string>, switch: Id, n: Neighbor, now: real)
    requires Attempted(s, t, site, switch, n, now)
    ensures forall c | c in s.cables :: c in t.cables && t.cables[c] == s.cables[c]
    ensures forall c | c in t.cables && c !in s.cables :: DrawnFor(s, t, c, site, switch, n, now)
  {
    hide Safe, Grown, Linked, Turned;
    var w :| Turned(s, t, w, site, switch, n, now);
    TurnCables(s, t, w, site, switch, n, now);
  }

  lemma TurnCables(s: Store, t: Store, w: Way, site: Option<string>, switch: Id, n: Neighbor, now: real)
    requires Turned(s, t, w, site, switch, n, now)
    ensures t.cables == s.cables
            || (&& w.local.Some? && w.remote.Some? && w.port.Some?
                && (forall k | k in s.cables ::
                      w.local.value !in s.cables[k].ends && w.port.value !in s.cables[k].ends)
                && forall c | c in t.cables && c !in s.cables ::
                     t.cables[c].ends == {w.local.value, w.port.value}
                     && t.cables[c].tags == {"managed-netbox-monitor", "src-lldp"})
  {
    hide LocalPort, RemoteFound, PortFound;
    NamedDrawsNone(s, w.first, switch, n.localPort, w.local);
    if w.local.Some? {
      FoundDrawsNone(w.first, w.second, site, n, now, w.remote);
      if w.remote.Some? {
        PortDrawsNone(w.second, w.third, w.remote.value, n, w.port);
      }
    }
  }

  lemma NamedDrawsNone(s: Store, t: Store, switch: Id, name: string, port: Option<Id>)
    requires LocalPort(s, t, switch, name, port)
    ensures t.cables == s.cables
  {
    hide HasPort, PortOf;
  }

  lemma FoundDrawsNone(s: Store, t: Store, site: Option<string>, n: Neighbor, now: real, device: Option<Id>)
    requires RemoteFound(s, t, site, n, now, device)
    ensures t.cables == s.cables
  {
    hide FoundAs, NobodyFound, Carries, OnlyMac, OnlyAddress, Short;
  }

  lemma PortDrawsNone(s: Store, t: Store, device: Id, n: Neighbor, port: Option<Id>)
    requires PortFound(s, t, device, n, port)
    ensures t.cables == s.cables
  {
    hide HasPort, RemotePort, PortUnknown;
  }

  /**
   When the switch's port is on record, somebody is found at the other end and has the
   reported port, all a turn can do is draw the cable between these two ports, and that
   it does if both are free.
   */
  lemma TurnDecided(s: Store, t: Store, site: Option<string>, switch: Id, n: Neighbor, now: real)
    requires n.localPort != "" && HasPort(s, switch, n.localPort) && !NobodyFound(s, n)
    requires n.port.PortName? && forall d | FoundAs(s, n, d) :: HasPort(s, d, n.port.name)
    requires Attempted(s, t, site, switch, n, now)
    ensures exists d, a, b | FoundAs(s, n, d) && PortOf(s, a, switch, n.localPort) && PortOf(s, b, d, n.port.name) ::
              t == Connected(s, a, b, now)
  {
    hide FoundAs, NobodyFound, Drawn, HasPort, Connected;
    var w :| Turned(s, t, w, site, switch, n, now);
    assert t == Connected(s, w.local.value, w.port.value, now);
    assert PortOf(s, w.port.value, w.remote.value, n.port.name);
  }

  lemma Witnessed(b: seq<Store>, s: Store, t: Store, site: Option<string>, switch: Id, neighbors: seq<Neighbor>,
                  now: real)
    requires AllAttempted(b, site, switch, neighbors, now) && |b| == |neighbors| + 1 && Trail(b, s, t)
    ensures LinksAttempted(s, t, site, switch, neighbors, now)
  {
    hide AllAttempted, Trail;
  }

  lemma NoneAttempted(s: Store, site: Option<string>, switch: Id, neighbors: seq<Neighbor>, now: real)
    ensures AllAttempted([s], site, switch, neighbors, now) && Trail([s], s, s)
  {
  }

  lemma OneMoreAttempted(b: seq<Store>, first: Store, s: Store, t: Store, site: Option<string>, switch: Id,
                         neighbors: seq<Neighbor>, now: real)
    requires AllAttempted(b, site, switch, neighbors, now) && |b| <= |neighbors| && Trail(b, first, s)
    requires Attempted(s, t, site, switch, neighbors[|b| - 1], now)
    ensures AllAttempted(b + [t], site, switch, neighbors, now)
  {
    hide Attempted;
    var next := b + [t];
    forall k: nat | k + 1 < |next| ensures AttemptedAt(next, k, site, switch, neighbors, now) {
      assert next[k] == b[k] && next[k + 1] == if k + 1 < |b| then b[k + 1] else t;
      assert k + 1 < |b| ==> AttemptedAt(b, k, site, switch, neighbors, now);
    }
  }

  lemma DrawnLinked(s: Store, t: Store, n: nat)
    requires Drawn(s, t, n)
    ensures Linked(t)
  {
  }

  lemma DrawnMore(s: Store, t: Store, n: nat, m: nat)
    requires Drawn(s, t, n) && n <= m
    ensures Drawn(s, t, m)
  {
  }

  /** To do nothing is no turn when both ports are there and free. */
  lemma IdlingIsNoAttempt() returns (s: Store, n: Neighbor)
    ensures Linked(s) && forall site, now :: !Attempted(s, s, site, 1, n, now)
    ensures forall site, now :: !LinksAttempted(s, s, site, 1, [n], now)
  {
    s, n := TwoFreePorts();
    hide FoundAs, NobodyFound, HasPort, Connected, Attempted, LinksAttempted;
    forall site, now ensures !Attempted(s, s, site, 1, n, now) && !LinksAttempted(s, s, site, 1, [n], now) {
      if Attempted(s, s, site, 1, n, now) {
        TurnDecided(s, s, site, 1, n, now);
      }
      OneAttempt(s, s, site, 1, n, now);
    }
  }

  /** Two switches that are not cabled; the first reports the second at the other end of its port. */
  lemma TwoFreePorts() returns (s: Store, n: Neighbor)
    ensures Linked(s) && n.localPort != "" && n.port.PortName? && HasPort(s, 1, n.localPort)
    ensures !NobodyFound(s, n) && forall d | FoundAs(s, n, d) :: HasPort(s, d, n.port.name)
    ensures forall a, b, now :: Connected(s, a, b, now) != s
  {
    n := Neighbor("p", None, Some("b"), PortName("q"), None, true, true, None);
    s := Store(map[1 := Device("a", "x", {}, Active, None, None, None),
                   2 := Device("b", "x", {}, Active, None, None, None)],
               map[], map[3 := Interface(1, "p"), 4 := Interface(2, "q")], map[], map[], map[], map[], 5);
    assert s.interfaces[3] == Interface(1, "p") && s.interfaces[4] == Interface(2, "q");
    assert Fold("a") == "a" && Fold("b") == "b";
    hide Fold;
    assert IsNamed(s, 2, "b");
    assert FoundAs(s, n, 2);
    assert forall i :: Free(s, i);
    hide FoundAs, IsNamed;
  }

  lemma OneAttempt(s: Store, t: Store, site: Option<string>, switch: Id, n: Neighbor, now: real)
    ensures LinksAttempted(s, t, site, switch, [n], now) <==> Attempted(s, t, site, switch, n, now)
  {
    hide Attempted;
    assert [n][0] == n;
    if Attempted(s, t, site, switch, n, now) {
      var b := [s, t];
      assert AllAttempted(b, site, switch, [n], now) && |b| == |[n]| + 1 && Trail(b, s, t);
    }
    if LinksAttempted(s, t, site, switch, [n], now) {
      var b :| AllAttempted(b, site, switch, [n], now) && |b| == |[n]| + 1 && Trail(b, s, t);
      assert AttemptedAt(b, 0, site, switch, [n], now);
    }
  }
}
