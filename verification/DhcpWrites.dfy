/**
 What writing the leases of a site may do to the inventory (dhcp.py:119-218,
 common.py:182-210, 277-381).
 */
module DhcpWrites {
  import opened Prelude
  import opened Networks
  import opened NetBoxStore
  import opened Common
  import opened LldpNeighbors
  import opened LldpSafety

  /** A lease; empty addresses are None, and `hostname` is fit for DNS. */
  datatype Lease = Lease(address: Option<Host>, reserved: bool, mac: Option<string>, hostname: string, scope: string)

  const ETH0: string := "eth0"

  predicate OursByDhcp(tags: Tags) {
    IsManaged(tags, Some(SRC_DHCP))
  }

  /** What this module made, by its tags. */
  ghost predicate MadeByDhcp(tags: Tags) {
    "managed-netbox-monitor" in tags && "src-dhcp" in tags
  }

  // ------------------------------------------------------ what writes may do

  /** The device the address sits on is no longer there. */
  predicate DeviceGone(s: Store, t: Store, place: Place) {
    place.OnInterface? && place.iface in s.interfaces && s.interfaces[place.iface].device !in t.devices
  }

  /**
   An address record stays, with its host and tags. It moves only for the hosts `h`, and only
   if it is ours, or else when its device goes.
   */
  ghost predicate IpsKept(s: Store, t: Store, h: set<Host>) {
    && (forall i | i in s.ips ::
          && i in t.ips && t.ips[i].host == s.ips[i].host && t.ips[i].tags == s.ips[i].tags
          && (|| t.ips[i].place == s.ips[i].place
              || (t.ips[i].place.Nowhere? && DeviceGone(s, t, s.ips[i].place))
              || (s.ips[i].host in h && MadeByDhcp(s.ips[i].tags)))
          && (!MadeByDhcp(s.ips[i].tags) ==> t.ips[i].info == s.ips[i].info))
    && (forall i | i in t.ips && i !in s.ips :: s.nextId <= i && t.ips[i].host in h)
  }

  /** A device goes only if it is ours; one that stays keeps its name and tags. */
  ghost predicate DevicesKept(s: Store, t: Store) {
    forall d | d in s.devices ::
      if d in t.devices then t.devices[d].name == s.devices[d].name && t.devices[d].tags == s.devices[d].tags
      else MadeByDhcp(s.devices[d].tags)
  }

  /** What writing leases of the hosts `h` may have done. */
  ghost predicate Written(s: Store, t: Store, h: set<Host>) {
    && IpsKept(s, t, h) && DevicesKept(s, t) && InterfacesSafe(s, t) && CablesSafe(s, t) && IdsSafe(s, t) && Linked(t)
    && t.vms.Keys == s.vms.Keys
  }

  lemma WrittenSelf(s: Store, h: set<Host>)
    requires Linked(s)
    ensures Written(s, s, h)
  {
  }

  lemma IpsKeptThen(s: Store, t: Store, u: Store, h: set<Host>)
    requires Linked(s) && Linked(t) && InterfacesSafe(s, t) && IdsSafe(s, t) && IdsSafe(t, u)
    requires IpsKept(s, t, h) && IpsKept(t, u, h)
    ensures IpsKept(s, u, h)
  {
    forall i | i in s.ips
      ensures || u.ips[i].place == s.ips[i].place
              || (u.ips[i].place.Nowhere? && DeviceGone(s, u, s.ips[i].place))
              || (s.ips[i].host in h && MadeByDhcp(s.ips[i].tags))
    {
      if DeviceGone(s, t, s.ips[i].place) {
        GoneStaysGone(s, t, u, s.interfaces[s.ips[i].place.iface].device);
      }
    }
  }

  lemma DevicesKeptThen(s: Store, t: Store, u: Store)
    requires IdsBelow(s) && IdsSafe(s, t) && IdsSafe(t, u) && DevicesKept(s, t) && DevicesKept(t, u)
    ensures DevicesKept(s, u)
  {
    forall d | d in s.devices && d !in t.devices ensures d !in u.devices {
      GoneStaysGone(s, t, u, d);
    }
  }

  lemma WrittenThen(s: Store, t: Store, u: Store, h: set<Host>)
    requires Linked(s) && Written(s, t, h) && Written(t, u, h)
    ensures Written(s, u, h)
  {
    IpsKeptThen(s, t, u, h);
    DevicesKeptThen(s, t, u);
    CablesCompose(s, t, u);
    InterfacesCompose(s, t, u);
  }

  // one request each

  lemma InterfaceWritten(s: Store, device: Id, name: string, h: set<Host>)
    requires Linked(s) && device in s.devices
    ensures Written(s, AddedInterface(s, Interface(device, name)), h)
  {
    AddedInterfaceSafe(s, device, name);
  }

  lemma DeviceWritten(s: Store, d: Device, h: set<Host>)
    requires Linked(s)
    ensures Written(s, AddedDevice(s, d), h)
  {
    AddedDeviceSafe(s, d);
  }

  lemma MacWritten(s: Store, t: Store, iface: Id, mac: string, h: set<Host>)
    requires Linked(s) && MacTouched(s, t, iface, mac)
    ensures Written(s, t, h)
  {
    MacTouchedSafe(s, t, iface, mac);
  }

  lemma PrimariesWritten(s: Store, device: Id, primary4: Option<Id>, primary6: Option<Id>, h: set<Host>)
    requires Linked(s) && device in s.devices
    ensures Written(s, WithPrimaries(s, device, primary4, primary6), h)
  {
    WithPrimariesSafe(s, device, primary4, primary6);
  }

  /** A device's own fields other than name and tags. */
  lemma FieldsWritten(s: Store, device: Id, d: Device, h: set<Host>)
    requires Linked(s) && device in s.devices && d.name == s.devices[device].name && d.tags == s.devices[device].tags
    ensures Written(s, s.(devices := s.devices[device := d]), h)
  {
  }

  lemma DeletionWritten(s: Store, device: Id, h: set<Host>)
    requires Linked(s) && device in s.devices && OursByDhcp(s.devices[device].tags)
    ensures Written(s, WithoutDevice(s, device), h)
  {
    var t := WithoutDevice(s, device);
    WithoutDeviceKeepsLinked(s, device);
    CablesGo(s, device);
  }

  lemma CablesGo(s: Store, device: Id)
    requires Linked(s)
    ensures CablesSafe(s, WithoutDevice(s, device))
  {
    var t := WithoutDevice(s, device);
    forall c | c in s.cables && c !in t.cables
      ensures exists e | e in s.cables[c].ends && e in s.interfaces :: s.interfaces[e].device !in t.devices
    {
      var e :| e in s.cables[c].ends && e in InterfacesOf(s, device);
      assert s.interfaces[e].device !in t.devices;
    }
  }

  lemma AddressWritten(s: Store, t: Store, w: Wanted, h: set<Host>)
    requires Linked(s) && IpTouched(s, t, w) && Placed(t) && t == s.(ips := t.ips, nextId := t.nextId)
    requires w.host in h && w.source == SRC_DHCP
    ensures Written(s, t, h)
  {
    IpTouchedSafe(s, t, w);
    AlignedByDhcp(w);
    hide IpsSafe, Aligned, Upserted, NewIp, CablesSafe, InterfacesSafe, DevicesSafe, Linked, IpsKept;
    if t == s {
      SameIps(s, h);
    } else if !HasRecord(s, w.host) && t == AddedIp(s, NewIp(w)) {
      OneAddedIp(s, NewIp(w), h);
    } else {
      var i :| i in s.ips && s.ips[i].host == w.host
               && (t == s.(ips := s.ips[i := Aligned(s.ips[i], w)])
                   || t == s.(ips := s.ips[i := Upserted(s.ips[i], w)]));
      OneChangedIp(s, i, t.ips[i], h);
    }
  }

  /** Only a record that is ours moves or changes what it says. */
  predicate DhcpKeeps(r: Ip, u: Ip) {
    && u.host == r.host && u.tags == r.tags
    && (!OursByDhcp(r.tags) ==> u.place == r.place && u.info == r.info)
  }

  lemma AlignedByDhcp(w: Wanted)
    requires w.source == SRC_DHCP
    ensures forall r :: DhcpKeeps(r, Aligned(r, w)) && DhcpKeeps(r, Upserted(r, w))
    ensures NewIp(w).host == w.host
  {
  }

  lemma SameIps(s: Store, h: set<Host>)
    ensures IpsKept(s, s, h)
  {
  }

  lemma OneAddedIp(s: Store, ip: Ip, h: set<Host>)
    requires IdsBelow(s) && ip.host in h
    ensures IpsKept(s, AddedIp(s, ip), h)
  {
  }

  lemma OneChangedIp(s: Store, i: Id, u: Ip, h: set<Host>)
    requires i in s.ips && s.ips[i].host in h && DhcpKeeps(s.ips[i], u)
    ensures IpsKept(s, s.(ips := s.ips[i := u]), h)
  {
  }

  /** An address of ours that is leased moves to a guest. */
  lemma MoveWritten(s: Store, i: Id, place: Place, h: set<Host>)
    requires Linked(s) && i in s.ips && s.ips[i].host in h && OursByDhcp(s.ips[i].tags) && place.OnVmInterface?
    ensures Written(s, s.(ips := s.ips[i := s.ips[i].(place := place)]), h)
  {
    OneChangedIp(s, i, s.ips[i].(place := place), h);
  }

  // ------------------------------------------------------------- the writes

  function PlaceOf(m: Option<Match>): Place {
    match m
    case None => Nowhere
    case Some(OnDevice(i, _)) => OnInterface(i)
    case Some(OnGuest(i, v)) => OnVmInterface(i, v)
  }

  /** The id of the interface an address is assigned to, whatever its kind. */
  function IfaceId(place: Place): Option<Id> {
    match place
    case Nowhere => None
    case OnInterface(i) => Some(i)
    case OnVmInterface(i, _) => Some(i)
  }

  /** common.py:182-210, for a device: only one of ours that has no primary address yet. */
  method LinkPrimaryIp(nb: NetBox, device: Id, iface: Id, ip: Id, ghost h: set<Host>) returns (r: Outcome<bool>)
    requires Linked(nb.State())
    modifies nb
    ensures Explained(r, old(nb.faults), nb.faults)
    ensures Written(old(nb.State()), nb.State(), h)
    ensures nb.dryRun ==> nb.State() == old(nb.State())
    ensures nb.State() != old(nb.State()) ==>
              && device in old(nb.devices) && MANAGED in old(nb.devices[device].tags)
              && old(nb.devices[device].primary4).None? && ip in old(IpsOf(nb.State(), device))
              && nb.State() == WithPrimaries(old(nb.State()), device, Some(ip), old(nb.devices[device].primary6))
  {
    hide Linked, Written;
    WrittenSelf(nb.State(), h);
    r := Ok(false);
    if ip in nb.ips && IfaceId(nb.ips[ip].place) == Some(iface)
       && device in nb.devices && MANAGED in nb.devices[device].tags && nb.devices[device].primary4.None? {
      PrimariesWritten(nb.State(), device, Some(ip), nb.devices[device].primary6, h);
      r := nb.SetPrimary4(device, ip);
    }
  }

  function DynamicLease(l: Lease, host: Host, place: Place, now: real): Wanted {
    Wanted(host, SRC_DHCP, place, Info("dhcp", l.hostname, "DHCP lease in scope '" + l.scope + "'"), now)
  }

  function Reservation(l: Lease, host: Host, place: Place, now: real): Wanted {
    Wanted(host, SRC_DHCP, place, Info("active", l.hostname, "DHCP reservation in scope '" + l.scope + "'"), now)
  }

  /** A device of ours that had no primary address got one; nothing else changed about any device. */
  ghost predicate Promoted(s: map<Id, Device>, t: map<Id, Device>, device: Id) {
    && device in s && device in t && MANAGED in s[device].tags && s[device].primary4.None?
    && t == s[device := s[device].(primary4 := t[device].primary4)]
  }

  /** An address goes on record, and becomes the primary one of the device it was matched with. */
  method RecordAddress(nb: NetBox, w: Wanted, m: Option<Match>, ghost h: set<Host>) returns (r: Outcome<bool>)
    requires Linked(nb.State()) && w.source == SRC_DHCP && w.host in h
    modifies nb
    ensures Explained(r, old(nb.faults), nb.faults)
    ensures Written(old(nb.State()), nb.State(), h)
    ensures nb.dryRun ==> nb.State() == old(nb.State())
    ensures r.Ok? && !nb.dryRun && r.value ==> HasRecord(nb.State(), w.host)
    ensures r == Ok(false) && !nb.dryRun ==> !old(HasRecord(nb.State(), w.host))
    ensures r == Ok(true) && !nb.dryRun ==> exists ip :: OnRecord(old(nb.State()), nb.State(), w, ip)
    ensures nb.interfaces == old(nb.interfaces)
    ensures || nb.devices == old(nb.devices)
            || (m.Some? && m.value.OnDevice? && Promoted(old(nb.devices), nb.devices, m.value.device))
  {
    hide Linked, Written, IpTouched, Placed, OnRecord;
    ghost var s := nb.State();
    LinkedPlacedHere(s);
    LinkedBelow(s);
    var ip := UpsertIp(nb, w);
    ghost var t := nb.State();
    AddressWritten(s, t, w, h);
    WrittenLinked(s, t, h);
    if ip.Raised? {
      return Raised(ip.refusal);
    }
    r := Ok(ip.value.Some?);
    if ip.value.Some? && m.Some? && m.value.OnDevice? {
      var linked := LinkPrimaryIp(nb, m.value.device, m.value.iface, ip.value.value, h);
      WrittenThen(s, t, nb.State(), h);
      if linked.Raised? {
        return Raised(linked.refusal);
      }
      r := Ok(true);
    }
    if ip.value.Some? && !nb.dryRun {
      SameRecord(s, t, nb.State(), w, ip.value.value);
    }
  }

  lemma SameRecord(s: Store, t: Store, u: Store, w: Wanted, ip: Id)
    requires OnRecord(s, t, w, ip) && u.ips == t.ips
    ensures OnRecord(s, u, w, ip)
  {
  }

  lemma LinkedPlacedHere(s: Store)
    requires Linked(s)
    ensures Placed(s)
  {
  }

  lemma WrittenLinked(s: Store, t: Store, h: set<Host>)
    requires Written(s, t, h)
    ensures Linked(t)
  {
  }

  /** dhcp.py:178-188: a device that stood for the guest before it was known goes, if it is ours. */
  method DropDuplicate(nb: NetBox, hostname: string, ghost h: set<Host>) returns (r: Outcome<bool>)
    requires Linked(nb.State())
    modifies nb
    ensures Explained(r, old(nb.faults), nb.faults)
    ensures Written(old(nb.State()), nb.State(), h)
    ensures nb.dryRun ==> nb.State() == old(nb.State())
    ensures forall d | d in old(nb.devices) && d !in nb.devices && hostname != "" ::
              old(nb.devices[d].name) == Short(hostname)
  {
    hide Linked, Written;
    WrittenSelf(nb.State(), h);
    var name: string := *;
    if hostname != "" {
      name := Short(hostname);
    }
    r := Ok(false);
    var ok := nb.Reached();
    if !ok {
      return Raised(false);
    }
    if exists d | d in nb.devices :: nb.devices[d].name == name {
      var d :| d in nb.devices && nb.devices[d].name == name;
      if OursByDhcp(nb.devices[d].tags) {
        DeletionWritten(nb.State(), d, h);
        r := nb.DeleteIfManaged(d, nb.devices[d].tags);
      }
    }
  }

  /** dhcp.py:192-205: an address of ours follows the reservation to the guest. */
  method MoveToGuest(nb: NetBox, host: Host, iface: Id, vm: Id, ghost h: set<Host>) returns (r: Outcome<bool>)
    requires Linked(nb.State()) && host in h
    modifies nb
    ensures Explained(r, old(nb.faults), nb.faults)
    ensures Written(old(nb.State()), nb.State(), h)
    ensures nb.dryRun ==> nb.State() == old(nb.State())
    ensures || nb.State() == old(nb.State())
            || exists i | i in old(nb.ips) && old(nb.ips[i]).host == host && MadeByDhcp(old(nb.ips[i]).tags) ::
                 nb.State() == old(nb.State()).(
                   ips := old(nb.ips)[i := old(nb.ips[i]).(place := OnVmInterface(iface, vm))])
    ensures r.Ok? && !nb.dryRun && old(HasRecord(nb.State(), host)) ==>
              exists i | i in old(nb.ips) && old(nb.ips[i]).host == host ::
                || !MadeByDhcp(old(nb.ips[i]).tags)
                || nb.ips[i].place in {OnInterface(iface), OnVmInterface(iface, vm)}
                || (nb.ips[i].place.OnVmInterface? && nb.ips[i].place.iface == iface)
  {
    hide Linked, Written;
    WrittenSelf(nb.State(), h);
    r := Ok(false);
    if exists i | i in nb.ips :: nb.ips[i].host == host {
      var i :| i in nb.ips && nb.ips[i].host == host;
      if OursByDhcp(nb.ips[i].tags) && IfaceId(nb.ips[i].place) != Some(iface) {
        MoveWritten(nb.State(), i, OnVmInterface(iface, vm), h);
        r := nb.UpdateIp(i, nb.ips[i].(place := OnVmInterface(iface, vm)));
      }
    }
  }

  /** dhcp.py:169-218. */
  method AttachReservation(nb: NetBox, l: Lease, host: Host, iface: Id, vm: Id, now: real, ghost h: set<Host>)
    returns (r: Outcome<bool>)
    requires Linked(nb.State()) && host in h
    modifies nb
    ensures Explained(r, old(nb.faults), nb.faults)
    ensures Written(old(nb.State()), nb.State(), h)
    ensures nb.dryRun ==> nb.State() == old(nb.State())
    ensures r == Ok(true) && !nb.dryRun ==> LeaseShown(nb.State(), host, "active", l.hostname, now)
  {
    hide Linked, Written, OnRecord, LeaseShown;
    ghost var s := nb.State();
    r := DropDuplicate(nb, l.hostname, h);
    ghost var t := nb.State();
    WrittenLinked(s, t, h);
    if r.Raised? {
      return;
    }
    r := MoveToGuest(nb, host, iface, vm, h);
    ghost var u := nb.State();
    WrittenThen(s, t, u, h);
    WrittenLinked(s, u, h);
    if r.Raised? {
      return;
    }
    var w := Reservation(l, host, OnVmInterface(iface, vm), now);
    r := RecordAddress(nb, w, Some(OnGuest(iface, vm)), h);
    WrittenThen(s, u, nb.State(), h);
    if r == Ok(true) && !nb.dryRun {
      RecordShows(u, nb.State(), w);
    }
  }

  /** A device that is ours and was found by its MAC moves to the current site. */
  function Rediscovered(d: Device, site: Option<string>, byMac: bool, now: real): Device {
    d.(site := if byMac && site.Some? && MANAGED in d.tags then site.value else d.site, lastSeen := Some(now))
  }

  predicate Known(s: Store, m: Option<Match>, name: string) {
    (m.Some? && m.value.OnDevice?) || exists d | d in s.devices :: s.devices[d].name == name
  }

  /** The device a reserved host is documented by: the one with its MAC, else the one of its name, else a new one. */
  ghost predicate HostFound(s: Store, t: Store, m: Option<Match>, name: string, site: Option<string>, now: real,
                            device: Option<Id>) {
    if !Known(s, m, name) then
      if site.None? then device.None? && t == s
      else
        && device == Some(s.nextId)
        && t == AddedDevice(s, Device(name, site.value, {MANAGED, SRC_DHCP}, Active, None, None, Some(now)))
    else
      var byMac := m.Some? && m.value.OnDevice?;
      && device.Some? && device.value in s.devices
      && (if byMac then device.value == m.value.device else s.devices[device.value].name == name)
      && t == s.(devices := s.devices[device.value := Rediscovered(s.devices[device.value], site, byMac, now)])
  }

  /** common.py:290-345: the device of a reserved host, found by its MAC or its name, or made. */
  method HostDevice(nb: NetBox, l: Lease, site: Option<string>, m: Option<Match>, now: real, ghost h: set<Host>)
    returns (r: Outcome<Option<Id>>, ghost name: string)
    requires Linked(nb.State())
    requires m.Some? && m.value.OnDevice? ==> m.value.device in nb.devices
    modifies nb
    ensures Explained(r, old(nb.faults), nb.faults)
    ensures Written(old(nb.State()), nb.State(), h)
    ensures nb.dryRun || r.Raised? ==> nb.State() == old(nb.State())
    ensures r.Ok? && r.value.Some? ==> r.value.value in nb.devices
    ensures r.Ok? && r.value.None? ==> nb.dryRun || site.None?
    ensures l.hostname != "" ==> name == Short(l.hostname)
    ensures r.Ok? && !nb.dryRun ==> HostFound(old(nb.State()), nb.State(), m, name, site, now, r.value)
  {
    hide Linked, Written;
    ghost var s := nb.State();
    WrittenSelf(s, h);
    var called: string := *;
    if l.hostname != "" {
      called := Short(l.hostname);
    }
    name := called;
    var ok := nb.Reached();
    if !ok {
      return Raised(false), name;
    }
    var device: Option<Id> := None;
    if m.Some? && m.value.OnDevice? {
      device := Some(m.value.device);
    } else if exists d | d in nb.devices :: nb.devices[d].name == called {
      var d :| d in nb.devices && nb.devices[d].name == called;
      device := Some(d);
    }
    if device.None? {
      if site.None? {
        return Ok(None), name;
      }
      DeviceWritten(s, Device(called, site.value, {MANAGED, SRC_DHCP}, Active, None, None, Some(now)), h);
      r := nb.CreateDevice(called, site.value, {MANAGED, SRC_DHCP}, now);
      return;
    }
    var d := device.value;
    var was := nb.devices[d];
    var moves := m.Some? && m.value.OnDevice? && site.Some? && MANAGED in was.tags && was.site != site.value;
    var next := was.(site := if moves then site.value else was.site, lastSeen := Some(now));
    FieldsWritten(s, d, next, h);
    var _ := nb.UpdateDevice(d, next);
    r := Ok(device);
  }

  /** No device goes, one somebody else made changes in last_seen at most, and it gets no interface. */
  ghost predicate LeftAlone(s: Store, t: Store, now: real) {
    && (forall d | d in s.devices ::
          && d in t.devices && t.devices[d].tags == s.devices[d].tags
          && (MANAGED in s.devices[d].tags || t.devices[d] == s.devices[d]
              || t.devices[d] == s.devices[d].(lastSeen := Some(now))))
    && (forall i | i in s.interfaces :: i in t.interfaces && t.interfaces[i] == s.interfaces[i])
    && (forall i | i in t.interfaces && i !in s.interfaces ::
          t.interfaces[i].device in t.devices && MANAGED in t.devices[t.interfaces[i].device].tags)
  }

  lemma LeftAloneThen(s: Store, t: Store, u: Store, now: real)
    requires LeftAlone(s, t, now) && LeftAlone(t, u, now)
    ensures LeftAlone(s, u, now)
  {
  }

  lemma FoundLeavesAlone(s: Store, t: Store, m: Option<Match>, name: string, site: Option<string>, now: real,
                         device: Option<Id>)
    requires IdsBelow(s) && (t == s || HostFound(s, t, m, name, site, now, device))
    ensures LeftAlone(s, t, now)
  {
    hide LeftAlone, Known, Rediscovered, IdsBelow, AddedDevice;
    NewLeavesAlone(s, name, site, now);
    if t != s && Known(s, m, name) {
      RediscoveredLeavesAlone(s, device.value, site, m.Some? && m.value.OnDevice?, now);
    }
  }

  lemma NewLeavesAlone(s: Store, name: string, site: Option<string>, now: real)
    requires IdsBelow(s)
    ensures LeftAlone(s, s, now)
    ensures site.Some? ==>
              LeftAlone(s, AddedDevice(s, Device(name, site.value, {MANAGED, SRC_DHCP}, Active, None, None, Some(now))),
                        now)
  {
  }

  lemma RediscoveredLeavesAlone(s: Store, device: Id, site: Option<string>, byMac: bool, now: real)
    requires device in s.devices
    ensures LeftAlone(s, s.(devices := s.devices[device := Rediscovered(s.devices[device], site, byMac, now)]), now)
  {
  }

  /** common.py:277-381. A device somebody else made is left alone, but for last_seen. */
  method EnsureHostDevice(nb: NetBox, l: Lease, host: Host, site: Option<string>, m: Option<Match>, now: real,
                          ghost h: set<Host>)
    returns (r: Outcome<bool>)
    requires Linked(nb.State()) && host in h
    requires m.Some? && m.value.OnDevice? ==> m.value.device in nb.devices
    modifies nb
    ensures Explained(r, old(nb.faults), nb.faults)
    ensures Written(old(nb.State()), nb.State(), h) && LeftAlone(old(nb.State()), nb.State(), now)
    ensures nb.dryRun ==> nb.State() == old(nb.State())
    ensures r == Ok(true) && !nb.dryRun ==> LeaseShown(nb.State(), host, "active", l.hostname, now)
  {
    hide Linked, Written, LeftAlone, HostFound, LeaseShown;
    ghost var s := nb.State();
    LinkedBelow(s);
    var device, name := HostDevice(nb, l, site, m, now, h);
    ghost var t := nb.State();
    WrittenLinked(s, t, h);
    FoundLeavesAlone(s, t, m, name, site, now, if device.Ok? then device.value else None);
    if device.Raised? {
      return Raised(device.refusal);
    }
    if device.value.None? || MANAGED !in nb.devices[device.value.value].tags || nb.dryRun {
      return Ok(false);
    }
    r := DocumentHost(nb, l, host, device.value.value, now, h);
    WrittenThen(s, t, nb.State(), h);
    LeftAloneThen(s, t, nb.State(), now);
  }

  /** common.py:347-381: the interface with the MAC, and the address on it. */
  method DocumentHost(nb: NetBox, l: Lease, host: Host, device: Id, now: real, ghost h: set<Host>)
    returns (r: Outcome<bool>)
    requires Linked(nb.State()) && host in h && !nb.dryRun
    requires device in nb.devices && MANAGED in nb.devices[device].tags
    modifies nb
    ensures Explained(r, old(nb.faults), nb.faults)
    ensures Written(old(nb.State()), nb.State(), h) && LeftAlone(old(nb.State()), nb.State(), now)
    ensures r == Ok(true) ==> LeaseShown(nb.State(), host, "active", l.hostname, now)
  {
    hide Linked, Written, LeftAlone, OnRecord, LeaseShown;
    ghost var s := nb.State();
    LinkedBelow(s);
    WrittenSelf(s, h);
    InterfaceWritten(s, device, ETH0, h);
    var iface := LocalInterface(nb, device, ETH0);
    AtMostEth0(s, nb.State(), device, now);
    if iface.Raised? {
      return Raised(iface.refusal);
    }
    ghost var t := nb.State();
    WrittenLinked(s, t, h);
    if l.mac.Some? {
      nb.SetInterfaceMac(iface.value.value, l.mac.value);
      if nb.State() != t {
        MacWritten(t, nb.State(), iface.value.value, l.mac.value, h);
        WrittenThen(s, t, nb.State(), h);
      }
    }
    ghost var u := nb.State();
    WrittenLinked(s, u, h);
    var w := Reservation(l, host, OnInterface(iface.value.value), now);
    r := RecordAddress(nb, w, Some(OnDevice(iface.value.value, device)), h);
    if r == Ok(true) {
      RecordShows(u, nb.State(), w);
    }
    WrittenThen(s, u, nb.State(), h);
    PromotionLeavesAlone(s, t, nb.State(), device, now);
  }

  lemma AtMostEth0(s: Store, t: Store, device: Id, now: real)
    requires IdsBelow(s) && device in s.devices && MANAGED in s.devices[device].tags
    requires t == s || t == AddedInterface(s, Interface(device, ETH0))
    ensures LeftAlone(s, t, now)
  {
  }

  lemma PromotionLeavesAlone(s: Store, t: Store, u: Store, device: Id, now: real)
    requires LeftAlone(s, t, now) && u.interfaces == t.interfaces
    requires u.devices == t.devices || Promoted(t.devices, u.devices, device)
    ensures LeftAlone(s, u, now)
  {
  }

  /** dhcp.py:119-166, one lease. */
  method WriteLease(nb: NetBox, l: Lease, host: Host, site: Option<string>, now: real, ghost h: set<Host>)
    returns (r: Outcome<bool>)
    requires Linked(nb.State()) && host in h
    modifies nb
    ensures Explained(r, old(nb.faults), nb.faults)
    ensures Written(old(nb.State()), nb.State(), h)
    ensures nb.dryRun ==> nb.State() == old(nb.State())
    ensures !l.reserved && r.Ok? && !nb.dryRun ==>
              HasRecord(nb.State(), host) || (!r.value && !old(HasRecord(nb.State(), host)))
    ensures !l.reserved && r == Ok(true) && !nb.dryRun ==>
              exists place, text, ip | FoundBy(old(nb.State()), l.mac, place, nb.faults == old(nb.faults)) ::
                OnRecord(old(nb.State()), nb.State(),
                         Wanted(host, "src-dhcp", place, Info("dhcp", l.hostname, text), now), ip)
    ensures r == Ok(true) && !nb.dryRun ==>
              LeaseShown(nb.State(), host, if l.reserved then "active" else "dhcp", l.hostname, now)
  {
    hide Linked, Written, OnRecord, FoundBy, LeaseShown;
    var m: Option<Match> := None;
    ghost var s := nb.State();
    if l.mac.Some? {
      m := FindInterfaceByMac(nb, l.mac.value);
      MatchIsThere(nb.State(), l.mac.value, m);
    }
    MatchFinds(s, l.mac, m, nb.faults == old(nb.faults));
    if !l.reserved {
      ghost var clean := nb.faults == old(nb.faults);
      r := RecordAddress(nb, DynamicLease(l, host, PlaceOf(m), now), m, h);
      if r == Ok(true) && !nb.dryRun {
        RecordShows(s, nb.State(), DynamicLease(l, host, PlaceOf(m), now));
      }
      FoundStill(s, l.mac, PlaceOf(m), clean, nb.faults == old(nb.faults));
    } else if m.Some? && m.value.OnGuest? {
      r := AttachReservation(nb, l, host, m.value.iface, m.value.vm, now, h);
    } else {
      r := EnsureHostDevice(nb, l, host, site, m, now, h);
    }
  }

  /** A record of the host shows the lease, as far as it is ours. */
  ghost predicate LeaseShown(t: Store, host: Host, status: string, name: string, now: real) {
    exists i | i in t.ips && t.ips[i].host == host && t.ips[i].lastSeen == Some(now) ::
      MadeByDhcp(t.ips[i].tags) ==> t.ips[i].info.status == status && (name != "" ==> t.ips[i].info.dnsName == name)
  }

  lemma RecordShows(s: Store, t: Store, w: Wanted)
    requires w.source == "src-dhcp" && exists ip :: OnRecord(s, t, w, ip)
    ensures LeaseShown(t, w.host, w.info.status, w.info.dnsName, w.now)
  {
    var ip :| OnRecord(s, t, w, ip);
    assert t.ips[ip].host == w.host;
  }

  /** On an interface that has the MAC on record; nowhere only if there is none, or a lookup failed. */
  ghost predicate FoundBy(s: Store, mac: Option<string>, place: Place, clean: bool) {
    if place == Nowhere then
      clean && mac.Some? ==> !OnSomeVm(s, mac.value) && forall d :: !Carries(s, d, mac.value)
    else mac.Some? && exists m | m in s.macs :: s.macs[m] == MacRecord(mac.value, place)
  }

  lemma FoundStill(s: Store, mac: Option<string>, place: Place, was: bool, clean: bool)
    requires FoundBy(s, mac, place, was) && (clean ==> was)
    ensures FoundBy(s, mac, place, clean)
  {
  }

  lemma MatchFinds(s: Store, mac: Option<string>, m: Option<Match>, clean: bool)
    requires m.Some? ==> mac.Some? && MatchOf(s, mac.value, m.value)
    requires m.None? && clean && mac.Some? ==> !OnSomeVm(s, mac.value) && forall d :: !Carries(s, d, mac.value)
    ensures FoundBy(s, mac, PlaceOf(m), clean)
  {
  }

  lemma MatchIsThere(s: Store, mac: string, m: Option<Match>)
    requires Linked(s) && (m.Some? ==> MatchOf(s, mac, m.value))
    ensures m.Some? && m.value.OnDevice? ==> m.value.device in s.devices
  {
  }
}
