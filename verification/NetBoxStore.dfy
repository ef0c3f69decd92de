/**
 The inventory every sync module reconciles: NetBox's devices, virtual machines,
 interfaces, addresses, cables and MAC records, and the guarded write layer of
 clients/netbox.py.

 `Store` is a snapshot of the inventory. The functions on it say what one request does
 on the server, including what NetBox cascades; the class `NetBox` is the client.
 */
module NetBoxStore {
  import opened Prelude
  import opened Networks

  const MANAGED: string := "managed-netbox-monitor"
  const STALE: string := "stale"
  const SRC_SCAN: string := "src-scan"
  const SRC_DHCP: string := "src-dhcp"
  const SRC_LLDP: string := "src-lldp"
  const LLDP_SOURCE: string := "lldp-source"

  type Id = nat
  type Tags = set<string>

  datatype Status = Active | Offline | OtherStatus

  datatype Device = Device(name: string, site: string, tags: Tags, status: Status,
                           primary4: Option<Id>, primary6: Option<Id>, lastSeen: Option<real>)

  /** A guest may be pinned to the device it runs on. */
  datatype Vm = Vm(device: Option<Id>, tags: Tags, lastSeen: Option<real>)

  datatype Interface = Interface(device: Id, name: string)

  /** What an address or a MAC record is assigned to. */
  datatype Place = Nowhere | OnInterface(iface: Id) | OnVmInterface(iface: Id, vm: Id)

  /** What an address record says about its address. */
  datatype Info = Info(status: string, dnsName: string, description: string)

  datatype Ip = Ip(host: Host, tags: Tags, place: Place, info: Info, lastSeen: Option<real>)

  datatype Cable = Cable(ends: set<Id>, tags: Tags, lastSeen: Option<real>)

  datatype MacRecord = MacRecord(mac: string, place: Place)

  /** `primaryMacs` holds the MAC record an interface names as its own. */
  datatype Store = Store(
    devices: map<Id, Device>, vms: map<Id, Vm>, interfaces: map<Id, Interface>,
    ips: map<Id, Ip>, cables: map<Id, Cable>, macs: map<Id, MacRecord>,
    primaryMacs: map<Id, Id>, nextId: Id)

  /** clients/netbox.py:79-83. */
  predicate IsManaged(tags: Tags, source: Option<string>) {
    MANAGED in tags && (source.Some? ==> source.value in tags)
  }

  // ------------------------------------------------------------- the server

  /** The interfaces of a device. */
  function InterfacesOf(s: Store, device: Id): set<Id> {
    set i | i in s.interfaces && s.interfaces[i].device == device
  }

  /** The addresses on the interfaces of a device. */
  function IpsOf(s: Store, device: Id): set<Id> {
    set i | i in s.ips && s.ips[i].place.OnInterface? && s.ips[i].place.iface in InterfacesOf(s, device)
  }

  predicate IsOn(a: Place, gone: set<Id>) {
    a.OnInterface? && a.iface in gone
  }

  /** A guest whose device is gone runs on none. */
  function Detached(v: Vm, gone: set<Id>): Vm {
    if v.device.Some? && v.device.value in gone then v.(device := None) else v
  }

  /** A guest is pinned to the device. */
  predicate Pinned(s: Store, device: Id) {
    exists v | v in s.vms :: s.vms[v].device == Some(device)
  }

  lemma PinnedIs(s: Store, device: Id)
    ensures Pinned(s, device) <==> exists v | v in s.vms :: s.vms[v].device == Some(device)
  {
  }

  /**
   A device takes its interfaces with it, and they their cables and MAC records, whoever
   made them; addresses are unassigned, and guests pinned to it are detached.
   */
  function WithoutDevice(s: Store, device: Id): Store {
    var gone := InterfacesOf(s, device);
    s.(devices := s.devices - {device},
       vms := map v | v in s.vms :: Detached(s.vms[v], {device}),
       interfaces := s.interfaces - gone,
       primaryMacs := s.primaryMacs - gone,
       ips := map i | i in s.ips ::
         if IsOn(s.ips[i].place, gone) then s.ips[i].(place := Nowhere) else s.ips[i],
       cables := map c | c in s.cables && (forall e | e in s.cables[c].ends :: e !in gone) :: s.cables[c],
       macs := map m | m in s.macs && !IsOn(s.macs[m].place, gone) :: s.macs[m])
  }

  /** A deleted address is nobody's primary any more. */
  function Released(d: Device, ip: Id): Device {
    d.(primary4 := if d.primary4 == Some(ip) then None else d.primary4,
       primary6 := if d.primary6 == Some(ip) then None else d.primary6)
  }

  function WithoutIp(s: Store, ip: Id): Store {
    s.(ips := s.ips - {ip}, devices := map d | d in s.devices :: Released(s.devices[d], ip))
  }

  /** Several addresses fewer. */
  function WithoutIps(s: Store, gone: set<Id>): Store {
    s.(ips := s.ips - gone, devices := map d | d in s.devices :: ReleasedAll(s.devices[d], gone))
  }

  function ReleasedAll(d: Device, gone: set<Id>): Device {
    d.(primary4 := if d.primary4.Some? && d.primary4.value in gone then None else d.primary4,
       primary6 := if d.primary6.Some? && d.primary6.value in gone then None else d.primary6)
  }

  /** A virtual machine takes its interfaces with it; their addresses are unassigned. */
  function WithoutVm(s: Store, vm: Id): Store {
    s.(vms := s.vms - {vm},
       ips := map i | i in s.ips :: if IsOnVm(s.ips[i].place, {vm}) then s.ips[i].(place := Nowhere) else s.ips[i],
       macs := map m | m in s.macs && !IsOnVm(s.macs[m].place, {vm}) :: s.macs[m])
  }

  predicate IsOnVm(a: Place, gone: set<Id>) {
    a.OnVmInterface? && a.vm in gone
  }

  function WithoutCable(s: Store, cable: Id): Store {
    s.(cables := s.cables - {cable})
  }

  function AddedDevice(s: Store, d: Device): Store {
    s.(devices := s.devices[s.nextId := d], nextId := s.nextId + 1)
  }

  function AddedInterface(s: Store, i: Interface): Store {
    s.(interfaces := s.interfaces[s.nextId := i], nextId := s.nextId + 1)
  }

  function AddedIp(s: Store, ip: Ip): Store {
    s.(ips := s.ips[s.nextId := ip], nextId := s.nextId + 1)
  }

  function AddedCable(s: Store, c: Cable): Store {
    s.(cables := s.cables[s.nextId := c], nextId := s.nextId + 1)
  }

  predicate HasMac(s: Store, iface: Id, mac: string) {
    exists m | m in s.macs :: s.macs[m] == MacRecord(mac, OnInterface(iface))
  }

  /** At most a record of this MAC is new, and the interface's primary MAC. */
  ghost predicate MacTouched(s: Store, t: Store, iface: Id, mac: string) {
    && t == s.(macs := t.macs, primaryMacs := t.primaryMacs, nextId := t.nextId)
    && s.nextId <= t.nextId && iface in s.interfaces
    && (t.macs == s.macs || t.macs == s.macs[s.nextId := MacRecord(mac, OnInterface(iface))])
    && (t.macs != s.macs ==> s.nextId < t.nextId)
    && (forall i | i in t.primaryMacs :: i in s.primaryMacs || i == iface)
    && (forall i | i in s.primaryMacs :: i in t.primaryMacs && t.primaryMacs[i] == s.primaryMacs[i])
  }

  function Reassigned(s: Store, ip: Id, iface: Id): Store
    requires ip in s.ips
  {
    s.(ips := s.ips[ip := s.ips[ip].(place := OnInterface(iface))])
  }

  function WithPrimaries(s: Store, device: Id, primary4: Option<Id>, primary6: Option<Id>): Store
    requires device in s.devices
  {
    s.(devices := s.devices[device := s.devices[device].(primary4 := primary4, primary6 := primary6)])
  }

  // ------------------------------------------------------------- invariants

  /** Identifiers are handed out in ascending order and never again. */
  ghost predicate IdsBelow(s: Store) {
    && (forall k | k in s.devices :: k < s.nextId)
    && (forall k | k in s.interfaces :: k < s.nextId)
    && (forall k | k in s.ips :: k < s.nextId)
    && (forall k | k in s.cables :: k < s.nextId)
    && (forall k | k in s.macs :: k < s.nextId)
  }

  /** References lead somewhere. */
  ghost predicate Linked(s: Store) {
    && IdsBelow(s)
    && (forall i | i in s.interfaces :: s.interfaces[i].device in s.devices)
    && (forall i | i in s.ips && s.ips[i].place.OnInterface? :: s.ips[i].place.iface in s.interfaces)
    && (forall c | c in s.cables :: s.cables[c].ends <= s.interfaces.Keys)
    && (forall m | m in s.macs && s.macs[m].place.OnInterface? :: s.macs[m].place.iface in s.interfaces)
  }

  /** Each interface ends at most one cable. */
  ghost predicate CablesApart(s: Store) {
    forall c, c' | c in s.cables && c' in s.cables && c != c' :: s.cables[c].ends !! s.cables[c'].ends
  }

  predicate Designates(d: Device, ip: Id) {
    d.primary4 == Some(ip) || d.primary6 == Some(ip)
  }

  /** Each primary address sits on an interface of its own device. */
  ghost predicate PrimariesOwned(s: Store) {
    forall d, ip | d in s.devices && Designates(s.devices[d], ip) :: ip in IpsOf(s, d)
  }

  lemma WithoutDeviceKeepsLinked(s: Store, device: Id)
    requires Linked(s)
    ensures Linked(WithoutDevice(s, device))
  {
    var t := WithoutDevice(s, device);
    forall c | c in t.cables ensures t.cables[c].ends <= t.interfaces.Keys {
      forall e | e in t.cables[c].ends ensures e in t.interfaces {
        assert e in s.interfaces.Keys;
      }
    }
  }

  lemma WithoutDeviceKeepsPrimaries(s: Store, device: Id)
    requires PrimariesOwned(s)
    ensures PrimariesOwned(WithoutDevice(s, device))
  {
    var t := WithoutDevice(s, device);
    forall d, ip | d in t.devices && Designates(t.devices[d], ip) ensures ip in IpsOf(t, d) {
      assert ip in IpsOf(s, d);
    }
  }

  lemma LinkedBelow(s: Store)
    requires Linked(s)
    ensures IdsBelow(s)
  {
  }

  /** An exception that is not a refusal needs a request that did not get through. */
  predicate Explained<T>(r: Outcome<T>, before: nat, after: nat) {
    before <= after && (r.Raised? && !r.refusal ==> before < after)
  }

  // ------------------------------------------------------------- the client

  /** clients/netbox.py:52-161: dry-run and ownership guards in front of every write. */
  class NetBox {
    const dryRun: bool
    /** Whether the server refuses to delete a device while guests are pinned to it. */
    const protective: bool
    var devices: map<Id, Device>
    var vms: map<Id, Vm>
    var interfaces: map<Id, Interface>
    var ips: map<Id, Ip>
    var cables: map<Id, Cable>
    var macs: map<Id, MacRecord>
    var primaryMacs: map<Id, Id>
    var nextId: Id
    /** How many requests did not get through. */
    ghost var faults: nat

    constructor (s: Store, dryRun: bool, protective: bool)
      ensures State() == s && this.dryRun == dryRun && this.protective == protective
    {
      this.dryRun, this.protective := dryRun, protective;
      devices, vms, interfaces := s.devices, s.vms, s.interfaces;
      ips, cables, macs, primaryMacs, nextId := s.ips, s.cables, s.macs, s.primaryMacs, s.nextId;
      faults := 0;
    }

    function State(): Store
      reads this
    {
      Store(devices, vms, interfaces, ips, cables, macs, primaryMacs, nextId)
    }

    method Load(s: Store)
      modifies this
      ensures State() == s && faults == old(faults)
    {
      devices, vms, interfaces := s.devices, s.vms, s.interfaces;
      ips, cables, macs, primaryMacs, nextId := s.ips, s.cables, s.macs, s.primaryMacs, s.nextId;
    }

    /** Update a device's own fields; False in dry-run. */
    method UpdateDevice(id: Id, data: Device) returns (ok: bool)
      requires id in devices
      modifies `devices
      ensures ok == !dryRun
      ensures devices == if dryRun then old(devices) else old(devices)[id := data]
    {
      if dryRun {
        return false;
      }
      devices := devices[id := data];
      ok := true;
    }

    /** clients/netbox.py:108-124, for a device. `tags` are those of the caller's copy. */
    method DeleteDevice(id: Id, tags: Tags, source: Option<string>) returns (ok: bool)
      modifies this
      ensures ok == ("managed-netbox-monitor" in tags && (source.Some? ==> source.value in tags) && !dryRun)
      ensures State() == if ok then WithoutDevice(old(State()), id) else old(State())
      ensures faults == old(faults)
    {
      if !IsManaged(tags, source) || dryRun {
        return false;
      }
      Load(WithoutDevice(State(), id));
      ok := true;
    }

    method DeleteIp(id: Id, tags: Tags, source: Option<string>) returns (ok: bool)
      modifies this
      ensures ok == ("managed-netbox-monitor" in tags && (source.Some? ==> source.value in tags) && !dryRun)
      ensures State() == if ok then WithoutIp(old(State()), id) else old(State())
      ensures faults == old(faults)
    {
      if !IsManaged(tags, source) || dryRun {
        return false;
      }
      Load(WithoutIp(State(), id));
      ok := true;
    }

    method DeleteVm(id: Id, tags: Tags, source: Option<string>) returns (ok: bool)
      modifies this
      ensures ok == ("managed-netbox-monitor" in tags && (source.Some? ==> source.value in tags) && !dryRun)
      ensures State() == if ok then WithoutVm(old(State()), id) else old(State())
      ensures faults == old(faults)
    {
      if !IsManaged(tags, source) || dryRun {
        return false;
      }
      Load(WithoutVm(State(), id));
      ok := true;
    }

    method DeleteCable(id: Id, tags: Tags, source: Option<string>) returns (ok: bool)
      modifies `cables
      ensures ok == ("managed-netbox-monitor" in tags && (source.Some? ==> source.value in tags) && !dryRun)
      ensures State() == if ok then WithoutCable(old(State()), id) else old(State())
    {
      if !IsManaged(tags, source) || dryRun {
        return false;
      }
      cables := cables - {id};
      ok := true;
    }

    // --------------------------------------- requests that may not get through

    /** Whether this request gets through is not up to the program. */
    method Reached() returns (ok: bool)
      modifies `faults
      ensures faults == old(faults) + if ok then 0 else 1
    {
      ok := *;
      if !ok {
        faults := faults + 1;
      }
    }

    method CreateDevice(name: string, site: string, tags: Tags, now: real) returns (r: Outcome<Option<Id>>)
      modifies this
      ensures Explained(r, old(faults), faults)
      ensures r.Ok? && !dryRun ==>
                && r.value == Some(old(nextId))
                && State() == AddedDevice(old(State()), Device(name, site, tags, Active, None, None, Some(now)))
      ensures r.Raised? || dryRun ==> State() == old(State())
      ensures dryRun ==> r == Ok(None)
      ensures r.Raised? ==> !r.refusal
    {
      if dryRun {
        return Ok(None);
      }
      var ok := Reached();
      if !ok {
        return Raised(false);
      }
      devices := devices[nextId := Device(name, site, tags, Active, None, None, Some(now))];
      r := Ok(Some(nextId));
      nextId := nextId + 1;
    }

    /** NetBox refuses an interface on a device it does not have. */
    method CreateInterface(device: Id, name: string) returns (r: Outcome<Option<Id>>)
      modifies this
      ensures Explained(r, old(faults), faults)
      ensures r.Ok? && !dryRun ==>
                && device in devices && r.value == Some(old(nextId))
                && State() == AddedInterface(old(State()), Interface(device, name))
      ensures r.Raised? || dryRun ==> State() == old(State())
      ensures dryRun ==> r == Ok(None)
      ensures r.Raised? && r.refusal ==> device !in devices
    {
      if dryRun {
        return Ok(None);
      }
      var ok := Reached();
      if !ok || device !in devices {
        return Raised(ok);
      }
      interfaces := interfaces[nextId := Interface(device, name)];
      r := Ok(Some(nextId));
      nextId := nextId + 1;
    }

    method CreateIp(data: Ip) returns (r: Outcome<Option<Id>>)
      modifies this
      ensures Explained(r, old(faults), faults)
      ensures r.Ok? && !dryRun ==>
                && (data.place.OnInterface? ==> data.place.iface in interfaces) && r.value == Some(old(nextId))
                && State() == AddedIp(old(State()), data)
      ensures r.Raised? || dryRun ==> State() == old(State())
      ensures dryRun ==> r == Ok(None)
    {
      if dryRun {
        return Ok(None);
      }
      var ok := Reached();
      if !ok || (data.place.OnInterface? && data.place.iface !in interfaces) {
        return Raised(ok);
      }
      ips := ips[nextId := data];
      r := Ok(Some(nextId));
      nextId := nextId + 1;
    }

    method CreateCable(a: Id, b: Id, tags: Tags, now: real) returns (r: Outcome<Option<Id>>)
      modifies this
      ensures Explained(r, old(faults), faults)
      ensures r.Ok? && !dryRun ==>
                && a in interfaces && b in interfaces && r.value == Some(old(nextId))
                && State() == AddedCable(old(State()), Cable({a, b}, tags, Some(now)))
      ensures r.Raised? || dryRun ==> State() == old(State())
      ensures dryRun ==> r == Ok(None)
    {
      if dryRun {
        return Ok(None);
      }
      var ok := Reached();
      if !ok || a !in interfaces || b !in interfaces {
        return Raised(ok);
      }
      cables := cables[nextId := Cable({a, b}, tags, Some(now))];
      r := Ok(Some(nextId));
      nextId := nextId + 1;
    }

    /**
     `set_interface_mac` (common.py:238-274): a MAC record, and the interface's primary
     one if it had none. Failures are swallowed.
     */
    method SetInterfaceMac(iface: Id, mac: string)
      modifies this
      ensures old(faults) <= faults
      ensures State() == old(State()) || (!dryRun && MacTouched(old(State()), State(), iface, mac))
      ensures faults == old(faults) && !dryRun && iface in interfaces ==>
                HasMac(State(), iface, mac) && iface in primaryMacs
    {
      if dryRun || iface !in interfaces {
        return;
      }
      var record: Id;
      if exists m | m in macs :: macs[m] == MacRecord(mac, OnInterface(iface)) {
        record :| record in macs && macs[record] == MacRecord(mac, OnInterface(iface));
      } else {
        var ok := Reached();
        if !ok {
          return;
        }
        record := nextId;
        macs := macs[record := MacRecord(mac, OnInterface(iface))];
        nextId := nextId + 1;
      }
      assert macs[record] == MacRecord(mac, OnInterface(iface));
      if iface !in primaryMacs {
        var ok := Reached();
        if ok {
          primaryMacs := primaryMacs[iface := record];
        }
      }
    }

    /** Update the fields of an address; one that is some device's primary cannot be reassigned. */
    method UpdateIp(ip: Id, data: Ip) returns (r: Outcome<bool>)
      requires ip in ips
      modifies this
      ensures Explained(r, old(faults), faults)
      ensures r.Ok? && !dryRun ==> State() == old(State()).(ips := old(ips)[ip := data])
      ensures r.Ok? && !dryRun && data.place.OnInterface? && data.place != old(ips[ip]).place ==>
                data.place.iface in interfaces
      ensures r.Raised? || dryRun ==> State() == old(State())
    {
      if dryRun {
        return Ok(false);
      }
      var ok := Reached();
      if !ok || (data.place != ips[ip].place
                 && ((data.place.OnInterface? && data.place.iface !in interfaces)
                     || exists d | d in devices :: Designates(devices[d], ip))) {
        return Raised(ok);
      }
      ips := ips[ip := data];
      r := Ok(true);
    }

    /** An address that is some device's primary cannot be reassigned. */
    method AssignIp(ip: Id, iface: Id) returns (r: Outcome<bool>)
      modifies this
      ensures Explained(r, old(faults), faults)
      ensures r.Ok? && !dryRun ==>
                && ip in old(ips) && iface in interfaces && (forall d | d in devices :: !Designates(devices[d], ip))
                && State() == Reassigned(old(State()), ip, iface)
      ensures r.Raised? || dryRun ==> State() == old(State())
      ensures r.Raised? && r.refusal ==>
                ip !in ips || iface !in interfaces || exists d | d in devices :: Designates(devices[d], ip)
      ensures dryRun ==> r == Ok(false)
    {
      if dryRun {
        return Ok(false);
      }
      var ok := Reached();
      if !ok || ip !in ips || iface !in interfaces || exists d | d in devices :: Designates(devices[d], ip) {
        return Raised(ok);
      }
      ips := ips[ip := ips[ip].(place := OnInterface(iface))];
      r := Ok(true);
    }

    method ReleasePrimaries(device: Id) returns (r: Outcome<bool>)
      modifies this
      ensures Explained(r, old(faults), faults)
      ensures r.Ok? && !dryRun ==>
                && device in old(devices)
                && State() == WithPrimaries(old(State()), device, None, None)
      ensures r.Raised? || dryRun ==> State() == old(State())
      ensures r.Raised? && r.refusal ==> device !in devices
      ensures dryRun ==> r == Ok(false)
    {
      if dryRun {
        return Ok(false);
      }
      var ok := Reached();
      if !ok || device !in devices {
        return Raised(ok);
      }
      devices := devices[device := devices[device].(primary4 := None, primary6 := None)];
      r := Ok(true);
    }

    /** A primary address must sit on the device itself. */
    method SetPrimary4(device: Id, ip: Id) returns (r: Outcome<bool>)
      modifies this
      ensures Explained(r, old(faults), faults)
      ensures r.Ok? && !dryRun ==>
                && device in old(devices) && ip in IpsOf(old(State()), device)
                && State() == WithPrimaries(old(State()), device, Some(ip), old(devices[device].primary6))
      ensures r.Raised? || dryRun ==> State() == old(State())
      ensures r.Raised? && r.refusal ==> device !in devices || ip !in IpsOf(State(), device)
      ensures dryRun ==> r == Ok(false)
    {
      if dryRun {
        return Ok(false);
      }
      var ok := Reached();
      if !ok || device !in devices || ip !in IpsOf(State(), device) {
        return Raised(ok);
      }
      devices := devices[device := devices[device].(primary4 := Some(ip))];
      r := Ok(true);
    }

    /** clients/netbox.py:126-138; `tags` are those of the caller's copy of the device. */
    method DeleteIfManaged(device: Id, tags: Tags) returns (r: Outcome<bool>)
      modifies this
      ensures Explained(r, old(faults), faults)
      ensures r.Ok? && !dryRun && MANAGED in tags ==>
                && r.value && device in old(devices)
                && (protective ==> forall v | v in old(vms) :: old(vms[v]).device != Some(device))
                && State() == WithoutDevice(old(State()), device)
      ensures r.Raised? || dryRun || MANAGED !in tags ==> State() == old(State())
      ensures r.Raised? && r.refusal ==>
                device !in devices || (protective && exists v | v in vms :: vms[v].device == Some(device))
      ensures dryRun || MANAGED !in tags ==> r == Ok(false)
    {
      if MANAGED !in tags || dryRun {
        return Ok(false);
      }
      var ok := Reached();
      if !ok || device !in devices || (protective && Pinned(State(), device)) {
        return Raised(ok);
      }
      Load(WithoutDevice(State(), device));
      r := Ok(true);
    }
  }
}
