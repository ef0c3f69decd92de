/**
 What no step of the LLDP crawl may do to the inventory, as a relation between two
 snapshots that composes over any number of steps.
 */
module LldpSafety {
  import opened Prelude
  import opened NetBoxStore
  import opened Common

  /** A caller's copy of a device record, possibly out of date. */
  datatype Handle = Handle(id: Id, device: Device)

  /** Everything but the primary addresses, which merges hand over. */
  predicate SameDevice(d: Device, e: Device) {
    d.(primary4 := None, primary6 := None) == e.(primary4 := None, primary6 := None)
  }

  /** Human-made devices stay; what goes was made by this service. */
  ghost predicate DevicesSafe(s: Store, t: Store) {
    forall d | d in s.devices ::
      if d in t.devices then SameDevice(s.devices[d], t.devices[d]) else MANAGED in s.devices[d].tags
  }

  /** No address record is lost, and one we do not manage stays where it is and says what it said. */
  ghost predicate IpsSafe(s: Store, t: Store) {
    forall i | i in s.ips ::
      && i in t.ips && t.ips[i].host == s.ips[i].host && t.ips[i].tags == s.ips[i].tags
      && (MANAGED !in s.ips[i].tags ==> t.ips[i].place == s.ips[i].place && t.ips[i].info == s.ips[i].info)
  }

  /** Interfaces go only with their device. */
  ghost predicate InterfacesSafe(s: Store, t: Store) {
    forall i | i in s.interfaces ::
      if i in t.interfaces then t.interfaces[i] == s.interfaces[i] else s.interfaces[i].device !in t.devices
  }

  /** An existing cable is never touched; it goes only with a device at one of its ends. */
  ghost predicate CablesSafe(s: Store, t: Store) {
    forall c | c in s.cables ::
      if c in t.cables then t.cables[c] == s.cables[c]
      else exists e | e in s.cables[c].ends && e in s.interfaces :: s.interfaces[e].device !in t.devices
  }

  /** MAC records are never rewritten; they go only with their interface. */
  ghost predicate MacsSafe(s: Store, t: Store) {
    && (forall m | m in s.macs ::
          if m in t.macs then t.macs[m] == s.macs[m]
          else s.macs[m].place.OnInterface? && s.macs[m].place.iface !in t.interfaces)
    && (forall m | m in t.macs && m !in s.macs :: s.nextId <= m)
  }

  /** Records that are new have new identifiers. */
  ghost predicate IdsSafe(s: Store, t: Store) {
    && s.nextId <= t.nextId && IdsBelow(t)
    && (forall k | k in t.devices && k !in s.devices :: s.nextId <= k)
    && (forall k | k in t.interfaces && k !in s.interfaces :: s.nextId <= k)
    && (forall k | k in t.cables && k !in s.cables :: s.nextId <= k)
  }

  ghost predicate Safe(s: Store, t: Store) {
    && DevicesSafe(s, t) && IpsSafe(s, t) && InterfacesSafe(s, t) && CablesSafe(s, t) && IdsSafe(s, t)
    && MacsSafe(s, t)
  }

  /** Nothing on record is rewritten: MAC records stay, and only unassigned addresses are assigned. */
  ghost predicate Grown(s: Store, t: Store) {
    && t.vms == s.vms
    && (forall m | m in s.macs :: m in t.macs && t.macs[m] == s.macs[m])
    && (forall i | i in s.ips :: i in t.ips && (t.ips[i].place == s.ips[i].place || s.ips[i].place.Nowhere?))
  }

  lemma SafeSelf(s: Store)
    requires IdsBelow(s)
    ensures Safe(s, s)
  {
  }

  /** What is gone stays gone. */
  lemma GoneStaysGone(s: Store, t: Store, u: Store, d: Id)
    requires IdsBelow(s) && IdsSafe(s, t) && IdsSafe(t, u)
    requires d in s.devices && d !in t.devices
    ensures d !in u.devices
  {
  }

  lemma CablesCompose(s: Store, t: Store, u: Store)
    requires Linked(s) && CablesSafe(s, t) && CablesSafe(t, u) && InterfacesSafe(s, t) && IdsSafe(s, t) && IdsSafe(t, u)
    ensures CablesSafe(s, u)
  {
    forall c | c in s.cables
      ensures if c in u.cables then u.cables[c] == s.cables[c]
              else exists e | e in s.cables[c].ends && e in s.interfaces :: s.interfaces[e].device !in u.devices
    {
      if c in t.cables {
        if c !in u.cables {
          var e :| e in t.cables[c].ends && e in t.interfaces && t.interfaces[e].device !in u.devices;
          assert e in s.interfaces;
        }
      } else {
        var e :| e in s.cables[c].ends && e in s.interfaces && s.interfaces[e].device !in t.devices;
        GoneStaysGone(s, t, u, s.interfaces[e].device);
        assert c !in u.cables;
      }
    }
  }

  lemma InterfacesCompose(s: Store, t: Store, u: Store)
    requires Linked(s) && InterfacesSafe(s, t) && InterfacesSafe(t, u) && IdsSafe(s, t) && IdsSafe(t, u)
    ensures InterfacesSafe(s, u)
  {
    forall i | i in s.interfaces
      ensures if i in u.interfaces then u.interfaces[i] == s.interfaces[i] else s.interfaces[i].device !in u.devices
    {
      if i !in t.interfaces {
        GoneStaysGone(s, t, u, s.interfaces[i].device);
        assert i !in u.interfaces;
      }
    }
  }

  lemma MacsCompose(s: Store, t: Store, u: Store)
    requires Linked(s) && MacsSafe(s, t) && MacsSafe(t, u) && IdsSafe(s, t) && IdsSafe(t, u)
    ensures MacsSafe(s, u)
  {
  }

  /** Safe steps compose to a safe run. */
  lemma SafeTransitive(s: Store, t: Store, u: Store)
    requires Linked(s) && Safe(s, t) && Safe(t, u)
    ensures Safe(s, u)
  {
    CablesCompose(s, t, u);
    forall d | d in s.devices
      ensures if d in u.devices then SameDevice(s.devices[d], u.devices[d]) else MANAGED in s.devices[d].tags
    {
      if d !in t.devices { GoneStaysGone(s, t, u, d); }
    }
    InterfacesCompose(s, t, u);
    MacsCompose(s, t, u);
    hide MacsSafe;
  }

  /** A copy of a record that was read from this inventory, at some time. */
  ghost predicate HandleOk(s: Store, h: Handle) {
    h.id < s.nextId && (h.id in s.devices ==> s.devices[h.id].tags == h.device.tags)
  }

  lemma HandleStaysOk(s: Store, t: Store, h: Handle)
    requires HandleOk(s, h) && Safe(s, t)
    ensures HandleOk(t, h)
  {
    if h.id in s.devices && h.id in t.devices {
      assert SameDevice(s.devices[h.id], t.devices[h.id]);
    }
  }

  // ------------------------------------------------- the requests of a crawl

  lemma AddedInterfaceSafe(s: Store, device: Id, name: string)
    requires Linked(s) && device in s.devices
    ensures Safe(s, AddedInterface(s, Interface(device, name))) && Linked(AddedInterface(s, Interface(device, name)))
    ensures Grown(s, AddedInterface(s, Interface(device, name)))
  {
    InterfaceLinks(s, device, name);
    hide Linked;
    assert forall i | i in s.interfaces :: i in AddedInterface(s, Interface(device, name)).interfaces;
  }

  lemma InterfaceLinks(s: Store, device: Id, name: string)
    requires Linked(s) && device in s.devices
    ensures Linked(AddedInterface(s, Interface(device, name))) && IdsBelow(s)
    ensures forall m | m in s.macs && s.macs[m].place.OnInterface? :: s.macs[m].place.iface in s.interfaces
  {
    var t := AddedInterface(s, Interface(device, name));
    assert forall i | i in s.interfaces :: i in t.interfaces;
  }

  lemma MacTouchedSafe(s: Store, t: Store, iface: Id, mac: string)
    requires Linked(s) && MacTouched(s, t, iface, mac)
    ensures Safe(s, t) && Linked(t) && Grown(s, t)
  {
    MacLinks(s, t, iface, mac);
    LinkedBelow(s);
    LinkedBelow(t);
    assert t.devices == s.devices && t.interfaces == s.interfaces && t.ips == s.ips && t.cables == s.cables;
    hide Linked, MacTouched, MacsSafe;
  }

  lemma MacLinks(s: Store, t: Store, iface: Id, mac: string)
    requires Linked(s) && MacTouched(s, t, iface, mac)
    ensures Linked(t) && MacsSafe(s, t)
    ensures forall m | m in s.macs :: m in t.macs && t.macs[m] == s.macs[m]
    ensures t == s.(macs := t.macs, primaryMacs := t.primaryMacs, nextId := t.nextId) && s.nextId <= t.nextId
  {
  }

  lemma AddedDeviceSafe(s: Store, d: Device)
    requires Linked(s)
    ensures Safe(s, AddedDevice(s, d)) && Linked(AddedDevice(s, d))
    ensures Grown(s, AddedDevice(s, d))
  {
  }

  lemma IpTouchedSafe(s: Store, t: Store, w: Wanted)
    requires Linked(s) && IpTouched(s, t, w) && Placed(t) && t == s.(ips := t.ips, nextId := t.nextId)
    ensures Safe(s, t) && Linked(t) && Grown(s, t)
  {
    IpTouchedKeeps(s, t, w);
    hide IpTouched, IpsSafe;
  }

  lemma IpTouchedKeeps(s: Store, t: Store, w: Wanted)
    requires IdsBelow(s) && IpTouched(s, t, w)
    ensures IpsSafe(s, t) && s.nextId <= t.nextId && forall i | i in t.ips :: i < t.nextId
    ensures forall i | i in s.ips :: i in t.ips && (t.ips[i].place == s.ips[i].place || s.ips[i].place.Nowhere?)
  {
    AlignedAlways(w);
    hide Aligned, Upserted, NewIp, IpsSafe, AlignedKeeps;
    if t == s {
      NothingRewritten(s);
    } else if !HasRecord(s, w.host) && t == AddedIp(s, NewIp(w)) {
      OneAdded(s, NewIp(w));
    } else {
      var i :| i in s.ips && (|| t == s.(ips := s.ips[i := Aligned(s.ips[i], w)])
                              || t == s.(ips := s.ips[i := Upserted(s.ips[i], w)]));
      OneRewritten(s, i, t.ips[i]);
    }
  }

  lemma AlignedAlways(w: Wanted)
    ensures forall r :: AlignedKeeps(r, Aligned(r, w)) && AlignedKeeps(r, Upserted(r, w))
  {
  }

  lemma NothingRewritten(s: Store)
    ensures IpsSafe(s, s)
  {
  }

  lemma OneAdded(s: Store, ip: Ip)
    requires IdsBelow(s)
    ensures IpsSafe(s, AddedIp(s, ip))
  {
  }

  lemma OneRewritten(s: Store, i: Id, u: Ip)
    requires i in s.ips && AlignedKeeps(s.ips[i], u)
    ensures IpsSafe(s, s.(ips := s.ips[i := u])) && (u.place == s.ips[i].place || s.ips[i].place.Nowhere?)
  {
  }

  predicate AlignedKeeps(r: Ip, u: Ip) {
    && u.host == r.host && u.tags == r.tags && (u.place == r.place || r.place.Nowhere?)
    && (MANAGED !in r.tags ==> u.place == r.place && u.info == r.info)
  }

  lemma AddedCableSafe(s: Store, c: Cable)
    requires Linked(s) && c.ends <= s.interfaces.Keys
    ensures Safe(s, AddedCable(s, c)) && Linked(AddedCable(s, c))
    ensures Grown(s, AddedCable(s, c))
  {
  }

  lemma WithPrimariesSafe(s: Store, device: Id, primary4: Option<Id>, primary6: Option<Id>)
    requires Linked(s) && device in s.devices
    ensures Safe(s, WithPrimaries(s, device, primary4, primary6))
              && Linked(WithPrimaries(s, device, primary4, primary6))
    ensures Grown(s, WithPrimaries(s, device, primary4, primary6))
  {
  }
}
