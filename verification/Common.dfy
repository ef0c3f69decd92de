/**
 Lookups and writes that the sync modules share (common.py:71-179).
 */
module Common {
  import opened Prelude
  import opened Networks
  import opened NetBoxStore

  // ----------------------------------------------------------------- by MAC

  /** The device has the MAC on record. */
  predicate Carries(s: Store, device: Id, mac: string) {
    exists m | m in s.macs ::
      && s.macs[m].mac == mac && s.macs[m].place.OnInterface? && s.macs[m].place.iface in s.interfaces
      && s.interfaces[s.macs[m].place.iface].device == device
  }

  /** A virtual machine has the MAC on record. */
  predicate OnSomeVm(s: Store, mac: string) {
    exists m | m in s.macs :: s.macs[m].mac == mac && s.macs[m].place.OnVmInterface?
  }

  /** The interface a MAC was found on, with its parent. */
  datatype Match = OnDevice(iface: Id, device: Id) | OnGuest(iface: Id, vm: Id)

  predicate MatchOf(s: Store, mac: string, m: Match) {
    match m
    case OnDevice(i, d) => i in s.interfaces && s.interfaces[i].device == d && HasMac(s, i, mac) && !OnSomeVm(s, mac)
    case OnGuest(i, v) => exists r | r in s.macs :: s.macs[r] == MacRecord(mac, OnVmInterface(i, v))
  }

  /**
   common.py:138-179: an interface of a virtual machine that carries the MAC, else one of
   a device. A lookup that does not get through finds nothing.
   */
  method FindInterfaceByMac(nb: NetBox, mac: string) returns (found: Option<Match>)
    modifies nb`faults
    ensures old(nb.faults) <= nb.faults
    ensures found.Some? ==> MatchOf(nb.State(), mac, found.value)
    ensures found.None? && nb.faults == old(nb.faults) ==>
              !OnSomeVm(nb.State(), mac) && forall o :: !Carries(nb.State(), o, mac)
  {
    var ok := nb.Reached();
    if !ok {
      return None;
    }
    if exists r | r in nb.macs :: nb.macs[r].mac == mac && nb.macs[r].place.OnVmInterface? {
      var r :| r in nb.macs && nb.macs[r].mac == mac && nb.macs[r].place.OnVmInterface?;
      return Some(OnGuest(nb.macs[r].place.iface, nb.macs[r].place.vm));
    }
    if exists r | r in nb.macs ::
         nb.macs[r].mac == mac && nb.macs[r].place.OnInterface? && nb.macs[r].place.iface in nb.interfaces {
      var r :| r in nb.macs && nb.macs[r].mac == mac && nb.macs[r].place.OnInterface?
               && nb.macs[r].place.iface in nb.interfaces;
      var iface := nb.macs[r].place.iface;
      return Some(OnDevice(iface, nb.interfaces[iface].device));
    }
    return None;
  }

  // -------------------------------------------------------------- addresses

  predicate HasRecord(s: Store, host: Host) {
    exists i | i in s.ips :: s.ips[i].host == host
  }

  /** What a caller of `upsert_ip` wants on record; empty text in `info` says nothing. */
  datatype Wanted = Wanted(host: Host, source: string, place: Place, info: Info, now: real)

  function NewIp(w: Wanted): Ip {
    Ip(w.host, {MANAGED, w.source}, w.place, w.info, Some(w.now))
  }

  /** Only a record that is fully ours is brought into line, and only an unassigned one is assigned. */
  function Aligned(r: Ip, w: Wanted): Ip {
    if !IsManaged(r.tags, Some(w.source)) then r
    else
      r.(info := Info(w.info.status,
                      if w.info.dnsName != "" then w.info.dnsName else r.info.dnsName,
                      if w.info.description != "" then w.info.description else r.info.description),
         place := if r.place.Nowhere? then w.place else r.place)
  }

  /** The record of an address after an upsert. */
  function Upserted(r: Ip, w: Wanted): Ip {
    Aligned(r, w).(lastSeen := Some(w.now))
  }

  /**
   The address is on record as it ought to be: a new record says all that is wanted, one
   that is fully ours is brought into line, where empty text and an assigned place stand,
   and any other only gets its time. No other record changed.
   */
  ghost predicate OnRecord(s: Store, t: Store, w: Wanted, ip: Id) {
    && ip in t.ips && t.ips[ip].host == w.host && t.ips[ip].lastSeen == Some(w.now)
    && (forall i | i in s.ips && i != ip :: i in t.ips && t.ips[i] == s.ips[i])
    && t.ips.Keys == s.ips.Keys + {ip}
    && if ip !in s.ips then
         && t.ips[ip].tags == {"managed-netbox-monitor", w.source}
         && t.ips[ip].place == w.place && t.ips[ip].info == w.info
       else
         var was, now := s.ips[ip], t.ips[ip];
         && was.host == w.host && now.tags == was.tags
         && if "managed-netbox-monitor" in was.tags && w.source in was.tags then
              && now.place == (if was.place == Nowhere then w.place else was.place)
              && now.info.status == w.info.status
              && now.info.dnsName == (if w.info.dnsName == "" then was.info.dnsName else w.info.dnsName)
              && now.info.description == (if w.info.description == "" then was.info.description else w.info.description)
            else now.place == was.place && now.info == was.info
  }

  lemma SettledIs(s: Store, t: Store, w: Wanted, ip: Id)
    requires IpSettled(s, t, w, Some(ip)) && (forall i | i in s.ips :: i < s.nextId)
    ensures OnRecord(s, t, w, ip)
  {
  }

  /** Nothing, an aligned record, an upserted record or a new record: all an upsert can leave behind. */
  ghost predicate IpTouched(s: Store, t: Store, w: Wanted) {
    || t == s
    || (!HasRecord(s, w.host) && t == AddedIp(s, NewIp(w)))
    || exists i | i in s.ips && s.ips[i].host == w.host ::
         t == s.(ips := s.ips[i := Aligned(s.ips[i], w)]) || t == s.(ips := s.ips[i := Upserted(s.ips[i], w)])
  }

  /** The address that an upsert answers with is on record as wanted. */
  ghost predicate IpSettled(s: Store, t: Store, w: Wanted, ip: Option<Id>) {
    if HasRecord(s, w.host) then
      ip.Some? && ip.value in s.ips && s.ips[ip.value].host == w.host
      && t == s.(ips := s.ips[ip.value := Upserted(s.ips[ip.value], w)])
    else if ip.Some? then ip.value == s.nextId && t == AddedIp(s, NewIp(w))
    else t == s
  }

  /** Addresses sit on interfaces that exist. */
  ghost predicate Placed(s: Store) {
    forall i | i in s.ips && s.ips[i].place.OnInterface? :: s.ips[i].place.iface in s.interfaces
  }

  /** common.py:120-135: a record is brought into line, then gets its time. */
  method Refresh(nb: NetBox, i: Id, w: Wanted) returns (r: Outcome<bool>)
    requires i in nb.ips
    modifies nb
    ensures Explained(r, old(nb.faults), nb.faults)
    ensures r.Ok? && !nb.dryRun ==> nb.State() == old(nb.State()).(ips := old(nb.ips)[i := Upserted(old(nb.ips[i]), w)])
    ensures r.Raised? ==>
              || nb.State() == old(nb.State())
              || nb.State() == old(nb.State()).(ips := old(nb.ips)[i := Aligned(old(nb.ips[i]), w)])
    ensures i in nb.ips && nb.ips[i].host == old(nb.ips[i].host)
    ensures old(Placed(nb.State())) ==> Placed(nb.State())
    ensures nb.dryRun ==> nb.State() == old(nb.State())
  {
    if Aligned(nb.ips[i], w) != nb.ips[i] {
      var _ :- nb.UpdateIp(i, Aligned(nb.ips[i], w));
    }
    if nb.ips[i].lastSeen != Some(w.now) {
      var _ :- nb.UpdateIp(i, nb.ips[i].(lastSeen := Some(w.now)));
    }
    r := Ok(true);
  }

  /** common.py:80-135. NetBox may reject a new address, which is then skipped. */
  method UpsertIp(nb: NetBox, w: Wanted) returns (r: Outcome<Option<Id>>)
    modifies nb
    ensures Explained(r, old(nb.faults), nb.faults)
    ensures IpTouched(old(nb.State()), nb.State(), w)
    ensures r.Ok? && !nb.dryRun ==> IpSettled(old(nb.State()), nb.State(), w, r.value)
    ensures r.Ok? && r.value.Some? ==> r.value.value in nb.ips && nb.ips[r.value.value].host == w.host
    ensures r.Ok? && r.value.Some? && !nb.dryRun && old(IdsBelow(nb.State())) ==>
              OnRecord(old(nb.State()), nb.State(), w, r.value.value)
    ensures nb.State() == old(nb.State()).(ips := nb.ips, nextId := nb.nextId)
    ensures old(Placed(nb.State())) ==> Placed(nb.State())
    ensures nb.dryRun ==> nb.State() == old(nb.State())
  {
    hide OnRecord, Aligned, Upserted;
    ghost var s := nb.State();
    if exists i | i in nb.ips :: nb.ips[i].host == w.host {
      var i :| i in nb.ips && nb.ips[i].host == w.host;
      var _ :- Refresh(nb, i, w);
      r := Ok(Some(i));
    } else {
      r := nb.CreateIp(NewIp(w));
      if r.Raised? && r.refusal {
        r := Ok(None);
      }
    }
    if r.Ok? && r.value.Some? && !nb.dryRun && IdsBelow(s) {
      SettledIs(s, nb.State(), w, r.value.value);
    }
  }

  // ------------------------------------------------------------- interfaces

  predicate HasPort(s: Store, device: Id, name: string) {
    exists i | i in s.interfaces :: s.interfaces[i] == Interface(device, name)
  }

  /** The named interface of a device, created if need be (lldp.py:770-784, common.py:347-356). */
  method LocalInterface(nb: NetBox, device: Id, name: string) returns (r: Outcome<Option<Id>>)
    requires IdsBelow(nb.State())
    modifies nb
    ensures Explained(r, old(nb.faults), nb.faults)
    ensures r.Ok? && r.value.Some? ==>
              r.value.value in nb.interfaces && nb.interfaces[r.value.value] == Interface(device, name)
    ensures r.Ok? && r.value.None? ==> name == "" || nb.dryRun
    ensures name == "" ==> r == Ok(None) && nb.State() == old(nb.State())
    ensures || nb.State() == old(nb.State())
            || (&& !nb.dryRun && device in nb.devices && !old(HasPort(nb.State(), device, name))
                && (r.Ok? ==> r.value == Some(old(nb.nextId)))
                && nb.State() == AddedInterface(old(nb.State()), Interface(device, name)))
    ensures IdsBelow(nb.State())
    ensures r.Raised? ==> nb.State() == old(nb.State()) && (r.refusal ==> device !in nb.devices)
  {
    if name == "" {
      return Ok(None);
    }
    if exists i | i in nb.interfaces :: nb.interfaces[i] == Interface(device, name) {
      var i :| i in nb.interfaces && nb.interfaces[i] == Interface(device, name);
      return Ok(Some(i));
    }
    r := nb.CreateInterface(device, name);
  }
}
