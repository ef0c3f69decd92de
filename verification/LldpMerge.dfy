/**
 Folding two records of one switch into one (lldp.py:591-732).
 */
module LldpMerge {
  import opened Prelude
  import opened NetBoxStore
  import opened Common
  import opened LldpSafety

  const MGMT: string := "mgmt"

  // ---------------------------------------------------------- moving addresses

  /** The name an address' interface has, or "mgmt" if it has none. */
  function DestName(s: Store, ip: Id): string {
    if ip in s.ips && s.ips[ip].place.OnInterface? && s.ips[ip].place.iface in s.interfaces
       && s.interfaces[s.ips[ip].place.iface].name != ""
    then s.interfaces[s.ips[ip].place.iface].name
    else MGMT
  }

  /** The address sits on the keeper's interface of that name. */
  predicate MovedTo(s: Store, t: Store, keep: Id, ip: Id) {
    && ip in s.ips && ip in t.ips && t.ips[ip].place.OnInterface?
    && t.ips[ip] == s.ips[ip].(place := t.ips[ip].place)
    && t.ips[ip].place.iface in t.interfaces
    && t.interfaces[t.ips[ip].place.iface] == Interface(keep, DestName(s, ip))
  }

  /** Part of a merge: the addresses `moved` are on the keeper, nothing is deleted yet. */
  ghost predicate Moving(s: Store, t: Store, keep: Id, lose: Id, moved: set<Id>) {
    IdsBelow(t) && Around(s, t, keep, lose) && Arrived(s, t, keep, moved)
  }

  /** What a merge does to the other records before it deletes one. */
  ghost predicate Around(s: Store, t: Store, keep: Id, lose: Id) {
    && t.vms == s.vms && t.cables == s.cables && t.macs == s.macs && s.nextId <= t.nextId
    && t.devices.Keys == s.devices.Keys
    && (forall d | d in s.devices :: if d in {keep, lose} then SameDevice(s.devices[d], t.devices[d])
                                     else t.devices[d] == s.devices[d])
    && (forall i | i in s.interfaces :: i in t.interfaces && t.interfaces[i] == s.interfaces[i])
    && (forall i | i in t.interfaces && i !in s.interfaces ::
        t.interfaces[i].device == keep && keep in s.devices && s.nextId <= i)
  }

  ghost predicate Arrived(s: Store, t: Store, keep: Id, moved: set<Id>) {
    && t.ips.Keys == s.ips.Keys
    && (forall i | i in s.ips && i !in moved :: t.ips[i] == s.ips[i])
    && (forall i | i in moved :: MovedTo(s, t, keep, i))
  }

  lemma MovingIsSafe(s: Store, t: Store, keep: Id, lose: Id, moved: set<Id>)
    requires Linked(s) && Moving(s, t, keep, lose, moved)
    requires forall i | i in moved && i in s.ips :: MANAGED in s.ips[i].tags
    ensures Safe(s, t) && Linked(t)
  {
    assert forall i | i in s.interfaces :: i in t.interfaces;
    forall i | i in t.ips
      ensures t.ips[i].host == s.ips[i].host && t.ips[i].tags == s.ips[i].tags
      ensures MANAGED !in s.ips[i].tags ==> t.ips[i].place == s.ips[i].place
      ensures t.ips[i].place.OnInterface? ==> t.ips[i].place.iface in t.interfaces
    {
      if i in moved { assert MovedTo(s, t, keep, i); }
    }
  }

  /** Once all its addresses have moved, deleting the duplicate unassigns none. */
  lemma NothingUnassigned(s: Store, t: Store, keep: Id, lose: Id)
    requires Linked(s) && Moving(s, t, keep, lose, IpsOf(s, lose)) && keep != lose
    ensures WithoutDevice(t, lose).ips == t.ips
  {
    forall i | i in t.ips ensures !IsOn(t.ips[i].place, InterfacesOf(t, lose)) {
      if i in IpsOf(s, lose) { assert MovedTo(s, t, keep, i); }
    }
  }

  /** And it is safe. */
  lemma DeletingIsSafe(s: Store, t: Store, keep: Id, lose: Id)
    requires Linked(s) && Moving(s, t, keep, lose, IpsOf(s, lose)) && keep != lose
    requires forall i | i in IpsOf(s, lose) :: MANAGED in s.ips[i].tags
    requires lose in s.devices && MANAGED in s.devices[lose].tags
    ensures Safe(s, WithoutDevice(t, lose)) && Linked(WithoutDevice(t, lose))
  {
    MovingIsSafe(s, t, keep, lose, IpsOf(s, lose));
    WithoutDeviceKeepsLinked(t, lose);
    NothingUnassigned(s, t, keep, lose);
    hide Moving, IpsOf;
    DeletionSafe(s, t, lose);
  }

  lemma DeletionSafe(s: Store, t: Store, lose: Id)
    requires Linked(s) && Safe(s, t) && Linked(t) && WithoutDevice(t, lose).ips == t.ips
    requires lose in s.devices && MANAGED in s.devices[lose].tags
    ensures Safe(s, WithoutDevice(t, lose))
  {
    hide DevicesSafe, IpsSafe, InterfacesSafe, CablesSafe, MacsSafe, IdsSafe, Linked, WithoutDevice;
    CablesGoWithDevice(s, t, lose);
    MacsGoWithDevice(s, t, lose);
    DevicesGo(s, t, lose);
    IdsGo(s, t, lose);
  }

  lemma DevicesGo(s: Store, t: Store, lose: Id)
    requires DevicesSafe(s, t) && InterfacesSafe(s, t) && IpsSafe(s, t) && WithoutDevice(t, lose).ips == t.ips
    requires lose in s.devices && MANAGED in s.devices[lose].tags
    ensures var u := WithoutDevice(t, lose); DevicesSafe(s, u) && InterfacesSafe(s, u) && IpsSafe(s, u)
  {
  }

  lemma IdsGo(s: Store, t: Store, lose: Id)
    requires IdsSafe(s, t)
    ensures IdsSafe(s, WithoutDevice(t, lose))
  {
  }

  lemma MacsGoWithDevice(s: Store, t: Store, lose: Id)
    requires MacsSafe(s, t)
    ensures MacsSafe(s, WithoutDevice(t, lose))
  {
  }

  lemma CablesGoWithDevice(s: Store, t: Store, lose: Id)
    requires Linked(s) && CablesSafe(s, t) && InterfacesSafe(s, t)
    ensures CablesSafe(s, WithoutDevice(t, lose))
  {
    var u := WithoutDevice(t, lose);
    forall c | c in s.cables && c !in u.cables
      ensures exists e | e in s.cables[c].ends && e in s.interfaces :: s.interfaces[e].device !in u.devices
    {
      if c in t.cables {
        var e :| e in t.cables[c].ends && e in InterfacesOf(t, lose);
        assert e in s.interfaces;
      }
    }
  }

  /** Whose primary is what, on the way: the loser's designations are released, the keeper's kept or inherited. */
  ghost predicate Designated(s: Store, t: Store, keep: Id, lose: Id, moved: set<Id>) {
    && keep in s.devices && lose in s.devices && keep in t.devices && lose in t.devices
    && PrimariesOwned(t)
    && t.devices[lose] == s.devices[lose].(primary4 := None, primary6 := None)
    && t.devices[keep] == s.devices[keep].(primary4 := KeeperPrimary(s, keep, lose, moved))
  }

  function KeeperPrimary(s: Store, keep: Id, lose: Id, moved: set<Id>): Option<Id>
    requires keep in s.devices && lose in s.devices
  {
    var own, other := s.devices[keep].primary4, s.devices[lose].primary4;
    if own.Some? then own
    else if other.Some? && other.value in moved then other
    else None
  }

  /** The copy is up to date. */
  predicate Current(s: Store, h: Handle) {
    h.id in s.devices && s.devices[h.id] == h.device
  }

  lemma DesignatedGrows(s: Store, t: Store, u: Store, keep: Id, lose: Id, moved: set<Id>)
    requires Designated(s, t, keep, lose, moved) && u.devices == t.devices && u.ips == t.ips
    requires forall i | i in t.interfaces :: i in u.interfaces && u.interfaces[i] == t.interfaces[i]
    ensures Designated(s, u, keep, lose, moved)
  {
    forall d, i | d in u.devices && Designates(u.devices[d], i) ensures i in IpsOf(u, d) {
      assert i in IpsOf(t, d);
    }
  }

  lemma OnlyOwnerDesignates(t: Store, ip: Id, owner: Id)
    requires PrimariesOwned(t) && ip in IpsOf(t, owner)
    ensures forall d | d in t.devices && Designates(t.devices[d], ip) :: d == owner
  {
    forall d | d in t.devices && Designates(t.devices[d], ip) ensures d == owner {
      assert ip in IpsOf(t, d);
    }
  }

  /** The server will not refuse the move: nobody designates an address that still sits on the loser. */
  lemma NotDesignated(s: Store, t: Store, keep: Id, lose: Id, moved: set<Id>, ip: Id)
    requires Moving(s, t, keep, lose, moved) && Designated(s, t, keep, lose, moved)
    requires ip in IpsOf(s, lose) && ip !in moved
    ensures forall d | d in t.devices :: !Designates(t.devices[d], ip)
  {
    assert ip in IpsOf(t, lose);
    OnlyOwnerDesignates(t, ip, lose);
  }

  lemma StillFree(s: Store, t: Store, u: Store, keep: Id, lose: Id, moved: set<Id>, ip: Id, name: string)
    requires Designated(s, t, keep, lose, moved) && Moving(s, u, keep, lose, moved)
    requires IdsBelow(t) && (u == t || u == AddedInterface(t, Interface(keep, name)))
    requires ip in IpsOf(s, lose) && ip !in moved
    ensures forall d | d in u.devices :: !Designates(u.devices[d], ip)
  {
    DesignatedGrows(s, t, u, keep, lose, moved);
    NotDesignated(s, u, keep, lose, moved, ip);
  }

  // one request each keeps a merge on its way

  lemma UnmovedIp(s: Store, t: Store, keep: Id, lose: Id, moved: set<Id>, ip: Id)
    requires Linked(s) && Moving(s, t, keep, lose, moved) && ip in IpsOf(s, lose) && ip !in moved
    ensures IdsBelow(t) && ip in t.ips && DestName(t, ip) == DestName(s, ip) && DestName(s, ip) != ""
  {
  }

  lemma MovingIface(s: Store, t: Store, u: Store, keep: Id, lose: Id, moved: set<Id>, name: string)
    requires Linked(s) && Moving(s, t, keep, lose, moved)
    requires u == t || (keep in t.devices && u == AddedInterface(t, Interface(keep, name)))
    ensures Moving(s, u, keep, lose, moved)
  {
    forall i | i in moved ensures MovedTo(s, u, keep, i) {
      assert MovedTo(s, t, keep, i);
    }
  }

  lemma MovingAddress(s: Store, t: Store, u: Store, keep: Id, lose: Id, moved: set<Id>, ip: Id, dest: Id)
    requires Linked(s) && Moving(s, t, keep, lose, moved) && ip in IpsOf(s, lose) && ip !in moved
    requires dest in t.interfaces && t.interfaces[dest] == Interface(keep, DestName(s, ip))
    requires ip in t.ips && u == Reassigned(t, ip, dest)
    ensures Moving(s, u, keep, lose, moved + {ip})
  {
    OneArrives(s, t, u, keep, moved, ip, dest);
    hide Arrived, Linked, DestName, IpsOf;
  }

  lemma OneArrives(s: Store, t: Store, u: Store, keep: Id, moved: set<Id>, ip: Id, dest: Id)
    requires Arrived(s, t, keep, moved) && ip in s.ips && ip !in moved
    requires dest in t.interfaces && t.interfaces[dest] == Interface(keep, DestName(s, ip))
    requires ip in t.ips && u == Reassigned(t, ip, dest)
    ensures Arrived(s, u, keep, moved + {ip})
  {
    hide DestName;
    forall i | i in moved + {ip} ensures MovedTo(s, u, keep, i) {
      if i != ip { assert MovedTo(s, t, keep, i); }
    }
  }

  lemma MovingPrimary(s: Store, t: Store, u: Store, keep: Id, lose: Id, moved: set<Id>)
    requires Moving(s, t, keep, lose, moved)
    requires keep in t.devices && u.devices.Keys == t.devices.Keys && u == t.(devices := u.devices)
    requires SameDevice(t.devices[keep], u.devices[keep])
    requires forall d | d in t.devices && d != keep :: u.devices[d] == t.devices[d]
    ensures Moving(s, u, keep, lose, moved)
  {
    forall i | i in moved ensures MovedTo(s, u, keep, i) {
      assert MovedTo(s, t, keep, i);
    }
  }

  lemma OnKeeper(s: Store, t: Store, keep: Id, lose: Id, moved: set<Id>, ip: Id)
    requires Moving(s, t, keep, lose, moved) && ip in moved
    ensures ip in IpsOf(t, keep)
  {
    assert MovedTo(s, t, keep, ip);
  }

  /** What one reassigned address leaves alone. */
  ghost predicate Shifted(t: Store, u: Store, ip: Id) {
    && u.devices == t.devices
    && (forall i | i in t.ips && i != ip :: i in u.ips && u.ips[i] == t.ips[i])
    && (forall i | i in t.interfaces :: i in u.interfaces && u.interfaces[i] == t.interfaces[i])
  }

  lemma ShiftedBy(s: Store, t: Store, keep: Id, ip: Id, name: string, dest: Id)
    requires IdsBelow(s) && (t == s || t == AddedInterface(s, Interface(keep, name))) && ip in t.ips
    ensures Shifted(s, Reassigned(t, ip, dest), ip)
  {
  }

  lemma DesignatedMoved(s: Store, t: Store, v: Store, u: Store, keep: Id, lose: Id, moved: set<Id>, ip: Id)
    requires Moving(s, t, keep, lose, moved) && Designated(s, t, keep, lose, moved) && keep != lose
    requires ip in IpsOf(s, lose) && ip !in moved
    requires Moving(s, u, keep, lose, moved + {ip})
    requires Shifted(t, v, ip) && u == v.(devices := u.devices) && keep in t.devices
    requires u.devices == if s.devices[lose].primary4 == Some(ip) && s.devices[keep].primary4.None?
                          then t.devices[keep := t.devices[keep].(primary4 := Some(ip))] else t.devices
    ensures Designated(s, u, keep, lose, moved + {ip})
  {
    hide Moving;
    NotDesignated(s, t, keep, lose, moved, ip);
    OnKeeper(s, u, keep, lose, moved + {ip}, ip);
    forall d, i | d in u.devices && Designates(u.devices[d], i) ensures i in IpsOf(u, d) {
      if i != ip {
        assert Designates(t.devices[d], i);
        assert i in IpsOf(t, d);
      }
    }
  }

  /** The two copies the merge works with are up to date, and the merge so far is in order. */
  ghost predicate Tidy(s: Store, t: Store, keep: Handle, lose: Handle, moved: set<Id>) {
    Current(s, keep) && Current(s, lose) && Designated(s, t, keep.id, lose.id, moved)
  }

  lemma KeeperThere(s: Store, t: Store, keep: Id, lose: Id, moved: set<Id>)
    ensures Designated(s, t, keep, lose, moved) ==> keep in t.devices
  {
  }

  /** lldp.py:693-707: one address goes to the keeper's interface of the same name. */
  method Reassign(nb: NetBox, keep: Id, lose: Id, ip: Id, ghost s: Store, ghost moved: set<Id>)
    returns (r: Outcome<bool>)
    requires Linked(s) && !nb.dryRun
    requires Moving(s, nb.State(), keep, lose, moved)
    requires ip in IpsOf(s, lose) && ip !in moved
    modifies nb
    ensures Explained(r, old(nb.faults), nb.faults)
    ensures r.Ok? ==> Moving(s, nb.State(), keep, lose, moved + {ip})
    ensures r.Raised? ==> Moving(s, nb.State(), keep, lose, moved)
    ensures r.Ok? ==> Shifted(old(nb.State()), nb.State(), ip)
    ensures old(Designated(s, nb.State(), keep, lose, moved)) ==> !(r.Raised? && r.refusal)
  {
    hide Moving, Designated, IpsOf, Linked, IdsBelow, Designates, Shifted, DestName, Reassigned;
    ghost var before := nb.State();
    ghost var ordered := Designated(s, before, keep, lose, moved);
    UnmovedIp(s, before, keep, lose, moved, ip);
    KeeperThere(s, before, keep, lose, moved);
    var name := DestName(nb.State(), ip);
    var dest :- LocalInterface(nb, keep, name);
    ghost var t := nb.State();
    MovingIface(s, before, t, keep, lose, moved, name);
    if ordered {
      StillFree(s, before, t, keep, lose, moved, ip, name);
    }
    r := nb.AssignIp(ip, dest.value);
    if r.Ok? {
      MovingAddress(s, t, nb.State(), keep, lose, moved, ip, dest.value);
      ShiftedBy(before, t, keep, ip, name, dest.value);
    }
  }

  /** What becomes of the keeper once `ip` has arrived. */
  function Inherited(t: Store, keep: Handle, lose: Handle, ip: Id): Store {
    if Some(ip) == lose.device.primary4 && keep.device.primary4.None? && keep.id in t.devices
    then WithPrimaries(t, keep.id, Some(ip), t.devices[keep.id].primary6) else t
  }

  /** lldp.py:708-709: a keeper without a primary address inherits the loser's. */
  method Inherit(nb: NetBox, keep: Handle, lose: Handle, ip: Id) returns (r: Outcome<bool>)
    requires !nb.dryRun && ip in IpsOf(nb.State(), keep.id)
    modifies nb
    ensures Explained(r, old(nb.faults), nb.faults)
    ensures r.Ok? ==> nb.State() == Inherited(old(nb.State()), keep, lose, ip)
    ensures r.Raised? ==> nb.State() == old(nb.State()) && (r.refusal ==> keep.id !in nb.devices)
  {
    r := Ok(true);
    if Some(ip) == lose.device.primary4 && keep.device.primary4.None? {
      r := nb.SetPrimary4(keep.id, ip);
    }
  }

  /** lldp.py:693-709, one address. */
  method MoveIp(nb: NetBox, keep: Handle, lose: Handle, ip: Id, ghost s: Store, ghost moved: set<Id>)
    returns (r: Outcome<bool>)
    requires Linked(s) && keep.id != lose.id && !nb.dryRun
    requires Moving(s, nb.State(), keep.id, lose.id, moved)
    requires ip in IpsOf(s, lose.id) && ip !in moved
    modifies nb
    ensures Explained(r, old(nb.faults), nb.faults)
    ensures r.Ok? ==> Moving(s, nb.State(), keep.id, lose.id, moved + {ip})
    ensures r.Raised? ==>
              Moving(s, nb.State(), keep.id, lose.id, moved) || Moving(s, nb.State(), keep.id, lose.id, moved + {ip})
    ensures old(Tidy(s, nb.State(), keep, lose, moved)) ==>
              && !(r.Raised? && r.refusal)
              && (r.Ok? ==> Tidy(s, nb.State(), keep, lose, moved + {ip}))
  {
    ghost var before := nb.State();
    ghost var tidy := Tidy(s, before, keep, lose, moved);
    if tidy {
      TidyHas(s, before, keep, lose, moved);
    }
    hide Moving, Tidy, IpsOf, Linked, Shifted, Designated, Inherited;
    r := Reassign(nb, keep.id, lose.id, ip, s, moved);
    if r.Ok? {
      ghost var t := nb.State();
      OnKeeper(s, t, keep.id, lose.id, moved + {ip}, ip);
      r := Inherit(nb, keep, lose, ip);
      MovingInherited(s, t, keep, lose, moved + {ip}, ip);
      if tidy && r.Ok? {
        TidyMoved(s, before, t, keep, lose, moved, ip);
      }
    }
  }

  lemma MovingInherited(s: Store, t: Store, keep: Handle, lose: Handle, moved: set<Id>, ip: Id)
    requires Moving(s, t, keep.id, lose.id, moved)
    ensures Moving(s, Inherited(t, keep, lose, ip), keep.id, lose.id, moved)
    ensures forall d | d in s.devices :: d in t.devices
  {
    if Inherited(t, keep, lose, ip) != t {
      MovingPrimary(s, t, Inherited(t, keep, lose, ip), keep.id, lose.id, moved);
    }
  }

  lemma TidyHas(s: Store, t: Store, keep: Handle, lose: Handle, moved: set<Id>)
    requires Tidy(s, t, keep, lose, moved)
    ensures keep.id in s.devices && keep.id in t.devices && Designated(s, t, keep.id, lose.id, moved)
  {
  }

  lemma ShiftedHas(t: Store, u: Store, ip: Id)
    requires Shifted(t, u, ip)
    ensures u.devices == t.devices
  {
  }

  lemma TidyMoved(s: Store, before: Store, t: Store, keep: Handle, lose: Handle, moved: set<Id>, ip: Id)
    requires Tidy(s, before, keep, lose, moved) && Moving(s, before, keep.id, lose.id, moved) && keep.id != lose.id
    requires ip in IpsOf(s, lose.id) && ip !in moved
    requires Shifted(before, t, ip) && Moving(s, t, keep.id, lose.id, moved + {ip})
    ensures Tidy(s, Inherited(t, keep, lose, ip), keep, lose, moved + {ip})
  {
    MovingInherited(s, t, keep, lose, moved + {ip}, ip);
    ShiftedHas(before, t, ip);
    hide Moving, IpsOf, Designated, Shifted;
    DesignatedMoved(s, before, t, Inherited(t, keep, lose, ip), keep.id, lose.id, moved, ip);
  }

  // ------------------------------------------------------------ the whole merge

  datatype Direction = KeepPolled | KeepOther | NoMerge

  /** lldp.py:647-664: a human-made record always wins, and a seed beats other records of ours. */
  function Choose(polled: Tags, other: Tags): Direction {
    if MANAGED in polled && MANAGED !in other then KeepOther
    else if MANAGED in other && MANAGED !in polled then KeepPolled
    else if MANAGED in polled then (if LLDP_SOURCE in other then KeepOther else KeepPolled)
    else NoMerge
  }

  /** The other record wins over one of ours if it is human-made, or tagged as a seed. */
  ghost predicate OtherWins(polled: Tags, other: Tags) {
    MANAGED in polled && (MANAGED !in other || LLDP_SOURCE in other)
  }

  ghost predicate NeitherOurs(polled: Tags, other: Tags) {
    MANAGED !in polled && MANAGED !in other
  }

  lemma ChoiceIs(polled: Tags, other: Tags)
    ensures Choose(polled, other) == KeepOther <==> OtherWins(polled, other)
    ensures Choose(polled, other) == NoMerge <==> NeitherOurs(polled, other)
    ensures Choose(polled, other) == KeepOther ==> MANAGED in polled
    ensures Choose(polled, other) == KeepPolled ==> MANAGED in other
  {
  }

  /** No address record on the device is somebody else's. */
  ghost predicate Spotless(s: Store, device: Id) {
    forall i, e | i in s.ips && s.ips[i].place == OnInterface(e) && e in s.interfaces
                  && s.interfaces[e].device == device :: MANAGED in s.ips[i].tags
  }

  lemma AllManagedIs(s: Store, lose: Id)
    ensures AllManaged(s, lose) <==> Spotless(s, lose)
  {
    if Spotless(s, lose) {
      forall i | i in IpsOf(s, lose) ensures MANAGED in s.ips[i].tags {
        assert s.ips[i].place == OnInterface(s.ips[i].place.iface);
      }
    }
  }

  /** One record went and the other stays, with the addresses of both: by interface name, "mgmt" if there is none. */
  ghost predicate Absorbed(s: Store, t: Store, keep: Id, lose: Id) {
    && keep != lose && lose in s.devices && t.devices.Keys == s.devices.Keys - {lose}
    && forall i, e | i in s.ips && s.ips[i].place == OnInterface(e) && e in s.interfaces
                     && s.interfaces[e].device == lose ::
         && i in t.ips && t.ips[i].place.OnInterface? && t.ips[i].place.iface in t.interfaces
         && t.interfaces[t.ips[i].place.iface]
            == Interface(keep, if s.interfaces[e].name == "" then "mgmt" else s.interfaces[e].name)
  }

  /**
   Which record goes, by the tags: none if neither is ours, ours if one is human-made; of
   two of ours the one that was polled goes if the other is a seed, else the other. None
   goes that holds somebody else's address.
   */
  ghost predicate RightWay(s: Store, t: Store, polled: Handle, other: Handle, dryRun: bool, r: Outcome<Handle>) {
    var ours := "managed-netbox-monitor" in polled.device.tags;
    var theirs := "managed-netbox-monitor" in other.device.tags;
    var seed := "lldp-source" in other.device.tags;
    && (dryRun || (!ours && !theirs) ==> t == s && r == Ok(polled))
    && (!dryRun && r.Ok? ==>
          && (ours && !theirs ==> GoesIfSpotless(s, t, other.id, polled.id))
          && (theirs && !ours ==> GoesIfSpotless(s, t, polled.id, other.id))
          && (ours && theirs && seed ==> GoesIfSpotless(s, t, other.id, polled.id))
          && (ours && theirs && !seed ==> GoesIfSpotless(s, t, polled.id, other.id)))
  }

  ghost predicate GoesIfSpotless(s: Store, t: Store, keep: Id, lose: Id) {
    if Spotless(s, lose) then Absorbed(s, t, keep, lose) else t == s
  }

  lemma FoldedAbsorbs(s: Store, t: Store, keep: Id, lose: Id)
    requires keep != lose && Folded(s, t, keep, lose)
    ensures Absorbed(s, t, keep, lose)
  {
    forall i, e | i in s.ips && s.ips[i].place == OnInterface(e) && e in s.interfaces && s.interfaces[e].device == lose
      ensures MovedTo(s, t, keep, i)
    {
      assert i in IpsOf(s, lose);
    }
  }

  /** A merge goes the right way. */
  lemma MergedRight(s: Store, t: Store, polled: Handle, other: Handle, dryRun: bool, r: Outcome<Handle>)
    requires polled.id != other.id
    requires var otherWins := OtherWins(polled.device.tags, other.device.tags);
             var (keep, lose) := if otherWins then (other.id, polled.id) else (polled.id, other.id);
             if NeitherOurs(polled.device.tags, other.device.tags) || !AllManaged(s, lose) || dryRun
             then t == s && r == Ok(polled)
             else r.Ok? ==> Folded(s, t, keep, lose)
    ensures RightWay(s, t, polled, other, dryRun, r)
  {
    hide Folded, AllManaged, Spotless, Absorbed;
    AllManagedIs(s, polled.id);
    AllManagedIs(s, other.id);
    if Folded(s, t, other.id, polled.id) { FoldedAbsorbs(s, t, other.id, polled.id); }
    if Folded(s, t, polled.id, other.id) { FoldedAbsorbs(s, t, polled.id, other.id); }
  }

  /** All addresses of the record that would go are ours (lldp.py:666-675). */
  predicate AllManaged(s: Store, lose: Id) {
    forall i | i in IpsOf(s, lose) :: MANAGED in s.ips[i].tags
  }

  /**
   The inventory after `lose` was folded into `keep`: one managed device fewer, every
   address still there, the loser's on the keeper's interfaces of the same name.
   */
  ghost predicate Folded(s: Store, t: Store, keep: Id, lose: Id) {
    && lose in s.devices && MANAGED in s.devices[lose].tags
    && t.devices.Keys == s.devices.Keys - {lose}
    && (forall d | d in t.devices :: if d == keep then SameDevice(s.devices[d], t.devices[d])
                                     else t.devices[d] == s.devices[d])
    && t.ips.Keys == s.ips.Keys
    && (forall i | i in s.ips :: if i in IpsOf(s, lose) then MovedTo(s, t, keep, i) else t.ips[i] == s.ips[i])
    && (forall i | i in s.interfaces ::
          if s.interfaces[i].device == lose then i !in t.interfaces
          else i in t.interfaces && t.interfaces[i] == s.interfaces[i])
    && (forall i | i in t.interfaces && i !in s.interfaces :: t.interfaces[i].device == keep)
    && (forall c | c in s.cables ::
          if exists e | e in s.cables[c].ends :: e in InterfacesOf(s, lose) then c !in t.cables
          else c in t.cables && t.cables[c] == s.cables[c])
    && t.cables.Keys <= s.cables.Keys
    && t.vms == map v | v in s.vms :: Detached(s.vms[v], {lose})
  }

  /** The keeper keeps its primary IPv4 address or inherits the loser's; nobody else's changes. */
  ghost predicate PrimaryKept(s: Store, t: Store, keep: Id, lose: Id) {
    && keep in s.devices && lose in s.devices && keep in t.devices
    && t.devices[keep] == s.devices[keep].(
         primary4 := if s.devices[keep].primary4.Some? then s.devices[keep].primary4 else s.devices[lose].primary4)
    && PrimariesOwned(t)
  }

  lemma FoldedIps(s: Store, u: Store, keep: Id, lose: Id)
    requires Arrived(s, u, keep, IpsOf(s, lose)) && WithoutDevice(u, lose).ips == u.ips && keep != lose
    ensures forall i | i in s.ips ::
              if i in IpsOf(s, lose) then MovedTo(s, WithoutDevice(u, lose), keep, i) else u.ips[i] == s.ips[i]
  {
    hide DestName;
    forall i | i in IpsOf(s, lose) ensures MovedTo(s, WithoutDevice(u, lose), keep, i) {
      assert MovedTo(s, u, keep, i);
    }
  }

  lemma MovingFolds(s: Store, u: Store, keep: Id, lose: Id)
    requires Linked(s) && Moving(s, u, keep, lose, IpsOf(s, lose)) && keep != lose
    requires lose in s.devices && MANAGED in s.devices[lose].tags
    ensures Folded(s, WithoutDevice(u, lose), keep, lose)
  {
    var t := WithoutDevice(u, lose);
    NothingUnassigned(s, u, keep, lose);
    FoldedIps(s, u, keep, lose);
    FoldedCables(s, u, keep, lose);
    hide Arrived, MovedTo, DestName, IpsOf;
  }

  lemma FoldedCables(s: Store, u: Store, keep: Id, lose: Id)
    requires Linked(s) && Around(s, u, keep, lose) && keep != lose
    ensures var t := WithoutDevice(u, lose);
            && t.cables.Keys <= s.cables.Keys
            && forall c | c in s.cables ::
                 if exists e | e in s.cables[c].ends :: e in InterfacesOf(s, lose) then c !in t.cables
                 else c in t.cables && t.cables[c] == s.cables[c]
  {
    var t := WithoutDevice(u, lose);
    forall i | i in s.interfaces ensures i in InterfacesOf(u, lose) <==> i in InterfacesOf(s, lose) {
    }
    forall c | c in s.cables
      ensures c in t.cables <==> !exists e | e in s.cables[c].ends :: e in InterfacesOf(s, lose)
    {
      assert forall e | e in s.cables[c].ends :: e in s.interfaces;
    }
  }

  lemma TidyFolds(s: Store, u: Store, keep: Handle, lose: Handle)
    requires PrimariesOwned(s) && Tidy(s, u, keep, lose, IpsOf(s, lose.id)) && keep.id != lose.id
    ensures PrimaryKept(s, WithoutDevice(u, lose.id), keep.id, lose.id)
  {
    WithoutDeviceKeepsPrimaries(u, lose.id);
    var p := lose.device.primary4;
    if p.Some? {
      assert Designates(s.devices[lose.id], p.value);
    }
  }

  /** Nothing has moved yet; the loser's designations may have been released. */
  lemma MovingStarts(s: Store, lose: Id, keep: Id)
    requires Linked(s)
    ensures Moving(s, s, keep, lose, {})
    ensures lose in s.devices ==> Moving(s, WithPrimaries(s, lose, None, None), keep, lose, {})
  {
    AroundStarts(s, lose, keep);
    hide Around;
  }

  lemma AroundStarts(s: Store, lose: Id, keep: Id)
    ensures Around(s, s, keep, lose)
    ensures lose in s.devices ==> Around(s, WithPrimaries(s, lose, None, None), keep, lose)
  {
  }

  lemma TidyStarts(s: Store, keep: Handle, lose: Handle)
    requires Linked(s) && PrimariesOwned(s) && Current(s, keep) && Current(s, lose) && keep.id != lose.id
    ensures Tidy(s, WithPrimaries(s, lose.id, None, None), keep, lose, {})
    ensures lose.device.primary4.None? && lose.device.primary6.None? ==> WithPrimaries(s, lose.id, None, None) == s
  {
    var t := WithPrimaries(s, lose.id, None, None);
    forall d, i | d in t.devices && Designates(t.devices[d], i) ensures i in IpsOf(t, d) {
      assert Designates(s.devices[d], i);
      assert i in IpsOf(s, d);
    }
  }

  /** lldp.py:693-709: the addresses, one by one. */
  method MoveEach(nb: NetBox, keep: Handle, lose: Handle, all: set<Id>, ghost s: Store) returns (r: Outcome<bool>)
    requires Linked(s) && keep.id != lose.id && !nb.dryRun && all == IpsOf(s, lose.id)
    requires Moving(s, nb.State(), keep.id, lose.id, {})
    modifies nb
    ensures Explained(r, old(nb.faults), nb.faults)
    ensures r.Ok? ==> Moving(s, nb.State(), keep.id, lose.id, all)
    ensures MovingPart(s, nb.State(), keep.id, lose.id)
    ensures old(Tidy(s, nb.State(), keep, lose, {})) ==>
              !(r.Raised? && r.refusal) && (r.Ok? ==> Tidy(s, nb.State(), keep, lose, all))
  {
    hide Moving, Tidy, Linked, IpsOf, MovingPart;
    r := Ok(true);
    var todo, moved := all, {};
    MovingSome(s, nb.State(), keep.id, lose.id, moved);
    while todo != {}
      invariant todo + moved == all && todo !! moved
      invariant r.Ok? && Moving(s, nb.State(), keep.id, lose.id, moved)
      invariant MovingPart(s, nb.State(), keep.id, lose.id) && old(nb.faults) <= nb.faults
      invariant old(Tidy(s, nb.State(), keep, lose, {})) ==> Tidy(s, nb.State(), keep, lose, moved)
      decreases |todo|
    {
      var ip :| ip in todo;
      assert ip in all && ip !in moved;
      r := MoveIp(nb, keep, lose, ip, s, moved);
      MovingEither(s, nb.State(), keep.id, lose.id, moved, ip);
      if r.Raised? {
        return;
      }
      todo, moved := todo - {ip}, moved + {ip};
    }
    assert moved == all;
  }

  /** Some of the loser's addresses have moved. */
  ghost predicate MovingPart(s: Store, t: Store, keep: Id, lose: Id) {
    exists moved: set<Id> :: moved <= IpsOf(s, lose) && Moving(s, t, keep, lose, moved)
  }

  lemma MovingSome(s: Store, t: Store, keep: Id, lose: Id, moved: set<Id>)
    requires moved <= IpsOf(s, lose) && Moving(s, t, keep, lose, moved)
    ensures MovingPart(s, t, keep, lose)
  {
  }

  lemma MovingEither(s: Store, t: Store, keep: Id, lose: Id, moved: set<Id>, ip: Id)
    requires moved + {ip} <= IpsOf(s, lose)
    requires Moving(s, t, keep, lose, moved) || Moving(s, t, keep, lose, moved + {ip})
    ensures MovingPart(s, t, keep, lose)
  {
  }

  /** lldp.py:683-709: release the loser's designations, then move its addresses. */
  method MoveAll(nb: NetBox, keep: Handle, lose: Handle) returns (r: Outcome<bool>)
    requires Linked(nb.State()) && keep.id != lose.id && !nb.dryRun
    modifies nb
    ensures Explained(r, old(nb.faults), nb.faults)
    ensures r.Ok? ==> Moving(old(nb.State()), nb.State(), keep.id, lose.id, old(IpsOf(nb.State(), lose.id)))
    ensures MovingPart(old(nb.State()), nb.State(), keep.id, lose.id)
    ensures old(PrimariesOwned(nb.State()) && Current(nb.State(), keep) && Current(nb.State(), lose)) ==>
              && !(r.Raised? && r.refusal)
              && (r.Ok? ==> Tidy(old(nb.State()), nb.State(), keep, lose, old(IpsOf(nb.State(), lose.id))))
  {
    ghost var s := nb.State();
    var all := IpsOf(nb.State(), lose.id);
    MovingStarts(s, lose.id, keep.id);
    MovingSome(s, s, keep.id, lose.id, {});
    if PrimariesOwned(s) && Current(s, keep) && Current(s, lose) {
      TidyStarts(s, keep, lose);
    }
    hide Moving, Tidy, Linked, PrimariesOwned, IpsOf, MovingPart, WithPrimaries;
    if lose.device.primary4.Some? || lose.device.primary6.Some? {
      r := nb.ReleasePrimaries(lose.id);
      if r.Raised? {
        return;
      }
    }
    r := MoveEach(nb, keep, lose, all, s);
  }

  /** lldp.py:637-715. */
  method MergeDuplicate(nb: NetBox, polled: Handle, other: Handle) returns (r: Outcome<Handle>)
    requires Linked(nb.State()) && polled.id != other.id
    requires HandleOk(nb.State(), polled) && HandleOk(nb.State(), other)
    modifies nb
    ensures Explained(r, old(nb.faults), nb.faults)
    ensures Safe(old(nb.State()), nb.State()) && Linked(nb.State())
    ensures nb.dryRun ==> nb.State() == old(nb.State()) && r == Ok(polled)
    ensures nb.cables.Keys <= old(nb.cables.Keys)
    ensures r.Ok? ==> r.value.id in {polled.id, other.id} && HandleOk(nb.State(), r.value)
    ensures RightWay(old(nb.State()), nb.State(), polled, other, nb.dryRun, r)
    ensures var otherWins := OtherWins(polled.device.tags, other.device.tags);
            var (keep, lose) := if otherWins then (other, polled) else (polled, other);
            var merges := !NeitherOurs(polled.device.tags, other.device.tags)
                          && old(AllManaged(nb.State(), lose.id)) && !nb.dryRun;
            && (!merges ==> nb.State() == old(nb.State()) && r == Ok(polled))
            && (old(nb.devices.Keys) - nb.devices.Keys <= {lose.id})
            && (merges && r.Ok? ==> Folded(old(nb.State()), nb.State(), keep.id, lose.id) && r.value.id == keep.id)
            && (merges && old(PrimariesOwned(nb.State()) && Current(nb.State(), keep) && Current(nb.State(), lose)) ==>
                  && (r.Raised? && r.refusal ==> nb.protective && old(Pinned(nb.State(), lose.id)))
                  && (r.Ok? ==> PrimaryKept(old(nb.State()), nb.State(), keep.id, lose.id)))
  {
    hide Safe, Linked, Moving, MovingPart, Folded, PrimaryKept, Tidy, IdsBelow;
    hide RightWay, OtherWins, NeitherOurs, Choose;
    ghost var s := nb.State();
    LinkedBelow(s);
    SafeSelf(s);
    ChoiceIs(polled.device.tags, other.device.tags);
    var dir := Choose(polled.device.tags, other.device.tags);
    if dir == NoMerge {
      MergedRight(s, s, polled, other, nb.dryRun, Ok(polled));
      return Ok(polled);
    }
    var keep, lose := polled, other;
    if dir == KeepOther {
      keep, lose := other, polled;
    }
    if !AllManaged(nb.State(), lose.id) || nb.dryRun {
      // in dry-run no request below has an effect, and the delete answers False
      MergedRight(s, s, polled, other, nb.dryRun, Ok(polled));
      return Ok(polled);
    }
    var moved := MoveAll(nb, keep, lose);
    ghost var t := nb.State();
    MovedSafely(s, t, keep, lose);
    if moved.Raised? {
      MergedRight(s, t, polled, other, nb.dryRun, Raised(moved.refusal));
      return Raised(moved.refusal);
    }
    var deleted := nb.DeleteIfManaged(lose.id, lose.device.tags);
    if deleted.Raised? {
      MergedRight(s, t, polled, other, nb.dryRun, Raised(deleted.refusal));
      return Raised(deleted.refusal);
    }
    DeletingIsSafe(s, t, keep.id, lose.id);
    MovingFolds(s, t, keep.id, lose.id);
    if PrimariesOwned(s) && Current(s, keep) && Current(s, lose) {
      TidyFolds(s, t, keep, lose);
    }
    HandleStaysOk(s, nb.State(), keep);
    r := Ok(if keep.id in nb.devices then Handle(keep.id, nb.devices[keep.id]) else keep);
    MergedRight(s, nb.State(), polled, other, nb.dryRun, r);
  }

  lemma MovedSafely(s: Store, t: Store, keep: Handle, lose: Handle)
    requires Linked(s) && AllManaged(s, lose.id)
    requires MovingPart(s, t, keep.id, lose.id)
    ensures Safe(s, t) && Linked(t) && t.devices.Keys == s.devices.Keys && t.nextId >= s.nextId
    ensures t.cables == s.cables && t.vms == s.vms
  {
    var moved: set<Id> :| moved <= IpsOf(s, lose.id) && Moving(s, t, keep.id, lose.id, moved);
    MovingIsSafe(s, t, keep.id, lose.id, moved);
  }
}
