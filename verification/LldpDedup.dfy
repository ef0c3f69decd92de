/**
 Recognising a switch by its own MAC addresses (lldp.py:80-86, 591-635, 717-732).
 */
module LldpDedup {
  import opened Prelude
  import opened NetBoxStore
  import opened Common
  import opened LldpNeighbors
  import opened LldpSafety
  import opened LldpMerge

  const NON_IDENTITY: set<string> := {"00:00:00:00:00:00", "FF:FF:FF:FF:FF:FF"}

  /** Placeholders are nobody's identity. */
  predicate IsIdentityMac(mac: string) {
    mac != "" && mac !in NON_IDENTITY
  }

  function MacsOf(own: seq<OwnMac>): set<string>
    decreases |own|
  {
    if own == [] then {} else MacsOf(own[..|own| - 1]) + {own[|own| - 1].mac}
  }

  lemma {:induction false} MacsOfHas(own: seq<OwnMac>, k: nat)
    requires k < |own|
    ensures own[k].mac in MacsOf(own)
    decreases |own|
  {
    if k < |own| - 1 {
      MacsOfHas(own[..|own| - 1], k);
    }
  }

  lemma MacsOfAppend(own: seq<OwnMac>, o: OwnMac)
    ensures MacsOf(own + [o]) == MacsOf(own) + {o.mac}
  {
    assert (own + [o])[..|own|] == own;
  }

  /** lldp.py:604-609: the chassis MAC first, then the first sixteen local ones. */
  method Identity(chassis: Option<string>, local: seq<OwnMac>) returns (own: seq<OwnMac>)
    ensures MacsOf(own) == IdentityMacs(chassis, local)
  {
    own := [];
    if chassis.Some? && IsIdentityMac(chassis.value) {
      own := [OwnMac(chassis.value, None)];
      MacsOfAppend([], own[0]);
      assert [] + [own[0]] == own;
    }
    var first := FirstSixteen(local);
    ghost var seed := MacsOf(own);
    for k := 0 to |first|
      invariant MacsOf(own) == seed + Real(MacsOf(first[..k]))
    {
      RealRound(own, first, seed, k);
      if IsIdentityMac(first[k].mac) && first[k].mac !in MacsOf(own) {
        own := own + [first[k]];
      }
    }
    assert first[..|first|] == first;
  }

  lemma RealRound(own: seq<OwnMac>, first: seq<OwnMac>, seed: set<string>, k: nat)
    requires k < |first| && MacsOf(own) == seed + Real(MacsOf(first[..k]))
    ensures MacsOf(if IsIdentityMac(first[k].mac) && first[k].mac !in MacsOf(own) then own + [first[k]] else own)
         == seed + Real(MacsOf(first[..k + 1]))
  {
    hide IsIdentityMac, MacsOf;
    MacsOfAppend(first[..k], first[k]);
    MacsOfAppend(own, first[k]);
    assert first[..k + 1] == first[..k] + [first[k]];
    assert Real(MacsOf(first[..k + 1]))
        == Real(MacsOf(first[..k])) + (if IsIdentityMac(first[k].mac) then {first[k].mac} else {});
  }

  function FirstSixteen(local: seq<OwnMac>): seq<OwnMac> {
    if |local| > 16 then local[..16] else local
  }

  function Real(macs: set<string>): set<string> {
    set m | m in macs && IsIdentityMac(m)
  }

  function IdentityMacs(chassis: Option<string>, local: seq<OwnMac>): set<string> {
    (if chassis.Some? && IsIdentityMac(chassis.value) then {chassis.value} else {})
    + Real(MacsOf(FirstSixteen(local)))
  }

  lemma {:induction false} MacsAre(own: seq<OwnMac>, mac: string)
    ensures mac in MacsOf(own) <==> exists i | 0 <= i < |own| :: own[i].mac == mac
    decreases |own|
  {
    if own != [] {
      var before := own[..|own| - 1];
      MacsAre(before, mac);
      if own[|own| - 1].mac != mac {
        forall i | 0 <= i < |own| && own[i].mac == mac ensures exists j | 0 <= j < |before| :: before[j].mac == mac {
          assert before[i].mac == mac;
        }
      }
      if j :| 0 <= j < |before| && before[j].mac == mac {
        assert own[j].mac == mac;
      }
    }
  }

  /** A switch goes by its chassis MAC and the first sixteen MACs of its own, empty text and placeholders apart. */
  lemma IdentityIs(chassis: Option<string>, local: seq<OwnMac>, mac: string)
    ensures mac in IdentityMacs(chassis, local) <==>
            && mac != "" && mac != "00:00:00:00:00:00" && mac != "FF:FF:FF:FF:FF:FF"
            && (chassis == Some(mac) || exists i | 0 <= i < |local| && i < 16 :: local[i].mac == mac)
  {
    hide MacsOf;
    MacsAre(FirstSixteen(local), mac);
    if i :| 0 <= i < |local| && i < 16 && local[i].mac == mac {
      assert FirstSixteen(local)[i].mac == mac;
    }
    if i :| 0 <= i < |FirstSixteen(local)| && FirstSixteen(local)[i].mac == mac {
      assert local[i].mac == mac;
    }
  }

  /** What the crawl makes of a MAC lookup: a device, never a guest. */
  method FindDeviceByMac(nb: NetBox, mac: string) returns (device: Option<Id>)
    modifies nb`faults
    ensures old(nb.faults) <= nb.faults
    ensures device.Some? ==> Carries(nb.State(), device.value, mac) && !OnSomeVm(nb.State(), mac)
    ensures device.None? && nb.faults == old(nb.faults) ==>
              OnSomeVm(nb.State(), mac) || forall o :: !Carries(nb.State(), o, mac)
  {
    var found := FindInterfaceByMac(nb, mac);
    device := if found.Some? && found.value.OnDevice? then Some(found.value.device) else None;
  }

  /** Devices go only by a merge with a device that carries one of the given MACs. */
  ghost predicate MergedBy(s: Store, t: Store, device: Id, macs: set<string>) {
    forall d | d in s.devices && d !in t.devices ::
      exists o, m | o in s.devices && m in macs :: o != device && d in {o, device} && Carries(s, o, m)
  }

  /** No other record goes by any of the MACs: each is unknown, a guest's, or the device's own. */
  ghost predicate NoneFound(s: Store, device: Id, macs: set<string>) {
    forall m | m in macs :: OnSomeVm(s, m) || (forall o :: !Carries(s, o, m)) || Carries(s, device, m)
  }

  /** The device and the other record of it were folded into one, or rightly left as they are. */
  ghost predicate FoldedWith(s: Store, t: Store, device: Handle, o: Id, survivor: Id) {
    && o in s.devices && o != device.id
    && var other := Handle(o, s.devices[o]);
       var otherWins := OtherWins(device.device.tags, other.device.tags);
       var (keep, lose) := if otherWins then (other, device) else (device, other);
       if NeitherOurs(device.device.tags, other.device.tags) || !Spotless(s, lose.id) then
         t == s && survivor == device.id
       else Folded(s, t, keep.id, lose.id) && PrimaryKept(s, t, keep.id, lose.id) && survivor == keep.id
  }

  /** No guest is pinned to any of the records in question. */
  ghost predicate Unpinned(s: Store, device: Id, macs: set<string>) {
    !Pinned(s, device) && forall o, m | m in macs && Carries(s, o, m) :: !Pinned(s, o)
  }

  /** Unless a request failed, the duplicate is found and folded, or there is none to be found. */
  ghost predicate Reunited(s: Store, t: Store, device: Handle, macs: set<string>, survivor: Id) {
    PrimariesOwned(s) && Current(s, device) ==>
      || (NoneFound(s, device.id, macs) && t == s && survivor == device.id)
      || exists o, m | m in macs :: Carries(s, o, m) && FoldedWith(s, t, device, o, survivor)
  }

  /** lldp.py:611-632: the first other device found by an identity MAC is merged with. */
  method FoldDuplicates(nb: NetBox, device: Handle, own: seq<OwnMac>) returns (r: Handle)
    requires Linked(nb.State()) && HandleOk(nb.State(), device)
    modifies nb
    ensures old(nb.faults) <= nb.faults
    ensures Safe(old(nb.State()), nb.State()) && Linked(nb.State()) && HandleOk(nb.State(), r)
    ensures nb.dryRun ==> nb.State() == old(nb.State())
    ensures own == [] ==> r == device
    ensures MergedBy(old(nb.State()), nb.State(), device.id, MacsOf(own))
    ensures exists x :: old(nb.devices.Keys) - nb.devices.Keys <= {x}
    ensures nb.cables.Keys <= old(nb.cables.Keys)
    ensures nb.faults == old(nb.faults) && !nb.dryRun
            && (nb.protective ==> old(Unpinned(nb.State(), device.id, MacsOf(own)))) ==>
              Reunited(old(nb.State()), nb.State(), device, MacsOf(own), r.id)
  {
    hide Safe, Linked, HandleOk, Folded, PrimaryKept, Carries, OnSomeVm, AllManaged, PrimariesOwned, Current;
    ghost var s := nb.State();
    r := device;
    NothingChanged(s, device.id, MacsOf(own));
    NothingFoundYet(s, device.id);
    for k := 0 to |own|
      invariant nb.State() == s && r == device && old(nb.faults) <= nb.faults
      invariant nb.faults == old(nb.faults) ==> NoneFound(s, device.id, MacsOf(own[..k]))
    {
      var found := FindDeviceByMac(nb, own[k].mac);
      NotThisOne(s, device.id, own, k, found);
      if found.None? || found.value == device.id || found.value !in nb.devices {
        continue;
      }
      var other := Handle(found.value, nb.devices[found.value]);
      FreshlyRead(s, found.value);
      MacsOfHas(own, k);
      var merged := MergeDuplicate(nb, device, other);
      ghost var lose := if OtherWins(device.device.tags, other.device.tags) then device.id else other.id;
      AllManagedIs(s, lose);
      assert s.devices.Keys - nb.devices.Keys <= {lose};
      forall d | d in s.devices && d !in nb.devices ensures d == lose {
        assert d in s.devices.Keys - nb.devices.Keys;
      }
      if merged.Ok? {
        r := merged.value;
      } else {
        // a failed merge does not end the crawl; the caller goes on with its own copy
        HandleStaysOk(s, nb.State(), device);
      }
      return;
    }
    assert own[..|own|] == own;
  }

  lemma NothingChanged(s: Store, device: Id, macs: set<string>)
    requires Linked(s)
    ensures Safe(s, s) && MergedBy(s, s, device, macs) && exists x :: s.devices.Keys - s.devices.Keys <= {x}
  {
    SafeSelf(s);
    assert s.devices.Keys - s.devices.Keys <= {0};
  }

  lemma NothingFoundYet(s: Store, device: Id)
    ensures forall own: seq<OwnMac> :: own[..0] == [] && NoneFound(s, device, MacsOf(own[..0]))
  {
  }

  lemma NotThisOne(s: Store, device: Id, own: seq<OwnMac>, k: nat, found: Option<Id>)
    requires Linked(s) && k < |own|
    requires found.Some? ==> Carries(s, found.value, own[k].mac)
    ensures found.Some? ==> found.value in s.devices
    ensures NoneFound(s, device, MacsOf(own[..k]))
            && (found == Some(device) || OnSomeVm(s, own[k].mac) || forall o :: !Carries(s, o, own[k].mac)) ==>
              NoneFound(s, device, MacsOf(own[..k + 1]))
  {
    MacsOfAppend(own[..k], own[k]);
    assert own[..k + 1] == own[..k] + [own[k]];
  }

  lemma FreshlyRead(s: Store, device: Id)
    requires Linked(s) && device in s.devices
    ensures HandleOk(s, Handle(device, s.devices[device])) && Current(s, Handle(device, s.devices[device]))
  {
  }

  /** Recording MACs adds interfaces and MAC records, and nothing else. */
  ghost predicate OnlyRecorded(s: Store, t: Store) {
    && t.devices == s.devices && t.vms == s.vms && t.ips == s.ips && t.cables == s.cables
    && (forall i | i in s.interfaces :: i in t.interfaces && t.interfaces[i] == s.interfaces[i])
    && (forall m | m in s.macs :: m in t.macs && t.macs[m] == s.macs[m])
  }

  lemma RecordedKeeps(s: Store, t: Store)
    requires OnlyRecorded(s, t)
    ensures t.devices == s.devices && t.cables == s.cables
  {
  }

  lemma CarriesOn(s: Store, t: Store, device: Id, mac: string)
    requires OnlyRecorded(s, t) && Carries(s, device, mac)
    ensures Carries(t, device, mac)
  {
    var m :| m in s.macs && s.macs[m].mac == mac && s.macs[m].place.OnInterface?
        && s.macs[m].place.iface in s.interfaces
             && s.interfaces[s.macs[m].place.iface].device == device;
    assert t.macs[m].mac == mac;
  }

  lemma RecordedOne(s: Store, t: Store, iface: Id, mac: string)
    requires IdsBelow(s) && iface in s.interfaces && (t == s || MacTouched(s, t, iface, mac))
    ensures OnlyRecorded(s, t)
    ensures HasMac(t, iface, mac) ==> Carries(t, s.interfaces[iface].device, mac)
  {
  }

  lemma OnlyRecordedOn(s: Store, t: Store, u: Store)
    requires OnlyRecorded(s, t) && OnlyRecorded(t, u)
    ensures OnlyRecorded(s, u)
  {
  }

  lemma OnlyAdded(s: Store, t: Store, device: Id)
    requires IdsBelow(s) && (t == s || t == AddedInterface(s, Interface(device, MGMT)))
    ensures OnlyRecorded(s, t)
  {
  }

  /** lldp.py:722-732, one MAC: on the interface it is known by, else on the "mgmt" interface. */
  method RecordMac(nb: NetBox, device: Id, own: OwnMac, known: Option<Id>) returns (r: Outcome<Option<Id>>)
    requires Linked(nb.State())
    requires known.Some? ==> known.value in nb.interfaces && nb.interfaces[known.value].device == device
    modifies nb
    ensures Explained(r, old(nb.faults), nb.faults)
    ensures Safe(old(nb.State()), nb.State()) && Linked(nb.State()) && OnlyRecorded(old(nb.State()), nb.State())
    ensures nb.dryRun ==> nb.State() == old(nb.State())
    ensures r.Ok? && r.value.Some? ==> r.value.value in nb.interfaces && nb.interfaces[r.value.value].device == device
    ensures r.Ok? && nb.faults == old(nb.faults) && !nb.dryRun ==> Carries(nb.State(), device, own.mac)
  {
    hide Safe, Linked, Carries, OnlyRecorded;
    ghost var s := nb.State();
    LinkedBelow(s);
    SafeSelf(s);
    var iface: Option<Id> := None;
    r := Ok(known);
    if own.iface.Some? && exists i | i in nb.interfaces :: nb.interfaces[i] == Interface(device, own.iface.value) {
      var i :| i in nb.interfaces && nb.interfaces[i] == Interface(device, own.iface.value);
      iface := Some(i);
    } else {
      if known.None? {
        r := LocalInterface(nb, device, MGMT);
        if nb.State() != s {
          AddedInterfaceSafe(s, device, MGMT);
        }
      }
      iface := if r.Ok? then r.value else None;
    }
    ghost var t := nb.State();
    OnlyAdded(s, t, device);
    LinkedBelow(t);
    if iface.Some? {
      nb.SetInterfaceMac(iface.value, own.mac);
      RecordedOne(t, nb.State(), iface.value, own.mac);
      OnlyRecordedOn(s, t, nb.State());
      if nb.State() != t {
        MacTouchedSafe(t, nb.State(), iface.value, own.mac);
        SafeTransitive(s, t, nb.State());
      }
    }
  }

  /** lldp.py:717-732. */
  method RecordLocalMacs(nb: NetBox, device: Id, own: seq<OwnMac>) returns (r: Outcome<bool>)
    requires Linked(nb.State())
    modifies nb
    ensures Explained(r, old(nb.faults), nb.faults)
    ensures Safe(old(nb.State()), nb.State()) && Linked(nb.State()) && OnlyRecorded(old(nb.State()), nb.State())
    ensures nb.dryRun ==> nb.State() == old(nb.State())
    ensures r.Ok? && nb.faults == old(nb.faults) && !nb.dryRun ==>
              forall k | 0 <= k < |own| :: Carries(nb.State(), device, own[k].mac)
  {
    hide Safe, Linked, Carries, OnlyRecorded;
    ghost var s := nb.State();
    LinkedBelow(s);
    SafeSelf(s);
    OnlyAdded(s, s, device);
    var mgmt: Option<Id> := None;
    for k := 0 to |own|
      invariant Safe(s, nb.State()) && Linked(nb.State()) && OnlyRecorded(s, nb.State())
      invariant nb.dryRun ==> nb.State() == s
      invariant mgmt.Some? ==> mgmt.value in nb.interfaces && nb.interfaces[mgmt.value].device == device
      invariant old(nb.faults) <= nb.faults
      invariant nb.faults == old(nb.faults) && !nb.dryRun ==>
                forall i | 0 <= i < k :: Carries(nb.State(), device, own[i].mac)
    {
      ghost var t := nb.State();
      var known := RecordMac(nb, device, own[k], mgmt);
      SafeTransitive(s, t, nb.State());
      OnlyRecordedOn(s, t, nb.State());
      if known.Raised? {
        return Raised(known.refusal);
      }
      forall i | 0 <= i < k && Carries(t, device, own[i].mac) ensures Carries(nb.State(), device, own[i].mac) {
        CarriesOn(t, nb.State(), device, own[i].mac);
      }
      mgmt := known.value;
    }
    r := Ok(true);
  }

  /**
   lldp.py:591-635. Whatever the switch reports, at most one device is merged away, it
   is one of ours, and the two records were tied by a MAC that is not a placeholder. If
   no request failed, no duplicate was overlooked, and what is left carries every MAC.
   */
  method DedupAndRecordMacs(nb: NetBox, device: Handle, chassis: Option<string>, local: seq<OwnMac>)
    returns (r: Outcome<Handle>, macs: set<string>)
    requires Linked(nb.State()) && HandleOk(nb.State(), device)
    modifies nb
    ensures Explained(r, old(nb.faults), nb.faults)
    ensures Safe(old(nb.State()), nb.State()) && Linked(nb.State())
    ensures nb.dryRun ==> nb.State() == old(nb.State())
    ensures r.Ok? ==> HandleOk(nb.State(), r.value) && (macs == {} ==> r.value == device)
    ensures macs == IdentityMacs(chassis, local)
    ensures MergedBy(old(nb.State()), nb.State(), device.id, IdentityMacs(chassis, local))
    ensures exists x :: old(nb.devices.Keys) - nb.devices.Keys <= {x}
    ensures nb.cables.Keys <= old(nb.cables.Keys)
    ensures r.Ok? && nb.faults == old(nb.faults) && !nb.dryRun
              && (nb.protective ==> old(Unpinned(nb.State(), device.id, macs))) ==>
                   exists mid :: Reunited(old(nb.State()), mid, device, macs, r.value.id)
                       && OnlyRecorded(mid, nb.State())
    ensures r.Ok? && nb.faults == old(nb.faults) && !nb.dryRun ==>
              forall m | m in macs :: Carries(nb.State(), r.value.id, m)
  {
    hide Safe, Linked, HandleOk, IdentityMacs, Carries, Reunited, OnlyRecorded;
    ghost var s := nb.State();
    var own := Identity(chassis, local);
    macs := MacsOf(own);
    var survivor := FoldDuplicates(nb, device, own);
    ghost var t := nb.State();
    var recorded := RecordLocalMacs(nb, survivor.id, own);
    RecordedKeeps(t, nb.State());
    SafeTransitive(s, t, nb.State());
    if recorded.Raised? {
      return Raised(recorded.refusal), macs;
    }
    HandleStaysOk(t, nb.State(), survivor);
    if nb.faults == old(nb.faults) && !nb.dryRun {
      MacsOfAll(own, nb.State(), survivor.id);
    }
    r := Ok(survivor);
  }

  lemma {:induction false} MacsOfAll(own: seq<OwnMac>, s: Store, device: Id)
    requires forall k | 0 <= k < |own| :: Carries(s, device, own[k].mac)
    ensures forall m | m in MacsOf(own) :: Carries(s, device, m)
    decreases |own|
  {
    if own != [] {
      MacsOfAll(own[..|own| - 1], s, device);
    }
  }

  /** No placeholder is ever among the MACs that can tie two records together. */
  lemma PlaceholdersNeverIdentify(chassis: Option<string>, local: seq<OwnMac>)
    ensures IdentityMacs(chassis, local) !! NON_IDENTITY
    ensures forall i | 0 <= i < |local| && i < 16 && IsIdentityMac(local[i].mac) ::
              local[i].mac in IdentityMacs(chassis, local)
  {
    forall i | 0 <= i < |local| && i < 16 ensures local[i].mac in MacsOf(FirstSixteen(local)) {
      MacsOfHas(FirstSixteen(local), i);
    }
  }
}
