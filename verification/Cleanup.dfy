/**
 Bulk removal of everything this service made, and its dry run (cleanup.py:44-222).
 */
module Cleanup {
  import opened Prelude
  import opened Networks
  import opened NetBoxStore

  datatype Kind = Devices | Vms | Ips | Cables

  /** What to remove; an empty site or source is None. */
  datatype Filter = Filter(kinds: set<Kind>, site: Option<string>, source: Option<string>,
                           onlyStale: bool, notSeenDays: Option<int>)

  datatype Counts = Counts(devices: nat, vms: nat, ips: nat, cables: nat)

  const UNASSIGNED: string := "unassigned"
  const NO_SITE: string := "—"

  // ---------------------------------------------------------------- matching

  /** All of cleanup.py:118-138 but the site. */
  predicate Fits(f: Filter, tags: Tags, lastSeen: Option<real>, now: real) {
    && (f.source.Some? ==> f.source.value in tags)
    && (f.onlyStale ==> STALE in tags)
    && (f.notSeenDays.Some? ==> lastSeen.Some? && (now - lastSeen.value) / 86400.0 >= f.notSeenDays.value as real)
  }

  predicate InSite(f: Filter, site: string) {
    f.site.Some? ==> site == f.site.value
  }

  /** cleanup.py:64-72. A virtual machine's id is looked up among the devices. */
  function IpSite(s: Store, place: Place): string {
    match place
    case Nowhere => UNASSIGNED
    case OnInterface(i) =>
      if i in s.interfaces && s.interfaces[i].device in s.devices then s.devices[s.interfaces[i].device].site
      else UNASSIGNED
    case OnVmInterface(_, vm) =>
      if vm in s.devices then s.devices[vm].site else UNASSIGNED
  }

  /** cleanup.py:56-61: a virtual machine is where its device is. */
  function VmSite(s: Store, v: Vm): string {
    if v.device.Some? && v.device.value in s.devices then s.devices[v.device.value].site else NO_SITE
  }

  function DevicesToGo(s: Store, f: Filter, now: real): set<Id> {
    set d | d in s.devices && Devices in f.kinds && MANAGED in s.devices[d].tags
            && InSite(f, s.devices[d].site) && Fits(f, s.devices[d].tags, s.devices[d].lastSeen, now)
  }

  function VmsToGo(s: Store, f: Filter, now: real): set<Id> {
    set v | v in s.vms && Vms in f.kinds && MANAGED in s.vms[v].tags
            && InSite(f, VmSite(s, s.vms[v])) && Fits(f, s.vms[v].tags, s.vms[v].lastSeen, now)
  }

  predicate OnDevices(s: Store, place: Place, devices: set<Id>) {
    place.OnInterface? && EndsOn(s, place.iface, devices)
  }

  predicate EndsOn(s: Store, iface: Id, devices: set<Id>) {
    iface in s.interfaces && s.interfaces[iface].device in devices
  }

  /** Our addresses on the given devices and virtual machines. */
  function IpsOn(s: Store, devices: set<Id>, vms: set<Id>): set<Id> {
    set i | i in s.ips && MANAGED in s.ips[i].tags
            && (OnDevices(s, s.ips[i].place, devices) || IsOnVm(s.ips[i].place, vms))
  }

  function IpsToGo(s: Store, f: Filter, now: real): set<Id> {
    set i | i in s.ips && Ips in f.kinds && MANAGED in s.ips[i].tags
            && InSite(f, IpSite(s, s.ips[i].place)) && Fits(f, s.ips[i].tags, s.ips[i].lastSeen, now)
  }

  function CablesToGo(s: Store, f: Filter, now: real): set<Id> {
    set c | c in s.cables && Cables in f.kinds && f.site.None? && MANAGED in s.cables[c].tags
            && Fits(f, s.cables[c].tags, s.cables[c].lastSeen, now)
  }

  // ----------------------------------------------------------- what is left

  /** The records a cleanup removes. */
  datatype Batch = Batch(devices: set<Id>, vms: set<Id>, ips: set<Id>, cables: set<Id>)

  predicate CableStays(s: Store, c: Id, b: Batch)
    requires c in s.cables
  {
    c !in b.cables && forall e | e in s.cables[c].ends :: !EndsOn(s, e, b.devices)
  }

  function PlaceAfter(s: Store, place: Place, b: Batch): Place {
    if OnDevices(s, place, b.devices) || IsOnVm(place, b.vms) then Nowhere else place
  }

  /** The inventory without the batch and what NetBox removes along with it. */
  function Without(s: Store, b: Batch): Store {
    s.(devices := map d | d in s.devices && d !in b.devices :: ReleasedAll(s.devices[d], b.ips),
       vms := map v | v in s.vms && v !in b.vms :: Detached(s.vms[v], b.devices),
       interfaces := map i | i in s.interfaces && s.interfaces[i].device !in b.devices :: s.interfaces[i],
       ips := map i | i in s.ips && i !in b.ips :: s.ips[i].(place := PlaceAfter(s, s.ips[i].place, b)),
       cables := map c | c in s.cables && CableStays(s, c, b) :: s.cables[c],
       macs := map m | m in s.macs && PlaceAfter(s, s.macs[m].place, b) == s.macs[m].place :: s.macs[m],
       primaryMacs := map i | i in s.primaryMacs && !EndsOn(s, i, b.devices) :: s.primaryMacs[i])
  }

  lemma DeviceGone(s: Store, b: Batch, d: Id)
    ensures WithoutDevice(Without(s, b), d) == Without(s, b.(devices := b.devices + {d}))
  {
    DevicesAgree(s, b, d);
    GuestsAgree(s, b, d);
    CablesAgree(s, b, d);
    RecordsAgree(s, b, d);
    SameCounter(s, b, d);
    hide WithoutDevice, Without;
  }

  lemma SameCounter(s: Store, b: Batch, d: Id)
    ensures WithoutDevice(Without(s, b), d).nextId == Without(s, b.(devices := b.devices + {d})).nextId
  {
  }

  lemma DevicesAgree(s: Store, b: Batch, d: Id)
    ensures WithoutDevice(Without(s, b), d).devices == Without(s, b.(devices := b.devices + {d})).devices
    ensures WithoutDevice(Without(s, b), d).interfaces == Without(s, b.(devices := b.devices + {d})).interfaces
  {
    hide PlaceAfter, CableStays, ReleasedAll, Detached;
    var t, u := WithoutDevice(Without(s, b), d), Without(s, b.(devices := b.devices + {d}));
    assert t.devices == u.devices;
    assert t.interfaces == u.interfaces;
  }

  lemma RecordsAgree(s: Store, b: Batch, d: Id)
    ensures WithoutDevice(Without(s, b), d).ips == Without(s, b.(devices := b.devices + {d})).ips
    ensures WithoutDevice(Without(s, b), d).macs == Without(s, b.(devices := b.devices + {d})).macs
    ensures WithoutDevice(Without(s, b), d).primaryMacs == Without(s, b.(devices := b.devices + {d})).primaryMacs
  {
    PlacedAgree(s, b, d);
    GoneInterfaces(s, b, d);
    hide PlaceAfter, InterfacesOf, CableStays, ReleasedAll, EndsOn;
    assert WithoutDevice(Without(s, b), d).primaryMacs == Without(s, b.(devices := b.devices + {d})).primaryMacs;
  }

  lemma PlacedAgree(s: Store, b: Batch, d: Id)
    ensures WithoutDevice(Without(s, b), d).ips == Without(s, b.(devices := b.devices + {d})).ips
    ensures WithoutDevice(Without(s, b), d).macs == Without(s, b.(devices := b.devices + {d})).macs
  {
    PlacesAgree(s, b, d);
    hide PlaceAfter, InterfacesOf, CableStays, ReleasedAll, EndsOn;
    var t, u := WithoutDevice(Without(s, b), d), Without(s, b.(devices := b.devices + {d}));
    assert t.ips == u.ips;
    assert t.macs == u.macs;
  }

  lemma GuestsAgree(s: Store, b: Batch, d: Id)
    ensures WithoutDevice(Without(s, b), d).vms == Without(s, b.(devices := b.devices + {d})).vms
  {
    assert forall v :: Detached(Detached(v, b.devices), {d}) == Detached(v, b.devices + {d});
    hide Detached;
    assert WithoutDevice(Without(s, b), d).vms == Without(s, b.(devices := b.devices + {d})).vms;
  }

  lemma GoneInterfaces(s: Store, b: Batch, d: Id)
    ensures forall e :: EndsOn(s, e, b.devices + {d}) <==>
              EndsOn(s, e, b.devices) || e in InterfacesOf(Without(s, b), d)
  {
  }

  lemma PlacesAgree(s: Store, b: Batch, d: Id)
    ensures forall p :: PlaceAfter(s, p, b.(devices := b.devices + {d}))
                     == if IsOn(PlaceAfter(s, p, b), InterfacesOf(Without(s, b), d)) then Nowhere
                        else PlaceAfter(s, p, b)
    ensures forall p :: PlaceAfter(s, p, b) in {p, Nowhere}
  {
    GoneInterfaces(s, b, d);
    hide EndsOn, InterfacesOf, Without;
  }

  lemma CablesAgree(s: Store, b: Batch, d: Id)
    ensures WithoutDevice(Without(s, b), d).cables == Without(s, b.(devices := b.devices + {d})).cables
  {
    GoneInterfaces(s, b, d);
    hide EndsOn, InterfacesOf;
    var next := b.(devices := b.devices + {d});
    var gone := InterfacesOf(Without(s, b), d);
    forall c | c in s.cables
      ensures CableStays(s, c, next) <==> CableStays(s, c, b) && forall e | e in s.cables[c].ends :: e !in gone
    {
    }
  }

  lemma VmGone(s: Store, b: Batch, v: Id)
    ensures WithoutVm(Without(s, b), v) == Without(s, b.(vms := b.vms + {v}))
  {
    VmPlaces(s, b, v);
    hide EndsOn, ReleasedAll, Detached;
    var t, u := WithoutVm(Without(s, b), v), Without(s, b.(vms := b.vms + {v}));
    assert t.vms == u.vms;
    assert t.cables == u.cables;
  }

  lemma VmPlaces(s: Store, b: Batch, v: Id)
    ensures WithoutVm(Without(s, b), v).ips == Without(s, b.(vms := b.vms + {v})).ips
    ensures WithoutVm(Without(s, b), v).macs == Without(s, b.(vms := b.vms + {v})).macs
  {
    hide EndsOn, ReleasedAll, Detached, CableStays;
    var t, u := WithoutVm(Without(s, b), v), Without(s, b.(vms := b.vms + {v}));
    assert t.ips == u.ips;
    assert t.macs == u.macs;
  }

  lemma IpGone(s: Store, b: Batch, i: Id)
    ensures WithoutIp(Without(s, b), i) == Without(s, b.(ips := b.ips + {i}))
  {
    IpUndesignated(s, b, i);
    hide ReleasedAll, Released, EndsOn, Detached;
    assert WithoutIp(Without(s, b), i).ips == Without(s, b.(ips := b.ips + {i})).ips;
  }

  lemma IpUndesignated(s: Store, b: Batch, i: Id)
    ensures WithoutIp(Without(s, b), i).devices == Without(s, b.(ips := b.ips + {i})).devices
  {
    hide PlaceAfter, CableStays, EndsOn, Detached;
    assert WithoutIp(Without(s, b), i).devices == Without(s, b.(ips := b.ips + {i})).devices;
  }

  lemma CableGone(s: Store, b: Batch, c: Id)
    ensures WithoutCable(Without(s, b), c) == Without(s, b.(cables := b.cables + {c}))
  {
    assert WithoutCable(Without(s, b), c).cables == Without(s, b.(cables := b.cables + {c})).cables;
  }

  const NOTHING: Batch := Batch({}, {}, {}, {})

  lemma NothingGone(s: Store)
    ensures Without(s, NOTHING) == s
  {
    var t := Without(s, NOTHING);
    assert t.devices == s.devices;
    assert t.interfaces == s.interfaces;
    assert t.ips == s.ips;
    assert t.cables == s.cables;
    assert t.macs == s.macs;
  }

  // ------------------------------------------------------------- the cleanup

  /** The batch once these devices and virtual machines are gone with our addresses on them. */
  function Parents(s: Store, devices: set<Id>, vms: set<Id>): Batch {
    Batch(devices, vms, IpsOn(s, devices, vms), {})
  }

  /** Which records a cleanup asks to remove; a dry run looks at the inventory as it is throughout. */
  function Plan(s: Store, f: Filter, now: real, dry: bool): Batch {
    var devices := DevicesToGo(s, f, now);
    var vms := VmsToGo(if dry then s else Without(s, Parents(s, devices, {})), f, now);
    var on := IpsOn(s, devices, vms);
    var ips := on + IpsToGo(if dry then s else Without(s, Batch(devices, vms, on, {})), f, now);
    Batch(devices, vms, ips, CablesToGo(if dry then s else Without(s, Batch(devices, vms, ips, {})), f, now))
  }

  function CountsOf(b: Batch): Counts {
    Counts(|b.devices|, |b.vms|, |b.ips|, |b.cables|)
  }

  /** What holds of the inventory while the parents are removed: the rest stays where it was. */
  lemma StillOn(s: Store, b: Batch, devices: set<Id>, vms: set<Id>)
    requires devices !! b.devices && vms !! b.vms
    ensures IpsOn(Without(s, b), devices, vms) == IpsOn(s, devices, vms) - b.ips
  {
    var t := Without(s, b);
    forall i | i in s.ips && i !in b.ips
      ensures OnDevices(t, t.ips[i].place, devices) <==> OnDevices(s, s.ips[i].place, devices)
      ensures IsOnVm(t.ips[i].place, vms) <==> IsOnVm(s.ips[i].place, vms)
    {
    }
  }

  lemma IpsOnGrows(s: Store, devices: set<Id>, vms: set<Id>, more: set<Id>, moreVms: set<Id>)
    ensures IpsOn(s, devices, vms) + IpsOn(s, more, moreVms) == IpsOn(s, devices + more, vms + moreVms)
  {
  }

  /** Those of the addresses that are ours. */
  function Ours(records: map<Id, Ip>, ids: set<Id>): set<Id> {
    set i | i in ids && i in records && MANAGED in records[i].tags
  }

  lemma NoneOurs(records: map<Id, Ip>, none: set<Id>)
    requires none == {}
    ensures Ours(records, none) == {}
  {
  }

  lemma AlreadyGone(b: Batch, ips: set<Id>)
    ensures WithIps(b, ips - b.ips) == WithIps(b, ips)
  {
    assert b.ips + (ips - b.ips) == b.ips + ips;
  }

  lemma OursMore(records: map<Id, Ip>, all: set<Id>, todo: set<Id>, i: Id)
    requires i in todo && todo <= all <= records.Keys
    ensures Ours(records, all - (todo - {i})) == Ours(records, all - todo) + OnlyIf(MANAGED in records[i].tags, i)
  {
  }

  /** Addresses join the batch. */
  function WithIps(b: Batch, ips: set<Id>): Batch {
    b.(ips := b.ips + ips)
  }

  lemma WithIpsTwice(b: Batch, x: set<Id>, y: set<Id>)
    ensures WithIps(WithIps(b, x), y) == WithIps(b, x + y) && WithIps(b, {}) == b
  {
    assert (b.ips + x) + y == b.ips + (x + y);
  }

  function OnlyIf(p: bool, i: Id): set<Id> {
    if p then {i} else {}
  }

  /** One cleanup: the counts, and the addresses that were counted already. */
  class Sweep {
    const nb: NetBox
    const filter: Filter
    const now: real
    const dry: bool
    var counts: Counts
    var deletedIps: set<Id>
    ghost const start: Store
    ghost var batch: Batch

    ghost predicate Valid()
      reads this, nb
    {
      && (nb.dryRun ==> dry) && batch.ips == deletedIps && counts == CountsOf(batch)
      && nb.State() == if dry then start else Without(start, batch)
    }

    /** cleanup.py:156-161. */
    constructor (nb: NetBox, filter: Filter, dryRun: bool, now: real)
      ensures Valid() && batch == NOTHING && this.nb == nb && start == nb.State()
      ensures this.filter == filter && this.now == now && dry == (dryRun || nb.dryRun)
    {
      this.nb, this.filter, this.now, dry := nb, filter, now, dryRun || nb.dryRun;
      counts, deletedIps := Counts(0, 0, 0, 0), {};
      start, batch := nb.State(), NOTHING;
      NothingGone(nb.State());
    }

    /** cleanup.py:168-173: each address of ours is deleted, and counted, once. */
    method DeleteIp(ip: Id, tags: Tags)
      requires Valid()
      modifies this, nb
      ensures Valid() && batch == WithIps(old(batch), OnlyIf(MANAGED in tags, ip)) && nb.faults == old(nb.faults)
    {
      hide Without, WithoutIp;
      if ip in deletedIps || MANAGED !in tags {
        return;
      }
      IpGone(start, batch, ip);
      if !dry {
        var _ := nb.DeleteIp(ip, tags, None);
      }
      deletedIps := deletedIps + {ip};
      counts := counts.(ips := counts.ips + 1);
      batch := batch.(ips := batch.ips + {ip});
    }

    method ListIps(devices: set<Id>, vms: set<Id>) returns (all: set<Id>)
      ensures all <= nb.ips.Keys && Ours(nb.ips, all) == IpsOn(nb.State(), devices, vms)
    {
      all := set i | i in nb.ips && (OnDevices(nb.State(), nb.ips[i].place, devices) || IsOnVm(nb.ips[i].place, vms));
    }

    /** cleanup.py:175-180. */
    method DeleteParentIps(devices: set<Id>, vms: set<Id>)
      requires Valid() && devices !! batch.devices && vms !! batch.vms
      modifies this, nb
      ensures Valid() && batch == WithIps(old(batch), IpsOn(start, devices, vms)) && nb.faults == old(nb.faults)
    {
      hide Without, IpsOn, OnDevices, IsOnVm, CountsOf, Ours, WithIps, OnlyIf;
      ghost var before := batch;
      var records := nb.ips;
      var all := ListIps(devices, vms);
      StillOn(start, batch, devices, vms);
      var todo := all;
      NoneOurs(records, all - todo);
      WithIpsTwice(before, {}, {});
      while todo != {}
        invariant Valid() && todo <= all && nb.faults == old(nb.faults)
        invariant batch == WithIps(before, Ours(records, all - todo))
        decreases |todo|
      {
        var i :| i in todo;
        OursMore(records, all, todo, i);
        WithIpsTwice(before, Ours(records, all - todo), OnlyIf(MANAGED in records[i].tags, i));
        todo := todo - {i};
        DeleteIp(i, records[i].tags);
      }
      assert all - todo == all;
      AlreadyGone(before, IpsOn(start, devices, vms));
    }

    /** cleanup.py:182-189. A request that fails, or is refused, ends the cleanup. */
    method DeleteDevices() returns (r: Outcome<bool>)
      requires Valid() && batch == NOTHING
      modifies this, nb
      ensures Valid() && Explained(r, old(nb.faults), nb.faults)
      ensures r.Ok? ==> batch == Parents(start, DevicesToGo(start, filter, now), {})
      ensures r.Ok? ==> dry || Completes(start, filter, now, nb.protective)
      ensures r.Raised? && r.refusal ==> !dry && !Completes(start, filter, now, nb.protective)
      ensures r.Raised? ==> StoppedAt(start, DevicesToGo(start, filter, now), batch)
    {
      hide Without, Parents, CountsOf, Fits, InSite, Pinned, StoppedAt;
      NothingGone(start);
      NoneOn(start);
      var records := nb.devices;
      var all := DevicesToGo(nb.State(), filter, now);
      assert forall d | d in all :: d in records && MANAGED in records[d].tags;
      hide DevicesToGo;
      var todo := all;
      assert all - todo == {};
      while todo != {}
        invariant Valid() && todo <= all && old(nb.faults) <= nb.faults
        invariant batch == Parents(start, all - todo, {})
        invariant dry || !nb.protective || forall d | d in all - todo :: !Pinned(start, d)
        decreases |todo|
      {
        var d :| d in todo;
        r := DeleteDevice(d, records[d].tags, all - todo);
        if r.Raised? {
          Stops(start, all, all - todo, d, batch);
          return;
        }
        assert all - todo + {d} == all - (todo - {d});
        todo := todo - {d};
      }
      assert all - todo == all;
      r := Ok(true);
    }

    /** cleanup.py:187-189. */
    method DeleteDevice(d: Id, tags: Tags, ghost done: set<Id>) returns (r: Outcome<bool>)
      requires Valid() && batch == Parents(start, done, {}) && d !in done && MANAGED in tags && d in start.devices
      modifies this, nb
      ensures Valid() && Explained(r, old(nb.faults), nb.faults)
      ensures r.Ok? ==> batch == Parents(start, done + {d}, {}) && (dry || !nb.protective || !Pinned(start, d))
      ensures r.Raised? ==> !dry && batch == WithIps(Parents(start, done, {}), IpsOn(start, {d}, {}))
      ensures r.Raised? && r.refusal ==> nb.protective && Pinned(start, d)
    {
      hide Without, WithoutDevice, IpsOn, IpsToGo, Pinned;
      DeleteParentIps({d}, {});
      DeviceGone(start, batch, d);
      ParentsMore(start, done, {}, {d}, {});
      StillPinned(start, batch, d);
      PinnedIs(nb.State(), d);
      r := Ok(true);
      if !dry {
        r := nb.DeleteIfManaged(d, tags);
        if r.Raised? {
          return;
        }
      }
      counts := counts.(devices := counts.devices + 1);
      batch := batch.(devices := batch.devices + {d});
    }

    /** cleanup.py:191-198. */
    method DeleteVms(ghost devices: set<Id>)
      requires Valid() && batch == Parents(start, devices, {})
      modifies this, nb
      ensures nb.faults == old(nb.faults)
      ensures Valid() && batch == Parents(start, devices, VmsToGo(old(nb.State()), filter, now))
    {
      hide Parents, CountsOf, Fits, InSite, VmSite;
      ParentsHas(start, devices, {});
      hide Without;
      var records := nb.vms;
      var all := VmsToGo(nb.State(), filter, now);
      assert forall v | v in all :: v in records && MANAGED in records[v].tags;
      hide VmsToGo;
      var todo := all;
      assert all - todo == {};
      while todo != {}
        invariant Valid() && todo <= all && nb.faults == old(nb.faults)
        invariant batch == Parents(start, devices, all - todo)
        decreases |todo|
      {
        var v :| v in todo;
        DeleteVm(v, records[v].tags, devices, all - todo);
        assert all - todo + {v} == all - (todo - {v});
        todo := todo - {v};
      }
      assert all - todo == all;
    }

    /** cleanup.py:196-198. */
    method DeleteVm(v: Id, tags: Tags, ghost devices: set<Id>, ghost done: set<Id>)
      requires Valid() && batch == Parents(start, devices, done) && v !in done && MANAGED in tags
      modifies this, nb
      ensures Valid() && batch == Parents(start, devices, done + {v}) && nb.faults == old(nb.faults)
    {
      hide Without, WithoutVm, IpsOn;
      DeleteParentIps({}, {v});
      VmGone(start, batch, v);
      ParentsMore(start, devices, done, {}, {v});
      if !dry {
        var _ := nb.DeleteVm(v, tags, None);
      }
      counts := counts.(vms := counts.vms + 1);
      batch := batch.(vms := batch.vms + {v});
    }

    /** cleanup.py:200-206: a site is looked up when its address is considered. */
    method DeleteIps()
      requires Valid()
      modifies this, nb
      ensures Valid() && batch == WithIps(old(batch), IpsToGo(old(nb.State()), filter, now))
      ensures nb.faults == old(nb.faults)
    {
      hide Without, WithIps, CountsOf, IpSite, Fits, InSite;
      ghost var before, mid := batch, nb.State();
      WithIpsTwice(before, {}, {});
      if Ips in filter.kinds {
        var records := nb.ips;
        var all := set i | i in nb.ips && MANAGED in nb.ips[i].tags;
        var todo := all;
        ghost var going := IpsToGo(mid, filter, now);
        assert going <= all && forall i | i in all :: i in going <==>
               InSite(filter, IpSite(mid, records[i].place)) && Fits(filter, records[i].tags, records[i].lastSeen, now);
        assert going * (all - todo) == {};
        hide IpsToGo;
        while todo != {}
          invariant Valid() && todo <= all && nb.faults == old(nb.faults)
          invariant batch == WithIps(before, going * (all - todo))
          decreases |todo|
        {
          var i :| i in todo;
          SitesStay(start, before, going * (all - todo));
          var goes := InSite(filter, IpSite(nb.State(), records[i].place))
              && Fits(filter, records[i].tags, records[i].lastSeen, now);
          OneMoreChosen(going, all, todo, i);
          WithIpsTwice(before, going * (all - todo), OnlyIf(i in going, i));
          todo := todo - {i};
          if goes {
            DeleteIp(i, records[i].tags);
          }
        }
        assert going * (all - todo) == going;
      } else {
        assert IpsToGo(mid, filter, now) == {};
      }
    }

    method DeleteCable(c: Id, tags: Tags)
      requires Valid() && c !in batch.cables && MANAGED in tags
      modifies this, nb
      ensures Valid() && batch == old(batch).(cables := old(batch).cables + {c}) && nb.faults == old(nb.faults)
    {
      hide Without, WithoutCable;
      CableGone(start, batch, c);
      if !dry {
        var _ := nb.DeleteCable(c, tags, None);
      }
      counts := counts.(cables := counts.cables + 1);
      batch := batch.(cables := batch.cables + {c});
    }

    /** cleanup.py:208-212. */
    method DeleteCables()
      requires Valid() && batch.cables == {}
      modifies this, nb
      ensures Valid() && batch == old(batch).(cables := CablesToGo(old(nb.State()), filter, now))
      ensures nb.faults == old(nb.faults)
    {
      hide Without, Fits, CountsOf;
      var records := nb.cables;
      var all := CablesToGo(nb.State(), filter, now);
      assert forall c | c in all :: c in records && MANAGED in records[c].tags;
      hide CablesToGo;
      ghost var before := batch;
      var todo := all;
      while todo != {}
        invariant Valid() && todo <= all && nb.faults == old(nb.faults)
        invariant batch == before.(cables := all - todo)
        decreases |todo|
      {
        var c :| c in todo;
        DeleteCable(c, records[c].tags);
        assert all - todo + {c} == all - (todo - {c});
        todo := todo - {c};
      }
      assert all - todo == all;
    }
  }

  lemma OneMoreChosen(going: set<Id>, all: set<Id>, todo: set<Id>, i: Id)
    requires i in todo && todo <= all
    ensures going * (all - (todo - {i})) == going * (all - todo) + OnlyIf(i in going, i)
  {
  }

  lemma SitesStay(s: Store, b: Batch, ips: set<Id>)
    ensures forall p :: IpSite(Without(s, WithIps(b, ips)), p) == IpSite(Without(s, b), p)
  {
  }

  /** The server refuses no deletion. */
  predicate Completes(s: Store, f: Filter, now: real, protective: bool) {
    protective ==> forall d | d in DevicesToGo(s, f, now) :: !Pinned(s, d)
  }

  /** Some of the devices are gone, and some of our addresses on all of them, but nothing else. */
  ghost predicate StoppedAt(s: Store, devices: set<Id>, b: Batch) {
    b.devices <= devices && b.vms == {} && b.ips <= IpsOn(s, devices, {}) && b.cables == {}
  }

  lemma Stops(s: Store, all: set<Id>, done: set<Id>, d: Id, b: Batch)
    requires done <= all && d in all && b == WithIps(Parents(s, done, {}), IpsOn(s, {d}, {}))
    ensures StoppedAt(s, all, b)
  {
  }

  lemma StillPinned(s: Store, b: Batch, d: Id)
    requires d !in b.devices && b.vms == {}
    ensures Pinned(Without(s, b), d) == Pinned(s, d) && (d in s.devices <==> d in Without(s, b).devices)
  {
    var t := Without(s, b);
    assert forall v | v in s.vms :: v in t.vms && (s.vms[v].device == Some(d) <==> t.vms[v].device == Some(d));
  }

  lemma ParentsHas(s: Store, devices: set<Id>, vms: set<Id>)
    ensures Parents(s, devices, vms).vms == vms && Parents(s, devices, vms).devices == devices
  {
  }

  lemma NoneOn(s: Store)
    ensures Parents(s, {}, {}) == NOTHING
  {
  }

  lemma ParentsMore(s: Store, devices: set<Id>, vms: set<Id>, more: set<Id>, moreVms: set<Id>)
    ensures Parents(s, devices + more, vms + moreVms)
         == WithIps(Parents(s, devices, vms), IpsOn(s, more, moreVms)).(devices := devices + more, vms := vms + moreVms)
    ensures devices + {} == devices && vms + {} == vms
  {
    IpsOnGrows(s, devices, vms, more, moreVms);
  }

  /**
   cleanup.py:141-222: the counts are those of the plan, and the plan is carried out unless
   this is a dry run. A server that protects devices with guests pinned to them may end it
   at the devices; so may a request that does not get through.
   */
  method DeleteManaged(nb: NetBox, filter: Filter, dryRun: bool, now: real) returns (r: Outcome<Counts>)
    modifies nb
    ensures Explained(r, old(nb.faults), nb.faults)
    ensures var s, dry := old(nb.State()), dryRun || nb.dryRun;
            && (r.Ok? ==>
                  && PlanHolds(s, filter, now, dry, Plan(s, filter, now, dry))
                  && r.value == CountsOf(Plan(s, filter, now, dry))
                  && nb.State() == (if dry then s else Without(s, Plan(s, filter, now, false)))
                  && (dry || Completes(s, filter, now, nb.protective)))
            && (r.Raised? ==>
                  exists b :: StoppedAt(s, DevicesToGo(s, filter, now), b)
                              && nb.State() == if dry then s else Without(s, b))
            && (r.Raised? && r.refusal ==> !dry && !Completes(s, filter, now, nb.protective))
  {
    hide Without, IpsToGo, CablesToGo, DevicesToGo, VmsToGo, IpsOn, CountsOf, Completes, StoppedAt, PlanHolds;
    var sweep := new Sweep(nb, filter, dryRun, now);
    var done := sweep.DeleteDevices();
    if done.Raised? {
      assert nb.State() == if sweep.dry then sweep.start else Without(sweep.start, sweep.batch);
      return Raised(done.refusal);
    }
    ghost var devices := DevicesToGo(sweep.start, filter, now);
    sweep.DeleteVms(devices);
    ghost var plan := Plan(sweep.start, filter, now, sweep.dry);
    assert sweep.batch == Parents(sweep.start, devices, plan.vms);
    sweep.DeleteIps();
    assert sweep.batch == Batch(devices, plan.vms, plan.ips, {});
    sweep.DeleteCables();
    assert sweep.batch == plan;
    PlanIs(sweep.start, filter, now, sweep.dry);
    r := Ok(sweep.counts);
  }

  // ----------------------------------------------------------------- results

  /** No cable that would be removed itself goes along with a device first. */
  ghost predicate CablesGoAlone(s: Store, f: Filter, now: real) {
    forall c, e | c in CablesToGo(s, f, now) && e in s.cables[c].ends :: !EndsOn(s, e, DevicesToGo(s, f, now))
  }

  /**
   No address to be removed sits on a remaining virtual machine whose id is also that
   of a device to be removed. It matters under a site filter other than "unassigned".
   */
  ghost predicate SitesUnmistaken(s: Store, f: Filter, now: real) {
    || f.site in {None, Some(UNASSIGNED)}
    || forall i | i in IpsToGo(s, f, now) && IsOnVm(s.ips[i].place, DevicesToGo(s, f, now)) ::
         IsOnVm(s.ips[i].place, VmsToGo(s, f, now))
  }

  /**
   No guest is pinned to a device that goes: at all, if the server protects such devices; or
   else, under a site filter other than "—", no guest that is to go itself.
   */
  ghost predicate PinsHarmless(s: Store, f: Filter, now: real, protective: bool) {
    if protective then Completes(s, f, now, true)
    else
      || f.site in {None, Some(NO_SITE)}
      || forall v | v in VmsToGo(s, f, now) :: !PinnedToAny(s.vms[v], DevicesToGo(s, f, now))
  }

  predicate PinnedToAny(v: Vm, devices: set<Id>) {
    v.device.Some? && v.device.value in devices
  }

  /** The dry run announces what the real run then does if and only if none of the three happens. */
  lemma DryRunAgrees(s: Store, f: Filter, now: real, protective: bool)
    ensures Completes(s, f, now, protective) && CountsOf(Plan(s, f, now, true)) == CountsOf(Plan(s, f, now, false))
       <==> PinsHarmless(s, f, now, protective) && CablesGoAlone(s, f, now) && SitesUnmistaken(s, f, now)
  {
    var dry, wet := Plan(s, f, now, true), Plan(s, f, now, false);
    VmsAgree(s, f, now, protective);
    if dry.vms == wet.vms {
      IpsAgree(s, f, now);
    }
    CablesFewer(s, f, now, Batch(dry.devices, wet.vms, wet.ips, {}));
    hide Without, IpsToGo, CablesToGo, DevicesToGo, VmsToGo, IpsOn, CablesGoAlone, SitesUnmistaken, PinsHarmless,
         Completes;
    Subsets(wet.vms, dry.vms);
    if dry.vms == wet.vms {
      Subsets(wet.ips, dry.ips);
    }
    Subsets(wet.cables, dry.cables);
  }

  lemma Subsets(a: set<Id>, b: set<Id>)
    requires a <= b
    ensures |a| == |b| <==> a == b
  {
    assert b == a + (b - a);
  }

  /** The real run removes at most the guests a dry run counts. */
  lemma VmsAgree(s: Store, f: Filter, now: real, protective: bool)
    ensures Plan(s, f, now, false).vms <= VmsToGo(s, f, now) == Plan(s, f, now, true).vms
    ensures !protective ==>
              (Plan(s, f, now, false).vms == Plan(s, f, now, true).vms <==> PinsHarmless(s, f, now, false))
    ensures Completes(s, f, now, true) ==> Plan(s, f, now, false).vms == Plan(s, f, now, true).vms
    ensures !protective ==> Completes(s, f, now, protective)
  {
    var devices := DevicesToGo(s, f, now);
    var mid := Without(s, Parents(s, devices, {}));
    forall v | v in s.vms
      ensures v in VmsToGo(mid, f, now) <==>
                v in VmsToGo(s, f, now) && (f.site in {None, Some(NO_SITE)} || !PinnedToAny(s.vms[v], devices))
    {
      GuestIsSited(s, f, now, v);
    }
    assert forall v | v in VmsToGo(mid, f, now) :: v in s.vms;
    forall v | v in s.vms && PinnedToAny(s.vms[v], devices) ensures !Completes(s, f, now, true) {
      assert Pinned(s, s.vms[v].device.value);
    }
    hide Without, DevicesToGo, Completes;
  }

  /** The site of a guest that is left: as before, unless its device was removed. */
  lemma GuestIsSited(s: Store, f: Filter, now: real, v: Id)
    requires v in s.vms
    ensures var devices := DevicesToGo(s, f, now);
            v in VmsToGo(Without(s, Parents(s, devices, {})), f, now) <==>
              v in VmsToGo(s, f, now) && (f.site in {None, Some(NO_SITE)} || !PinnedToAny(s.vms[v], devices))
  {
    var devices := DevicesToGo(s, f, now);
    var mid := Without(s, Parents(s, devices, {}));
    assert v in mid.vms && mid.vms[v] == Detached(s.vms[v], devices);
    assert mid.vms[v].tags == s.vms[v].tags && mid.vms[v].lastSeen == s.vms[v].lastSeen;
    assert VmSite(mid, mid.vms[v]) == if PinnedToAny(s.vms[v], devices) then NO_SITE else VmSite(s, s.vms[v]);
    assert PinnedToAny(s.vms[v], devices) ==> InSite(f, VmSite(s, s.vms[v]));
    GuestGoes(s, f, now, v);
    GuestGoes(mid, f, now, v);
    hide Without, VmSite, Detached, Fits, DevicesToGo, VmsToGo, PinnedToAny;
  }

  lemma GuestGoes(s: Store, f: Filter, now: real, v: Id)
    requires v in s.vms
    ensures v in VmsToGo(s, f, now) <==>
              && Vms in f.kinds && MANAGED in s.vms[v].tags && InSite(f, VmSite(s, s.vms[v]))
              && Fits(f, s.vms[v].tags, s.vms[v].lastSeen, now)
  {
  }

  /** If the guests agree, the real run removes at most the addresses a dry run counts. */
  lemma IpsAgree(s: Store, f: Filter, now: real)
    requires Plan(s, f, now, false).vms == Plan(s, f, now, true).vms
    ensures Plan(s, f, now, false).ips <= Plan(s, f, now, true).ips
    ensures Plan(s, f, now, false).ips == Plan(s, f, now, true).ips <==> SitesUnmistaken(s, f, now)
  {
    var devices, vms := DevicesToGo(s, f, now), VmsToGo(s, f, now);
    var on := IpsOn(s, devices, vms);
    RestAreSited(s, f, now, vms);
    assert Plan(s, f, now, true).ips == on + IpsToGo(s, f, now);
    assert Plan(s, f, now, false).ips == on + IpsToGo(Without(s, Batch(devices, vms, on, {})), f, now);
    assert forall i | i in IpsToGo(s, f, now) :: i in s.ips && (i in on || !IsOnVm(s.ips[i].place, vms));
    hide IpsToGo, Without, DevicesToGo, VmsToGo, Plan;
  }

  /** Which addresses that are left match once devices and guests are gone. */
  lemma RestAreSited(s: Store, f: Filter, now: real, vms: set<Id>)
    ensures var devices := DevicesToGo(s, f, now);
            var on := IpsOn(s, devices, vms);
            var mid := Without(s, Batch(devices, vms, on, {}));
            && (forall i | i in IpsToGo(mid, f, now) :: i in s.ips && i !in on)
            && (forall i | i in s.ips && i !in on ::
                  i in IpsToGo(mid, f, now) <==>
                    i in IpsToGo(s, f, now) && (f.site in {None, Some(UNASSIGNED)} || !IsOnVm(s.ips[i].place, devices)))
  {
    var devices := DevicesToGo(s, f, now);
    forall i | i in s.ips && i !in IpsOn(s, devices, vms)
      ensures i in IpsToGo(Without(s, Batch(devices, vms, IpsOn(s, devices, vms), {})), f, now) <==>
                i in IpsToGo(s, f, now) && (f.site in {None, Some(UNASSIGNED)} || !IsOnVm(s.ips[i].place, devices))
    {
      RestIsSited(s, f, now, vms, i);
    }
  }

  /** The site of an address that is left: as before, unless its machine's id was that of a removed device. */
  lemma RestIsSited(s: Store, f: Filter, now: real, vms: set<Id>, i: Id)
    requires i in s.ips && i !in IpsOn(s, DevicesToGo(s, f, now), vms)
    ensures var devices := DevicesToGo(s, f, now);
            var mid := Without(s, Batch(devices, vms, IpsOn(s, devices, vms), {}));
            i in IpsToGo(mid, f, now) <==>
              i in IpsToGo(s, f, now) && (f.site in {None, Some(UNASSIGNED)} || !IsOnVm(s.ips[i].place, devices))
  {
    var devices := DevicesToGo(s, f, now);
    var mid := Without(s, Batch(devices, vms, IpsOn(s, devices, vms), {}));
    if MANAGED in s.ips[i].tags {
      var p := s.ips[i].place;
      assert i in mid.ips && mid.ips[i] == s.ips[i];
      assert IpSite(mid, p) == if IsOnVm(p, devices) then UNASSIGNED else IpSite(s, p);
      assert IsOnVm(p, devices) ==> InSite(f, IpSite(s, p));
    }
  }

  lemma CablesFewer(s: Store, f: Filter, now: real, b: Batch)
    requires b.cables == {} && b.devices == DevicesToGo(s, f, now)
    ensures CablesToGo(Without(s, b), f, now) <= CablesToGo(s, f, now)
    ensures CablesToGo(Without(s, b), f, now) == CablesToGo(s, f, now) <==> CablesGoAlone(s, f, now)
  {
  }

  /** All three do happen. First a cable of ours on a device of ours. */
  lemma CascadeMiscounts() returns (s: Store, f: Filter)
    ensures f.site.None? && CountsOf(Plan(s, f, 0.0, true)) != CountsOf(Plan(s, f, 0.0, false))
  {
    hide MANAGED;
    f := Filter({Devices, Cables}, None, None, false, None);
    s := Store(map[1 := Device("a", "x", {MANAGED}, Active, None, None, None)], map[],
               map[2 := Interface(1, "p")], map[], map[3 := Cable({2}, {MANAGED}, None)], map[], map[], 4);
    assert 1 in DevicesToGo(s, f, 0.0) && 3 in CablesToGo(s, f, 0.0) && 2 in s.cables[3].ends;
    assert EndsOn(s, 2, DevicesToGo(s, f, 0.0));
    DryRunAgrees(s, f, 0.0, false);
  }

  /** Then an address on virtual machine 1, which the dry run takes to be at the site of device 1. */
  lemma MistakenSiteMiscounts() returns (s: Store, f: Filter)
    ensures f.site.Some? && CountsOf(Plan(s, f, 0.0, true)) != CountsOf(Plan(s, f, 0.0, false))
  {
    hide MANAGED;
    f := Filter({Devices, Ips}, Some("x"), None, false, None);
    s := Store(map[1 := Device("a", "x", {MANAGED}, Active, None, None, None)], map[1 := Vm(None, {}, None)], map[],
               map[2 := Ip(Junk(""), {MANAGED}, OnVmInterface(3, 1), Info("", "", ""), None)], map[], map[], map[], 4);
    assert |"x"| != |UNASSIGNED|;
    assert 1 in DevicesToGo(s, f, 0.0);
    assert 2 in IpsToGo(s, f, 0.0) && IsOnVm(s.ips[2].place, DevicesToGo(s, f, 0.0));
    assert VmsToGo(s, f, 0.0) == {};
    DryRunAgrees(s, f, 0.0, false);
  }

  /**
   Then a guest of ours pinned to a device of ours: the dry run counts both, while the real
   run no longer finds the guest at the site, or does not get past the device at all.
   */
  lemma PinnedGuestMiscounts() returns (s: Store, f: Filter)
    ensures f.site.Some? && CountsOf(Plan(s, f, 0.0, true)) != CountsOf(Plan(s, f, 0.0, false))
    ensures !Completes(s, f, 0.0, true)
  {
    hide MANAGED;
    f := Filter({Devices, Vms}, Some("x"), None, false, None);
    s := Store(map[1 := Device("a", "x", {MANAGED}, Active, None, None, None)], map[2 := Vm(Some(1), {MANAGED}, None)],
               map[], map[], map[], map[], map[], 3);
    assert "x"[0] != NO_SITE[0];
    assert 1 in DevicesToGo(s, f, 0.0) && 2 in VmsToGo(s, f, 0.0);
    assert PinnedToAny(s.vms[2], DevicesToGo(s, f, 0.0));
    assert Pinned(s, 1);
    DryRunAgrees(s, f, 0.0, false);
  }

  /** Each count is the number of records that are gone; cables that went with a device are not counted. */
  lemma CountsAreRemovals(s: Store, f: Filter, now: real)
    ensures var t, counts := Without(s, Plan(s, f, now, false)), CountsOf(Plan(s, f, now, false));
            && |s.devices.Keys - t.devices.Keys| == counts.devices
            && |s.vms.Keys - t.vms.Keys| == counts.vms
            && |s.ips.Keys - t.ips.Keys| == counts.ips
            && |s.cables.Keys - t.cables.Keys| == counts.cables + |Cascaded(s, DevicesToGo(s, f, now))|
  {
    var b := Plan(s, f, now, false);
    VmsAgree(s, f, now, false);
    RestAreSited(s, f, now, b.vms);
    CablesApartFromCascade(s, f, now, Batch(b.devices, b.vms, b.ips, {}));
    hide Without;
    Removed(s, b);
    hide CablesToGo, Cascaded, Without, IpsToGo, IpsOn;
    UnionApart(b.cables, Cascaded(s, b.devices));
  }

  lemma UnionApart(a: set<Id>, b: set<Id>)
    requires a !! b
    ensures |a + b| == |a| + |b|
  {
  }

  /** The records that are gone are those of the batch, and the cables that went with a device. */
  lemma Removed(s: Store, b: Batch)
    requires b.devices <= s.devices.Keys && b.vms <= s.vms.Keys && b.ips <= s.ips.Keys && b.cables <= s.cables.Keys
    ensures var t := Without(s, b);
            && s.devices.Keys - t.devices.Keys == b.devices && s.vms.Keys - t.vms.Keys == b.vms
            && s.ips.Keys - t.ips.Keys == b.ips && s.cables.Keys - t.cables.Keys == b.cables + Cascaded(s, b.devices)
  {
  }

  function Cascaded(s: Store, devices: set<Id>): set<Id> {
    set c | c in s.cables && exists e | e in s.cables[c].ends :: EndsOn(s, e, devices)
  }

  lemma CablesApartFromCascade(s: Store, f: Filter, now: real, b: Batch)
    ensures CablesToGo(Without(s, b), f, now) !! Cascaded(s, b.devices)
    ensures CablesToGo(Without(s, b), f, now) <= s.cables.Keys
  {
  }

  /** The filter asks for the record: of this kind and site, ours, from the source, stale, and not seen for long. */
  ghost predicate Chosen(f: Filter, kind: Kind, site: string, tags: Tags, lastSeen: Option<real>, now: real) {
    && kind in f.kinds && "managed-netbox-monitor" in tags
    && (f.site.Some? ==> site == f.site.value)
    && (f.source.Some? ==> f.source.value in tags)
    && (f.onlyStale ==> "stale" in tags)
    && (f.notSeenDays.Some? ==>
          lastSeen.Some? && now - lastSeen.value >= f.notSeenDays.value as real * 86400.0)
  }

  lemma FitsIs(f: Filter, kind: Kind, site: string, tags: Tags, lastSeen: Option<real>, now: real)
    ensures Chosen(f, kind, site, tags, lastSeen, now) <==>
            kind in f.kinds && MANAGED in tags && InSite(f, site) && Fits(f, tags, lastSeen, now)
  {
    if f.notSeenDays.Some? && lastSeen.Some? {
      var age, n := now - lastSeen.value, f.notSeenDays.value as real;
      assert age == (age / 86400.0) * 86400.0;
    }
  }

  /** A guest is where its device is; one without a device, or whose device is gone, is at "—". */
  ghost predicate GuestAt(s: Store, gone: set<Id>, v: Vm, site: string) {
    if exists d | d in s.devices && d !in gone :: v.device == Some(d) then
      exists d | d in s.devices && d !in gone :: v.device == Some(d) && site == s.devices[d].site
    else site == "—"
  }

  /** An address is where the device of its interface is, or the device with the id of its guest; else "unassigned". */
  ghost predicate AddressAt(s: Store, gone: set<Id>, place: Place, site: string) {
    if exists d | d in s.devices && d !in gone :: LeadsTo(s, place, d) then
      exists d | d in s.devices && d !in gone :: LeadsTo(s, place, d) && site == s.devices[d].site
    else site == "unassigned"
  }

  ghost predicate LeadsTo(s: Store, place: Place, d: Id) {
    || (place.OnInterface? && place.iface in s.interfaces && s.interfaces[place.iface].device == d)
    || (place.OnVmInterface? && place.vm == d)
  }

  /** Which devices, guests, addresses and cables are removed, or in a dry run counted. */
  ghost predicate PlannedDevice(s: Store, f: Filter, now: real, d: Id) {
    d in s.devices && Chosen(f, Devices, s.devices[d].site, s.devices[d].tags, s.devices[d].lastSeen, now)
  }

  ghost predicate PlannedGuest(s: Store, f: Filter, now: real, gone: set<Id>, v: Id) {
    && v in s.vms
    && exists site | GuestAt(s, gone, s.vms[v], site) :: Chosen(f, Vms, site, s.vms[v].tags, s.vms[v].lastSeen, now)
  }

  ghost predicate PlannedAddress(s: Store, f: Filter, now: real, gone: set<Id>, i: Id) {
    && i in s.ips
    && exists site | AddressAt(s, gone, s.ips[i].place, site) ::
         Chosen(f, Ips, site, s.ips[i].tags, s.ips[i].lastSeen, now)
  }

  /** It sits on one of them. */
  ghost predicate SitsOn(s: Store, i: Id, devices: set<Id>, vms: set<Id>) {
    && i in s.ips && MANAGED in s.ips[i].tags
    && match s.ips[i].place
       case Nowhere => false
       case OnInterface(e) => e in s.interfaces && s.interfaces[e].device in devices
       case OnVmInterface(_, v) => v in vms
  }

  ghost predicate PlannedCable(s: Store, f: Filter, now: real, gone: set<Id>, c: Id) {
    && c in s.cables && f.site.None? && Chosen(f, Cables, "", s.cables[c].tags, s.cables[c].lastSeen, now)
    && forall e | e in s.cables[c].ends && e in s.interfaces :: s.interfaces[e].device !in gone
  }

  /** The plan, record by record: what is asked for, with our addresses on it, and no cable that goes along anyway. */
  ghost predicate PlanHolds(s: Store, f: Filter, now: real, dry: bool, b: Batch) {
    var gone := if dry then {} else b.devices;
    && (forall d :: d in b.devices <==> PlannedDevice(s, f, now, d))
    && (forall v :: v in b.vms <==> PlannedGuest(s, f, now, gone, v))
    && (forall i :: i in b.ips <==> SitsOn(s, i, b.devices, b.vms) || PlannedAddress(s, f, now, gone, i))
    && (forall c :: c in b.cables <==> PlannedCable(s, f, now, gone, c))
  }

  lemma DeviceChosen(s: Store, f: Filter, now: real)
    ensures forall d :: d in DevicesToGo(s, f, now) <==> PlannedDevice(s, f, now, d)
  {
    hide Fits, Chosen, InSite;
    forall d | d in s.devices ensures d in DevicesToGo(s, f, now) <==> PlannedDevice(s, f, now, d) {
      FitsIs(f, Devices, s.devices[d].site, s.devices[d].tags, s.devices[d].lastSeen, now);
    }
  }

  lemma GuestChosen(s: Store, f: Filter, now: real, b: Batch, gone: set<Id>, v: Id)
    requires b.vms == {} && b.devices == gone
    ensures v in VmsToGo(Without(s, b), f, now) <==> PlannedGuest(s, f, now, gone, v)
  {
    hide Fits, Chosen, InSite, ReleasedAll;
    if v in s.vms {
      var t, x := Without(s, b), s.vms[v];
      GuestSiteIs(s, b, x);
      assert v in t.vms && t.vms[v] == Detached(x, gone);
      FitsIs(f, Vms, VmSite(t, t.vms[v]), x.tags, x.lastSeen, now);
    }
  }

  lemma GuestSiteIs(s: Store, b: Batch, x: Vm)
    ensures forall site :: GuestAt(s, b.devices, x, site) <==> site == VmSite(Without(s, b), Detached(x, b.devices))
  {
    hide PlaceAfter, CableStays;
  }

  lemma AddressChosen(s: Store, f: Filter, now: real, b: Batch, i: Id)
    requires i in s.ips && i !in b.ips && !IsOnVm(s.ips[i].place, b.vms)
    ensures i in IpsToGo(Without(s, b), f, now) <==> PlannedAddress(s, f, now, b.devices, i)
  {
    hide Fits, Chosen, InSite, CableStays, IpSite;
    var t, x := Without(s, b), s.ips[i];
    AddressSiteIs(s, b, x.place);
    assert t.ips[i] == x.(place := PlaceAfter(s, x.place, b));
    FitsIs(f, Ips, IpSite(t, t.ips[i].place), x.tags, x.lastSeen, now);
  }

  lemma AddressSiteIs(s: Store, b: Batch, place: Place)
    requires !IsOnVm(place, b.vms)
    ensures forall site ::
              AddressAt(s, b.devices, place, site) <==> site == IpSite(Without(s, b), PlaceAfter(s, place, b))
  {
    hide CableStays;
  }

  lemma CableChosen(s: Store, f: Filter, now: real, b: Batch, c: Id)
    requires c !in b.cables
    ensures c in CablesToGo(Without(s, b), f, now) <==> PlannedCable(s, f, now, b.devices, c)
  {
    hide Fits, Chosen, InSite, PlaceAfter;
    if c in s.cables {
      InAnySite(f);
      FitsIs(f, Cables, "", s.cables[c].tags, s.cables[c].lastSeen, now);
    }
  }

  lemma InAnySite(f: Filter)
    ensures f.site.None? ==> InSite(f, "")
  {
  }

  lemma SitsOnIs(s: Store, devices: set<Id>, vms: set<Id>)
    ensures forall i :: i in IpsOn(s, devices, vms) <==> SitsOn(s, i, devices, vms)
  {
  }

  /** The plan of a cleanup holds exactly what the filter asks for. */
  lemma PlanIs(s: Store, f: Filter, now: real, dry: bool)
    ensures PlanHolds(s, f, now, dry, Plan(s, f, now, dry))
  {
    hide Without, VmsToGo, IpsToGo, CablesToGo, DevicesToGo, IpsOn, PlannedDevice, PlannedGuest, PlannedAddress,
         PlannedCable, SitsOn;
    var b := Plan(s, f, now, dry);
    var gone := if dry then {} else b.devices;
    NothingGone(s);
    NoneOn(s);
    DeviceChosen(s, f, now);
    SitsOnIs(s, b.devices, b.vms);
    var on := IpsOn(s, b.devices, b.vms);
    forall v ensures v in b.vms <==> PlannedGuest(s, f, now, gone, v) {
      GuestChosen(s, f, now, if dry then NOTHING else Parents(s, b.devices, {}), gone, v);
    }
    var late := if dry then NOTHING else Batch(b.devices, b.vms, on, {});
    forall i ensures i in b.ips <==> SitsOn(s, i, b.devices, b.vms) || PlannedAddress(s, f, now, gone, i) {
      OneAddress(s, f, now, late, b.devices, b.vms, i);
    }
    var last := if dry then NOTHING else Batch(b.devices, b.vms, b.ips, {});
    forall c ensures c in b.cables <==> PlannedCable(s, f, now, gone, c) {
      CableChosen(s, f, now, last, c);
    }
  }

  lemma OneAddress(s: Store, f: Filter, now: real, late: Batch, devices: set<Id>, vms: set<Id>, i: Id)
    requires late == NOTHING || late == Batch(devices, vms, IpsOn(s, devices, vms), {})
    ensures i in IpsOn(s, devices, vms) + IpsToGo(Without(s, late), f, now) <==>
            SitsOn(s, i, devices, vms) || PlannedAddress(s, f, now, late.devices, i)
  {
    hide Chosen, AddressAt;
    SitsOnIs(s, devices, vms);
    if i in s.ips && i !in late.ips && !IsOnVm(s.ips[i].place, late.vms) {
      AddressChosen(s, f, now, late, i);
    } else if i in s.ips && i !in late.ips {
      NotOurs(f, s.ips[i].tags, s.ips[i].lastSeen, now);
    }
  }

  lemma NotOurs(f: Filter, tags: Tags, lastSeen: Option<real>, now: real)
    requires MANAGED !in tags
    ensures forall kind, site :: !Chosen(f, kind, site, tags, lastSeen, now)
  {
  }

  /**
   What a cleanup removes is ours and what the filter asks for, sits on something of ours
   that is, or is a cable on such a device. Addresses that are not ours lose at most their
   place.
   */
  lemma OnlyOurs(s: Store, f: Filter, now: real)
    ensures var t := Without(s, Plan(s, f, now, false));
            && (forall d | d in s.devices && d !in t.devices :: PlannedDevice(s, f, now, d))
            && (forall v | v in s.vms && v !in t.vms :: PlannedGuest(s, f, now, s.devices.Keys - t.devices.Keys, v))
            && (forall i | i in s.ips && i !in t.ips ::
                  && MANAGED in s.ips[i].tags
                  && (|| SitsOn(s, i, s.devices.Keys - t.devices.Keys, s.vms.Keys - t.vms.Keys)
                      || PlannedAddress(s, f, now, s.devices.Keys - t.devices.Keys, i)))
            && (forall c | c in s.cables && c !in t.cables ::
                  || c in Cascaded(s, s.devices.Keys - t.devices.Keys)
                  || PlannedCable(s, f, now, s.devices.Keys - t.devices.Keys, c))
            && (forall i | i in t.ips :: i in s.ips && t.ips[i] == s.ips[i].(place := t.ips[i].place))
  {
    var b := Plan(s, f, now, false);
    PlanIs(s, f, now, false);
    hide Plan, PlannedDevice, PlannedGuest, PlannedAddress, PlannedCable, SitsOn, CableStays;
    var t := Without(s, b);
    WithinStore(s, f, now, b);
    assert s.devices.Keys - t.devices.Keys == b.devices;
    assert s.vms.Keys - t.vms.Keys == b.vms;
    OursAlone(s, f, now, b);
    CablesGoneBy(s, b);
  }

  lemma WithinStore(s: Store, f: Filter, now: real, b: Batch)
    requires PlanHolds(s, f, now, false, b)
    ensures b.devices <= s.devices.Keys && b.vms <= s.vms.Keys && b.ips <= s.ips.Keys && b.cables <= s.cables.Keys
  {
    hide Chosen, GuestAt, AddressAt;
  }

  lemma OursAlone(s: Store, f: Filter, now: real, b: Batch)
    requires PlanHolds(s, f, now, false, b)
    ensures forall i | i in b.ips :: i in s.ips && MANAGED in s.ips[i].tags
  {
    hide GuestAt, AddressAt, PlannedGuest, PlannedCable, PlannedDevice;
  }

  lemma CablesGoneBy(s: Store, b: Batch)
    ensures forall c | c in s.cables && c !in Without(s, b).cables :: c in b.cables || c in Cascaded(s, b.devices)
  {
  }

  /** Nothing is left for a second run at the same time. */
  lemma SecondRunFindsNothing(s: Store, f: Filter, now: real)
    ensures Plan(Without(s, Plan(s, f, now, false)), f, now, false) == NOTHING
  {
    var b := Plan(s, f, now, false);
    var t := Without(s, b);
    assert DevicesToGo(t, f, now) == {};
    NoneOn(t);
    NothingGone(t);
    NoGuestsLeft(s, f, now);
    NoIpsLeft(s, f, now);
    assert IpsToGo(t, f, now) == {};
    NoCablesLeft(s, f, now, Batch(b.devices, b.vms, b.ips, {}), b);
    hide IpsToGo, CablesToGo, DevicesToGo, VmsToGo, Without;
  }

  lemma NoGuestsLeft(s: Store, f: Filter, now: real)
    ensures VmsToGo(Without(s, Plan(s, f, now, false)), f, now) == {}
  {
    var b := Plan(s, f, now, false);
    var t, mid := Without(s, b), Without(s, Parents(s, b.devices, {}));
    forall v | v in t.vms ensures v !in VmsToGo(t, f, now) {
      assert v in mid.vms && mid.vms[v] == t.vms[v];
      assert VmSite(t, t.vms[v]) == VmSite(mid, mid.vms[v]);
      assert v !in VmsToGo(mid, f, now);
    }
  }

  lemma NoCablesLeft(s: Store, f: Filter, now: real, late: Batch, b: Batch)
    requires b == late.(cables := CablesToGo(Without(s, late), f, now)) && late.cables == {}
    ensures CablesToGo(Without(s, b), f, now) == {}
  {
  }

  lemma SitesAlike(s: Store, b: Batch, c: Batch, p: Place)
    requires b.devices == c.devices
    ensures IpSite(Without(s, b), p) == IpSite(Without(s, c), p)
  {
  }

  lemma NoIpsLeft(s: Store, f: Filter, now: real)
    ensures var t := Without(s, Plan(s, f, now, false)); IpsToGo(t, f, now) == {}
  {
    var b := Plan(s, f, now, false);
    var t := Without(s, b);
    var mid := Without(s, Batch(b.devices, b.vms, IpsOn(s, b.devices, b.vms), {}));
    forall i | i in t.ips && MANAGED in t.ips[i].tags ensures i !in IpsToGo(t, f, now) {
      assert i in mid.ips && mid.ips[i] == s.ips[i] == t.ips[i];
      SitesAlike(s, Batch(b.devices, b.vms, IpsOn(s, b.devices, b.vms), {}), b, s.ips[i].place);
      assert i !in IpsToGo(mid, f, now);
      hide Without, Plan, IpSite, IpsOn;
    }
  }
}
