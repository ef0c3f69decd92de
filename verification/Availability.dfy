/**
 The availability monitor (availability.py:71-175, state.py:56-107): its state is spread
 over the host_state table, the kv table and the tags of the NetBox device.

 `Step` is one check of one host, `Replay` a whole history of checks; the laws relate
 the three copies of the state to the history alone.
 */
module Availability {
  import opened Prelude
  import opened NetBoxStore

  // --------------------------------------------------------------- tables

  datatype Row = Row(lastSeen: Option<real>, lastChecked: real, isUp: bool, isStale: bool)

  /** The two families of kv keys the monitor uses for the host key of a device. */
  datatype KvKey = FirstDown(device: Id) | LastSeenWrite(device: Id)

  function Find<K, V>(m: map<K, V>, k: K): Option<V> {
    if k in m then Some(m[k]) else None
  }

  /** state.py:66-82. */
  function Recorded(prev: Option<Row>, up: bool, now: real): Row {
    Row(if up then Some(now) else if prev.Some? then prev.value.lastSeen else None,
        now, up, !up && prev.Some? && prev.value.isStale)
  }

  class StateDb {
    var hosts: map<Id, Row>
    var kv: map<KvKey, real>

    constructor ()
      ensures hosts == map[] && kv == map[]
    {
      hosts, kv := map[], map[];
    }

    method RecordCheck(id: Id, up: bool, now: real) returns (row: Row)
      modifies `hosts
      ensures row == Recorded(Find(old(hosts), id), up, now) && hosts == old(hosts)[id := row]
    {
      var prev := Find(hosts, id);
      var lastSeen := if up then Some(now) else if prev.Some? then prev.value.lastSeen else None;
      var isStale := if prev.Some? then prev.value.isStale else false;
      if up {
        isStale := false;
      }
      row := Row(lastSeen, now, up, isStale);
      hosts := hosts[id := row];
    }

    /** An UPDATE: without a row nothing happens. */
    method SetStale(id: Id, stale: bool)
      modifies `hosts
      ensures hosts == if id in old(hosts) then old(hosts)[id := old(hosts)[id].(isStale := stale)] else old(hosts)
    {
      if id in hosts {
        hosts := hosts[id := hosts[id].(isStale := stale)];
      }
    }

    method ForgetHost(id: Id)
      modifies `hosts
      ensures hosts == old(hosts) - {id}
    {
      hosts := hosts - {id};
    }

    method SetKv(k: KvKey, v: real)
      modifies `kv
      ensures kv == old(kv)[k := v]
    {
      kv := kv[k := v];
    }

    method DeleteKv(k: KvKey)
      modifies `kv
      ensures kv == old(kv) - {k}
    {
      kv := kv - {k};
    }
  }

  // ------------------------------------------------------ one host, one check

  datatype Config = Config(staleAfter: real, graceDays: Option<int>)

  const WRITE_INTERVAL: real := 900.0

  /** Everything the program remembers about a host; `shown` is the last_seen field of its device. */
  datatype View =
    | Gone
    | Live(row: Option<Row>, marker: Option<real>, lastWrite: Option<real>, stale: bool, status: Status, scanned: bool,
           shown: Option<real>)

  /** `last_seen` as the down handler tests it: a zero timestamp counts as never. */
  function Seen(row: Row): Option<real> {
    if row.lastSeen == Some(0.0) then None else row.lastSeen
  }

  predicate GraceOver(cfg: Config, row: Row, now: real) {
    && cfg.graceDays.Some? && cfg.graceDays.value != 0
    && row.lastSeen.Some? && now - row.lastSeen.value >= cfg.graceDays.value as real * 86400.0
  }

  function Up(v: View, row: Row, now: real): View
    requires v.Live?
  {
    if v.stale then v.(row := Some(row), marker := None, stale := false, status := Active, shown := Some(now))
    else
      var write := v.lastWrite.None? || now - v.lastWrite.value > WRITE_INTERVAL;
      v.(row := Some(row), marker := None, lastWrite := if write then Some(now) else v.lastWrite,
         shown := if write then Some(now) else v.shown)
  }

  function Down(cfg: Config, v: View, row: Row, now: real): View
    requires v.Live?
  {
    var seen := v.(row := Some(row));
    var tagged := v.(row := Some(row.(isStale := true)), stale := true, status := Offline);
    if v.stale then if v.scanned && GraceOver(cfg, row, now) then Gone else seen
    else
      match Seen(row)
      case Some(t) => if now - t < cfg.staleAfter then seen else tagged
      case None =>
        match v.marker
        case None => seen.(marker := Some(now))
        case Some(m) => if now - m < cfg.staleAfter then seen else tagged
  }

  datatype Check = Check(up: bool, t: real)

  function Step(cfg: Config, v: View, c: Check): View {
    if v.Gone? then Gone
    else
      var row := Recorded(v.row, c.up, c.t);
      if c.up then Up(v, row, c.t) else Down(cfg, v, row, c.t)
  }

  // ------------------------------------------------------------- the monitor

  /** The primary address of the device, made by the scan. */
  ghost predicate ScanMadePrimary(s: Store, device: Id, ip: Id) {
    && device in s.devices && s.devices[device].primary4 == Some(ip)
    && ip in s.ips && "managed-netbox-monitor" in s.ips[ip].tags && "src-scan" in s.ips[ip].tags
  }

  datatype PingResult = PingResult(device: Id, alive: bool)

  class Monitor {
    const nb: NetBox
    const db: StateDb
    const cfg: Config

    constructor (nb: NetBox, db: StateDb, cfg: Config)
      ensures this.nb == nb && this.db == db && this.cfg == cfg
    {
      this.nb, this.db, this.cfg := nb, db, cfg;
    }

    function ViewOf(id: Id): View
      reads nb, db
    {
      if id !in nb.devices then Gone
      else
        var d := nb.devices[id];
        Live(Find(db.hosts, id), Find(db.kv, FirstDown(id)), Find(db.kv, LastSeenWrite(id)),
             STALE in d.tags, d.status, SRC_SCAN in d.tags, d.lastSeen)
    }

    /** A check of one host leaves every other host's records, tags and status alone. */
    twostate predicate OthersKept(id: Id)
      reads nb, db
    {
      && (forall d | d != id :: ViewOf(d) == old(ViewOf(d)))
      && (forall d | d != id && d in old(nb.devices) ::
          d in nb.devices && nb.devices[d].tags == old(nb.devices[d].tags))
      && (id in nb.devices && id in old(nb.devices) ==>
            nb.devices[id].tags - {STALE} == old(nb.devices[id].tags) - {STALE})
    }

    /** availability.py:84-103. */
    method HandleUp(id: Id, now: real)
      requires id in nb.devices
      modifies nb`devices, db`kv
      ensures nb.dryRun ==> nb.State() == old(nb.State())
      ensures !nb.dryRun && id in db.hosts ==> ViewOf(id) == Up(old(ViewOf(id)), db.hosts[id], now)
      ensures OthersKept(id)
    {
      db.DeleteKv(FirstDown(id));
      if STALE in nb.devices[id].tags {
        var _ := nb.UpdateDevice(id, nb.devices[id].(tags := nb.devices[id].tags - {STALE}));
        var _ := nb.UpdateDevice(id, nb.devices[id].(status := Active));
        var _ := nb.UpdateDevice(id, nb.devices[id].(lastSeen := Some(now)));
        return;
      }
      var lastWrite := Find(db.kv, LastSeenWrite(id));
      if lastWrite.None? || now - lastWrite.value > WRITE_INTERVAL {
        var _ := nb.UpdateDevice(id, nb.devices[id].(lastSeen := Some(now)));
        db.SetKv(LastSeenWrite(id), now);
      }
    }

    /** availability.py:143-170; the primary address goes only if the scan created it. */
    method MaybeGraceDelete(id: Id, now: real)
      requires id in nb.devices && id in db.hosts && MANAGED in nb.devices[id].tags
      modifies nb, db`hosts
      ensures nb.dryRun ==> nb.State() == old(nb.State())
      ensures !nb.dryRun ==>
                if SRC_SCAN in old(nb.devices[id].tags) && GraceOver(cfg, old(db.hosts[id]), now)
                then id !in nb.devices && id !in db.hosts
                else nb.State() == old(nb.State()) && db.hosts == old(db.hosts)
      ensures OthersKept(id)
      ensures forall i | i in old(nb.ips) ::
                i !in nb.ips <==> id !in nb.devices && ScanMadePrimary(old(nb.State()), id, i)
    {
      var lastSeen := db.hosts[id].lastSeen;
      if cfg.graceDays.None? || cfg.graceDays.value == 0 || lastSeen.None? {
        return;
      }
      var device := nb.devices[id];
      if SRC_SCAN !in device.tags {
        return;
      }
      if now - lastSeen.value < cfg.graceDays.value as real * 86400.0 {
        return;
      }
      if device.primary4.Some? && device.primary4.value in nb.ips
         && IsManaged(nb.ips[device.primary4.value].tags, Some(SRC_SCAN)) {
        var ip := device.primary4.value;
        var _ := nb.DeleteIp(ip, nb.ips[ip].tags, Some(SRC_SCAN));
      }
      var _ := nb.DeleteDevice(id, device.tags, Some(SRC_SCAN));
      db.ForgetHost(id);
    }

    /** availability.py:105-141. */
    method HandleDown(id: Id, now: real)
      requires id in nb.devices && id in db.hosts && MANAGED in nb.devices[id].tags
      modifies nb, db
      ensures nb.dryRun ==> nb.State() == old(nb.State())
      ensures !nb.dryRun ==> ViewOf(id) == Down(cfg, old(ViewOf(id)), old(db.hosts[id]), now)
      ensures OthersKept(id)
      ensures forall i | i in old(nb.ips) ::
                i !in nb.ips <==> id !in nb.devices && ScanMadePrimary(old(nb.State()), id, i)
    {
      if STALE in nb.devices[id].tags {
        MaybeGraceDelete(id, now);
        return;
      }
      var seen := Seen(db.hosts[id]);
      if seen.Some? && now - seen.value < cfg.staleAfter {
        return;
      }
      if seen.None? {
        var marker := Find(db.kv, FirstDown(id));
        if marker.None? {
          db.SetKv(FirstDown(id), now);
          return;
        }
        if now - marker.value < cfg.staleAfter {
          return;
        }
      }
      var _ := nb.UpdateDevice(id, nb.devices[id].(tags := nb.devices[id].tags + {STALE}));
      var _ := nb.UpdateDevice(id, nb.devices[id].(status := Offline));
      db.SetStale(id, true);
    }

    /** One round of the loop of `run` (availability.py:72-81). */
    method CheckHost(id: Id, alive: bool, now: real)
      requires id in nb.devices && MANAGED in nb.devices[id].tags
      modifies nb, db
      ensures nb.dryRun ==> nb.State() == old(nb.State())
      ensures !nb.dryRun ==> ViewOf(id) == Step(cfg, old(ViewOf(id)), Check(alive, now))
      ensures OthersKept(id)
      ensures forall i | i in old(nb.ips) ::
                i !in nb.ips <==> id !in nb.devices && ScanMadePrimary(old(nb.State()), id, i)
    {
      var _ := db.RecordCheck(id, alive, now);
      if alive {
        HandleUp(id, now);
      } else {
        HandleDown(id, now);
      }
    }

    /** A whole pass: every pinged host takes exactly one step, every other host none. */
    method Sweep(results: seq<PingResult>, now: real)
      requires forall i | 0 <= i < |results| ::
                 results[i].device in nb.devices && MANAGED in nb.devices[results[i].device].tags
      requires forall i, j | 0 <= i < j < |results| :: results[i].device != results[j].device
      modifies nb, db
      ensures nb.dryRun ==> nb.State() == old(nb.State())
      ensures !nb.dryRun ==> forall i | 0 <= i < |results| ::
                ViewOf(results[i].device) == Step(cfg, old(ViewOf(results[i].device)), Check(results[i].alive, now))
      ensures forall d | (forall i | 0 <= i < |results| :: results[i].device != d) :: ViewOf(d) == old(ViewOf(d))
    {
      for k := 0 to |results|
        invariant nb.dryRun ==> nb.State() == old(nb.State())
        invariant forall i | k <= i < |results| ::
          results[i].device in nb.devices && MANAGED in nb.devices[results[i].device].tags
        invariant !nb.dryRun ==> forall i | 0 <= i < k ::
          ViewOf(results[i].device) == Step(cfg, old(ViewOf(results[i].device)), Check(results[i].alive, now))
        invariant forall d | (forall i | 0 <= i < k :: results[i].device != d) :: ViewOf(d) == old(ViewOf(d))
      {
        hide Step;
        CheckHost(results[k].device, results[k].alive, now);
      }
    }
  }

  // ---------------------------------------------------------- whole histories

  /** A fresh device: no rows, no tag. */
  function Fresh(scanned: bool): View {
    Live(None, None, None, false, Active, scanned, None)
  }

  function Replay(cfg: Config, scanned: bool, h: seq<Check>): View
    decreases |h|
  {
    if h == [] then Fresh(scanned)
    else Step(cfg, Replay(cfg, scanned, h[..|h| - 1]), h[|h| - 1])
  }

  /** The time of the last successful check. */
  function LastSuccess(h: seq<Check>): Option<real>
    decreases |h|
  {
    if h == [] then None
    else if h[|h| - 1].up then Some(h[|h| - 1].t)
    else LastSuccess(h[..|h| - 1])
  }

  /**
   When a host is stale, from its history alone: it is down now, and has been for at
   least stale_after since its last success, or since the first check if it never had one.
   */
  predicate IsStale(cfg: Config, h: seq<Check>) {
    && h != [] && !h[|h| - 1].up
    && h[|h| - 1].t - (if LastSuccess(h).Some? then LastSuccess(h).value else h[0].t) >= cfg.staleAfter
  }

  ghost predicate Clocked(h: seq<Check>) {
    && (forall i | 0 <= i < |h| :: h[i].t > 0.0)
    && (forall i, j | 0 <= i < j < |h| :: h[i].t <= h[j].t)
  }

  lemma {:induction false} LastSuccessPast(h: seq<Check>)
    requires Clocked(h) && LastSuccess(h).Some?
    ensures h != [] && 0.0 < LastSuccess(h).value <= h[|h| - 1].t
    decreases |h|
  {
    if !h[|h| - 1].up {
      LastSuccessPast(h[..|h| - 1]);
    }
  }

  /**
   The stale tag, the database flag, the device status and the history agree, and the
   first-down marker stands exactly while the host has never answered.
   */
  lemma {:induction false} StateFollowsHistory(cfg: Config, scanned: bool, h: seq<Check>)
    requires Clocked(h) && cfg.staleAfter > 0.0
    requires Replay(cfg, scanned, h).Live?
    ensures var v := Replay(cfg, scanned, h);
            && v.stale == IsStale(cfg, h)
            && v.status == (if v.stale then Offline else Active)
            && v.row.Some? == (h != [])
            && (h != [] ==> v.row.value.isStale == v.stale && v.row.value.lastSeen == LastSuccess(h)
                            && v.row.value.lastChecked == h[|h| - 1].t && v.row.value.isUp == h[|h| - 1].up)
            && v.marker == (if h != [] && LastSuccess(h).None? then Some(h[0].t) else None)
            && v.scanned == scanned
    decreases |h|
  {
    if h != [] {
      var prev := h[..|h| - 1];
      StateFollowsHistory(cfg, scanned, prev);
      if LastSuccess(prev).Some? {
        LastSuccessPast(prev);
      }
    }
  }

  /** The time shown in NetBox is that of some answer, and behind the last one by 900 seconds at most. */
  lemma {:induction false} ShownLagsLittle(cfg: Config, scanned: bool, h: seq<Check>)
    requires Clocked(h) && cfg.staleAfter > 0.0
    requires Replay(cfg, scanned, h).Live?
    ensures var v := Replay(cfg, scanned, h);
            && v.shown.Some? == LastSuccess(h).Some?
            && (v.shown.Some? ==>
                  && 0.0 <= LastSuccess(h).value - v.shown.value <= 900.0
                  && exists i | 0 <= i < |h| :: h[i].up && v.shown == Some(h[i].t))
            && (v.lastWrite.Some? ==> v.shown.Some? && v.lastWrite.value <= v.shown.value)
    decreases |h|
  {
    if h != [] {
      var prev, c := h[..|h| - 1], h[|h| - 1];
      ShownLagsLittle(cfg, scanned, prev);
      var v := Replay(cfg, scanned, prev);
      if LastSuccess(prev).Some? {
        LastSuccessPast(prev);
      }
      ShownStep(cfg, v, c, LastSuccess(prev));
      hide Step, Clocked;
      if v.shown.Some? {
        var i :| 0 <= i < |prev| && prev[i].up && v.shown == Some(prev[i].t);
        assert h[i] == prev[i];
      }
    }
  }

  lemma ShownStep(cfg: Config, v: View, c: Check, last: Option<real>)
    requires v.Live? && Step(cfg, v, c).Live? && v.shown.Some? == last.Some?
    requires v.shown.Some? ==> 0.0 <= last.value - v.shown.value <= 900.0 && last.value <= c.t
    requires v.lastWrite.Some? ==> v.shown.Some? && v.lastWrite.value <= v.shown.value
    ensures var u, now := Step(cfg, v, c), if c.up then Some(c.t) else last;
            && u.shown.Some? == now.Some?
            && (u.shown.Some? ==> 0.0 <= now.value - u.shown.value <= 900.0)
            && (u.lastWrite.Some? ==> u.shown.Some? && u.lastWrite.value <= u.shown.value)
            && (u.shown == v.shown || (c.up && u.shown == Some(c.t)))
  {
  }

  /** And it is written only when a host recovers, or 900 seconds after the last time. */
  lemma ShownRarely(cfg: Config, v: View, c: Check)
    requires v.Live? && Step(cfg, v, c).Live? && Step(cfg, v, c).shown != v.shown
    ensures c.up && (v.stale || v.lastWrite.None? || c.t - v.lastWrite.value > 900.0)
    ensures !v.stale ==> Step(cfg, v, c).lastWrite == Some(c.t)
  {
  }

  /**
   A host is deleted exactly when it was already stale before this check, does not
   answer, came from a scan, has answered at least once, and its last answer is at
   least the grace period old.
   */
  lemma GraceDeletionIff(cfg: Config, scanned: bool, h: seq<Check>, c: Check)
    requires Clocked(h + [c]) && cfg.staleAfter > 0.0
    requires Replay(cfg, scanned, h).Live?
    ensures Replay(cfg, scanned, h + [c]).Gone? <==>
            && IsStale(cfg, h) && !c.up && scanned
            && cfg.graceDays.Some? && cfg.graceDays.value != 0
            && LastSuccess(h).Some? && c.t - LastSuccess(h).value >= cfg.graceDays.value as real * 86400.0
  {
    ClockedPrefix(h, c);
    StateFollowsHistory(cfg, scanned, h);
    ReplayAppend(cfg, scanned, h, c);
    hide Replay, IsStale, LastSuccess, Clocked;
    GoneIff(cfg, Replay(cfg, scanned, h), c);
  }

  lemma ClockedPrefix(h: seq<Check>, c: Check)
    requires Clocked(h + [c])
    ensures Clocked(h)
  {
    assert forall i | 0 <= i < |h| :: (h + [c])[i] == h[i];
  }

  lemma ReplayAppend(cfg: Config, scanned: bool, h: seq<Check>, c: Check)
    ensures Replay(cfg, scanned, h + [c]) == Step(cfg, Replay(cfg, scanned, h), c)
  {
    assert (h + [c])[..|h|] == h;
  }

  lemma GoneIff(cfg: Config, v: View, c: Check)
    requires v.Live?
    ensures Step(cfg, v, c).Gone? <==> !c.up && v.stale && v.scanned && GraceOver(cfg, Recorded(v.row, false, c.t), c.t)
  {
  }

  /** A host that has never answered is never deleted, however long it is down. */
  lemma {:induction false} NeverSeenNeverDeleted(cfg: Config, scanned: bool, h: seq<Check>)
    requires Clocked(h) && cfg.staleAfter > 0.0
    requires forall i | 0 <= i < |h| :: !h[i].up
    ensures Replay(cfg, scanned, h).Live? && LastSuccess(h) == None
    decreases |h|
  {
    if h != [] {
      var prev := h[..|h| - 1];
      NeverSeenNeverDeleted(cfg, scanned, prev);
      assert prev + [h[|h| - 1]] == h;
      GraceDeletionIff(cfg, scanned, prev, h[|h| - 1]);
    }
  }

  /** One answer clears everything a stale spell left behind. */
  lemma RecoveryForgets(cfg: Config, scanned: bool, h: seq<Check>, c: Check)
    requires Clocked(h + [c]) && cfg.staleAfter > 0.0 && c.up
    requires Replay(cfg, scanned, h).Live?
    ensures var v := Replay(cfg, scanned, h + [c]);
            && v.Live? && !v.stale && v.status == Active && v.marker == None
            && v.row == Some(Row(Some(c.t), c.t, true, false))
  {
    assert (h + [c])[..|h|] == h;
    StateFollowsHistory(cfg, scanned, h + [c]);
  }
}
