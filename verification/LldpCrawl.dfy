/**
 The seed-and-crawl loop (lldp.py:190-309): whatever the switches answer, it ends, calls
 on every host politely, walks breadth first, leaves no reachable switch out, and
 keeps the inventory safe throughout.
 */
module LldpCrawl {
  import opened Prelude
  import opened Networks
  import opened NetBoxStore
  import opened Common
  import opened LldpNeighbors
  import opened LldpSafety
  import opened LldpDedup
  import opened LldpTopology
  import opened LldpAttempts
  import opened CrawlLog
  import opened CrawlBooks

  // ---------------------------------------------------- the queue and the log

  ghost predicate Tracks(queue: seq<Target>, log: seq<Entry>, popped: nat) {
    |log| == popped + |queue| && forall i | 0 <= i < |queue| :: queue[i] == TargetOf(log[popped + i])
  }

  ghost predicate InOrder(queue: seq<Target>, log: seq<Entry>, popped: nat, visited: set<Host>, maxDepth: int) {
    Tracks(queue, log, popped) && Walk(log, popped, maxDepth) && Seen(log, popped, visited)
  }

  lemma InOrderBounds(queue: seq<Target>, log: seq<Entry>, popped: nat, visited: set<Host>, maxDepth: int)
    requires InOrder(queue, log, popped, visited, maxDepth)
    ensures popped <= |log| && Seen(log, popped, visited)
  {
  }

  ghost predicate HandlesOk(s: Store, queue: seq<Target>) {
    forall k | 0 <= k < |queue| && queue[k].device.Some? :: HandleOk(s, queue[k].device.value)
  }

  lemma HandlesStayOk(s: Store, t: Store, queue: seq<Target>)
    requires HandlesOk(s, queue) && Safe(s, t)
    ensures HandlesOk(t, queue)
  {
    forall k | 0 <= k < |queue| && queue[k].device.Some? ensures HandleOk(t, queue[k].device.value) {
      HandleStaysOk(s, t, queue[k].device.value);
    }
  }

  // --------------------------------------------------------- the inventory

  /** What the crawl keeps of the inventory, step by step. */
  ghost predicate Keeps(dryRun: bool, s: Store, t: Store) {
    Safe(s, t) && Linked(t) && (CablesApart(s) ==> CablesApart(t)) && (dryRun ==> t == s)
  }

  lemma KeepsSelf(dryRun: bool, s: Store)
    requires Linked(s)
    ensures Keeps(dryRun, s, s)
  {
    SafeSelf(s);
  }

  lemma KeepsLinked(dryRun: bool, s: Store, t: Store)
    requires Keeps(dryRun, s, t)
    ensures Linked(t)
  {
  }

  lemma KeepsTransitive(dryRun: bool, s: Store, t: Store, u: Store)
    requires Linked(s) && Keeps(dryRun, s, t) && Keeps(dryRun, t, u)
    ensures Keeps(dryRun, s, u)
  {
    SafeTransitive(s, t, u);
  }

  lemma FewerCables(dryRun: bool, s: Store, t: Store)
    requires Safe(s, t) && Linked(t) && t.cables.Keys <= s.cables.Keys && (dryRun ==> t == s)
    ensures Keeps(dryRun, s, t)
  {
    forall c | c in t.cables ensures c in s.cables && t.cables[c] == s.cables[c] {
      assert c in t.cables.Keys;
    }
  }

  lemma QuietKeeps(dryRun: bool, s: Store, t: Store)
    requires Quiet(s, t) && (dryRun ==> t == s)
    ensures Keeps(dryRun, s, t)
  {
    FewerCables(dryRun, s, t);
  }

  lemma DrawnKeeps(dryRun: bool, s: Store, t: Store, n: nat)
    requires Drawn(s, t, n) && (dryRun ==> t == s)
    ensures Keeps(dryRun, s, t)
  {
  }

  /** All the inventories there were so far, the present one last, and how each came from the one before. */
  ghost predicate Chronicle(history: seq<Store>, s: Store, dryRun: bool) {
    && history != [] && history[|history| - 1] == s
    && forall k: nat | k + 1 < |history| :: KeptAt(history, k, dryRun)
  }

  ghost predicate KeptAt(history: seq<Store>, k: nat, dryRun: bool) {
    k + 1 < |history| && Keeps(dryRun, history[k], history[k + 1])
  }

  lemma LastOf(history: seq<Store>, s: Store, dryRun: bool)
    requires Chronicle(history, s, dryRun)
    ensures history != [] && history[|history| - 1] == s
  {
  }

  lemma ChronicleOn(history: seq<Store>, s: Store, t: Store, dryRun: bool)
    requires Chronicle(history, s, dryRun) && Keeps(dryRun, s, t)
    ensures Chronicle(history + [t], t, dryRun)
  {
    hide Keeps;
    var next := history + [t];
    forall k: nat | k + 1 < |next| ensures KeptAt(next, k, dryRun) {
      if k + 1 < |history| {
        assert KeptAt(history, k, dryRun);
      }
    }
  }

  // ------------------------------------------------------------- the crawl

  class SiteCrawl {
    const cfg: Config
    const seeds: seq<Seed>
    const now: real
    const nb: NetBox
    const fabric: Fabric
    const cache: ComboCache
    /** How many requests had failed before the crawl. */
    ghost const start: nat
    var queue: seq<Target>
    var visitedIp: set<Host>
    var visitedMac: set<string>
    var polled: nat
    var created: nat
    var failed: nat
    ghost var log: seq<Entry>
    ghost var popped: nat
    ghost var visits: map<Host, Visit>
    ghost var history: seq<Store>

    function Facts(): Setting {
      Setting(seeds, cfg.site, nb.protective, now)
    }

    /** No request failed so far, and requests have effects. */
    ghost predicate Clean()
      reads nb
    {
      nb.faults == start && !nb.dryRun
    }

    ghost predicate Chronicled()
      reads this, nb
    {
      Chronicle(history, nb.State(), nb.dryRun) && start <= nb.faults && Linked(nb.State())
    }

    /** Nobody is in the log who was not reported. */
    ghost predicate Founded()
      reads this, nb
    {
      AllOrigins(log, visits, history, Facts(), Clean())
    }

    ghost predicate Traced()
      reads this, nb
    {
      popped <= |log| && AllMappedAs(log, popped, visits, history, Facts(), Clean())
    }

    ghost predicate Books()
      reads this, fabric
    {
      Ledger(fabric.calls, visits, polled, failed, cfg, nb.dryRun)
    }

    ghost predicate Ordered()
      reads this
    {
      InOrder(queue, log, popped, visitedIp, cfg.maxDepth) && visits.Keys == visitedIp
    }

    /** The MACs known are those the turns taught. */
    ghost predicate Taught()
      reads this
    {
      popped <= |log| && visitedMac == KnownMacs(log, popped, visits) && Sourced(log, popped, visits)
    }

    ghost predicate Ready()
      reads this, nb, fabric
    {
      Books() && Ordered() && Chronicled() && Founded() && HandlesOk(nb.State(), queue)
    }

    ghost predicate Valid()
      reads this, nb, fabric
    {
      Ready() && Taught() && Traced()
    }

    /** lldp.py:205-219. */
    constructor (cfg: Config, nb: NetBox, cache: ComboCache, seeds: seq<Seed>, now: real)
      requires Linked(nb.State()) && forall k | 0 <= k < |seeds| :: HandleOk(nb.State(), seeds[k].device)
      ensures Valid() && this.cfg == cfg && this.nb == nb && this.cache == cache && fresh(fabric)
      ensures this.seeds == seeds && this.now == now && start == nb.faults && history == [nb.State()]
      ensures popped == 0 && visitedIp == {} && polled == 0 && visits == map[]
      ensures forall h :: Logged(log, h) <==> exists k | 0 <= k < |seeds| :: seeds[k].primary == Some(h)
    {
      hide Linked, Walk, Ledger, Chronicle, AllOrigins, AllMappedAs, Sourced, KnownMacs, HandleOk, Logged, Seen;
      this.cfg, this.nb, this.cache, this.seeds, this.now := cfg, nb, cache, seeds, now;
      fabric := new Fabric();
      queue, visitedIp, visitedMac := [], {}, {};
      polled, created, failed := 0, 0, 0;
      log, popped, visits, history, start := [], 0, map[], [nb.State()], nb.faults;
      new;
      NothingYet(nb.State(), visits, history, Facts(), nb.dryRun, cfg, Clean());
      for k := 0 to |seeds|
        invariant Tracks(queue, log, 0) && HandlesOk(nb.State(), queue) && Founded()
        invariant forall i | 0 <= i < |log| :: log[i].depth == 0 && log[i].via.None?
        invariant forall h :: Logged(log, h) <==> exists i | 0 <= i < k :: seeds[i].primary == Some(h)
        invariant popped == 0 && visitedIp == {} && visitedMac == {} && visits == map[]
        invariant fabric.calls == [] && polled == failed == 0 && history == [nb.State()] && start == nb.faults
        invariant fresh(fabric) && this.cfg == cfg && this.nb == nb && this.cache == cache
        invariant this.seeds == seeds && this.now == now
      {
        if seeds[k].primary.Some? {
          var host := seeds[k].primary.value;
          ghost var e := Entry(host, 0, None, k, 0, Some(seeds[k].device), None, seeds[k].hint);
          queue := queue + [Target(host, Some(seeds[k].device), seeds[k].hint, 0, None)];
          LoggedAppend(log, e);
          SeedsGrow(log, e, visits, history, Facts(), Clean());
          log := log + [e];
        }
      }
      WalkStarts(log, cfg.maxDepth);
      NoTurnYet(log, visits, history, Facts(), Clean());
    }

    /** lldp.py:435-451: what is stored with a device, if that can be read. */
    method SecretsFor(device: Option<Handle>) returns (secret: Option<Cred>)
      ensures device.None? ==> secret.None?
      ensures secret.Some? ==>
                secret.value.driver.None? && (secret.value.username != "" || secret.value.community != "")
    {
      secret := *;
      if device.None? || (secret.Some? && secret.value.username == "" && secret.value.community == "") {
        return None;
      }
      if secret.Some? {
        var found := secret.value;
        secret := Some(Cred("netbox-secrets", None, found.username, found.password, found.community));
      }
    }

    /** The host answered, and that is all that was said to it so far. */
    ghost predicate HasAnswered(host: Host, how: Polled)
      reads this, fabric
    {
      && host in visits && visits[host].Heard?
      && visits[host] == Heard(visits[host].tries, how.neighbors, how.how, [], Cut(false))
      && Answered(Of(fabric.calls, host), host, cfg.maxAttempts, visits[host].tries.list, how.how, how.neighbors)
    }

    /** lldp.py:237-245. */
    method PollHost(target: Target) returns (r: Option<Polled>)
      requires Books() && target.host !in visits && target.host !in cfg.exclude
      modifies `polled, `failed, `visits, fabric, cache
      ensures Books()
      ensures Recorded(old(visits), visits, target.host)
      ensures Suggested(visits[target.host], target.hint)
      ensures if r.Some? then HasAnswered(target.host, r.value) else visits[target.host].Failed?
      ensures polled == old(polled) + (if r.Some? then 1 else 0)
    {
      hide Follows, Deduped, Candidates, Ledger, Distinct, Sparing, KeyOf, ComboOf, Of, Won;
      var cached := cache.Recall(target.host);
      var secret := SecretsFor(target.device);
      var attempts := BuildAttempts(cached, secret, cfg.profiles, target.hint);
      ghost var made;
      r, made := PollTarget(fabric, cache, target.host, attempts, cfg.maxAttempts);
      ghost var tries := Tries(attempts, cached, secret, target.hint);
      ghost var v := if r.Some? then Heard(tries, r.value.neighbors, r.value.how, [], Cut(false)) else Failed(tries);
      SparingAbout(made, target.host, cfg.maxAttempts);
      NothingBefore(old(fabric.calls), visits, polled, failed, cfg, nb.dryRun, target.host, made);
      LedgerOn(old(fabric.calls), visits, polled, failed, cfg, nb.dryRun, target.host, made, v);
      visits := visits[target.host := v];
      if r.Some? {
        polled := polled + 1;
      } else {
        failed := failed + 1;
      }
    }

    /** The inventory as it is now goes into the history. */
    ghost method Note(before: Store)
      requires Chronicle(history, before, nb.dryRun) && start <= nb.faults && Keeps(nb.dryRun, before, nb.State())
      modifies `history
      ensures Chronicled() && history == old(history) + [nb.State()]
    {
      hide Keeps, Chronicle, Linked;
      ChronicleOn(history, before, nb.State(), nb.dryRun);
      KeepsLinked(nb.dryRun, before, nb.State());
      history := history + [nb.State()];
    }

    /** lldp.py:247-260, 289-298: a host without a device gets one, if there is a site for it. */
    method Resolve(device: Option<Handle>, x: Sighting) returns (r: Outcome<Option<Handle>>)
      requires Chronicled() && (device.Some? ==> HandleOk(nb.State(), device.value))
      modifies `created, `history, nb
      ensures Explained(r, old(nb.faults), nb.faults)
      ensures Chronicled() && history == old(history) + [nb.State()]
      ensures Keeps(nb.dryRun, old(nb.State()), nb.State())
      ensures device.Some? ==> r == Ok(device) && nb.State() == old(nb.State())
      ensures r.Ok? && r.value.Some? ==> HandleOk(nb.State(), r.value.value)
      ensures r.Ok? && r.value.None? ==> cfg.site.None? || nb.dryRun
      ensures r.Ok? ==> created == old(created) + if nb.State() == old(nb.State()) then 0 else 1
      ensures r.Ok? && device.None? && nb.faults == old(nb.faults) && !nb.dryRun ==>
                Ensured(old(nb.State()), nb.State(), cfg.site, x, now, r.value)
    {
      hide Safe, Linked, Keeps, HandleOk, Quiet, Ensured, NewSwitch, Unsighted, Chronicle;
      ghost var s := nb.State();
      KeepsSelf(nb.dryRun, s);
      r := Ok(device);
      if device.None? {
        var isNew;
        r, isNew := EnsureSwitchDevice(nb, cfg.site, x, now);
        QuietKeeps(nb.dryRun, s, nb.State());
        if isNew {
          SwitchAdds(s, nb.State(), r.value.value.id, cfg.site.value, x, now);
          created := created + 1;
        }
      }
      Note(s);
    }

    /** lldp.py:264-272: only with a credential at hand. */
    method ReadLocalMacs(host: Host, how: Polled) returns (local: seq<OwnMac>)
      requires Books() && HasAnswered(host, how)
      modifies `visits, fabric
      ensures Books() && host in old(visits) && old(visits[host]).Heard?
      ensures visits == old(visits)[host := old(visits[host]).(own := local)]
      ensures HasTold(host, how, local)
    {
      hide Ledger, Answered, Told, Of;
      local := [];
      ghost var v, more: seq<Call> := visits[host], [];
      if how.how.cred.Some? {
        local := fabric.CollectLocalMacs(host, how.how);
        more := [ReadMacs(host, local)];
      }
      assert fabric.calls == old(fabric.calls) + more;
      ToldOf(Of(old(fabric.calls), host), host, cfg.maxAttempts, v.tries.list, how.how, how.neighbors, local);
      OfGrows(old(fabric.calls), host, more);
      LedgerRevised(old(fabric.calls), visits, polled, failed, cfg, nb.dryRun, host, more, v.(own := local));
      visits := visits[host := v.(own := local)];
    }

    /** It was also asked for its own MACs, if there is a credential for that. */
    ghost predicate HasTold(host: Host, how: Polled, own: seq<OwnMac>)
      reads this, fabric
    {
      && host in visits && visits[host].Heard?
      && visits[host] == Heard(visits[host].tries, how.neighbors, how.how, own, visits[host].stage)
      && Told(Of(fabric.calls, host), host, cfg.maxAttempts, visits[host].tries.list, how.how, how.neighbors, own)
    }

    /**
     lldp.py:262-278: duplicates of the switch are folded and its links drawn. `switch` is
     the record that is left; `learned` says that its MACs are known from now on.
     */
    method Absorb(device: Handle, chassis: Option<string>, local: seq<OwnMac>, neighbors: seq<Neighbor>)
      returns (r: Outcome<bool>, ghost switch: Id, ghost learned: bool)
      requires Chronicled() && HandleOk(nb.State(), device)
      modifies `visitedMac, `history, nb
      ensures Explained(r, old(nb.faults), nb.faults)
      ensures Chronicled() && Extends(old(history), history)
      ensures Keeps(nb.dryRun, old(nb.State()), nb.State())
      ensures visitedMac == old(visitedMac) + if learned then IdentityMacs(chassis, local) else {}
      ensures r.Ok? ==> r.value && learned
      ensures r.Ok? ==>
                && |history| == |old(history)| + 2 && history[|history| - 1] == nb.State()
                && FoldedInto(old(nb.State()), history[|history| - 2], device, IdentityMacs(chassis, local), switch,
                              nb.protective, Clean())
                && LinksDrawn(history[|history| - 2], nb.State(), Facts(), switch, neighbors, Clean())
    {
      hide Safe, Linked, Drawn, Keeps, HandleOk, MergedBy, IdentityMacs, LinksAttempted, AllAttempted, Reunited,
           OnlyRecorded, Carries, Unpinned, Chronicle, FoldedInto, CablesReported;
      ghost var s := nb.State();
      var dedup, identity := DedupAndRecordMacs(nb, device, chassis, local);
      ghost var mid := nb.State();
      learned, switch := dedup.Ok?, if dedup.Ok? then dedup.value.id else device.id;
      FewerCables(nb.dryRun, s, mid);
      Note(s);
      if dedup.Raised? {
        r := Raised(dedup.refusal);
        return;
      }
      ghost var was := Clean();
      FoldingDone(s, mid, device, identity, switch, nb.protective, was);
      visitedMac := visitedMac + identity;
      ghost var trail;
      r, trail := Reconcile(nb, cfg.site, dedup.value.id, neighbors, now);
      DrawnKeeps(nb.dryRun, mid, nb.State(), |neighbors|);
      KeepsTransitive(nb.dryRun, s, mid, nb.State());
      Note(mid);
      StillFolded(s, mid, device, identity, switch, nb.protective, was, Clean());
      r := if r.Raised? then r else Ok(true);
    }

    /**
     lldp.py:247-278: the switch and its links go into the inventory, unless there is
     neither a device nor a site for it.
     */
    method Document(target: Target, how: Polled) returns (r: Outcome<bool>)
      requires Books() && Chronicled() && HasAnswered(target.host, how)
      requires target.device.Some? ==> HandleOk(nb.State(), target.device.value)
      modifies `created, `visitedMac, `visits, `history, nb, fabric
      ensures Explained(r, old(nb.faults), nb.faults)
      ensures Books() && Chronicled() && Extends(old(history), history)
      ensures Keeps(nb.dryRun, old(nb.State()), nb.State())
      ensures Recorded(old(visits), visits, target.host) && visits[target.host].Heard?
      ensures visits[target.host].answered == how.neighbors
      ensures visits[target.host].tries == old(visits[target.host]).tries
      ensures visitedMac == old(visitedMac) + Learned(target.chassis, visits[target.host])
      ensures r.Ok? ==> visits[target.host].stage.Unresolved? || visits[target.host].stage.Mapped?
      ensures r.Ok? ==> (r.value <==> IsMapped(visits[target.host]))
      ensures MappedAs(target, visits[target.host], history, Facts(), Clean())
    {
      hide Safe, Linked, Keeps, HandleOk, Ledger, IdentityMacs, Answered, Told, Of, Ensured, Chronicle, FoldedInto,
           LinksDrawn;
      ghost var s := nb.State();
      LastOf(history, s, nb.dryRun);
      ghost var at: nat := |history| - 1;
      var device := Resolve(target.device, Sighting(Some(target.host), target.chassis, None));
      if device.Raised? {
        return Raised(device.refusal);
      }
      if device.value.None? {
        Revise(target.host, how, [], Unresolved);
        return Ok(false);
      }
      ghost var t := nb.State();
      var local := ReadLocalMacs(target.host, how);
      ghost var switch, learned;
      r, switch, learned := Absorb(device.value.value, target.chassis, local, how.neighbors);
      KeepsTransitive(nb.dryRun, s, t, nb.State());
      Revise(target.host, how, local, if r.Ok? then Mapped(device.value.value, switch, at) else Cut(learned));
    }

    ghost method Revise(host: Host, how: Polled, own: seq<OwnMac>, stage: Stage)
      requires Books()
      requires if stage.Unresolved? then (cfg.site.None? || nb.dryRun) && own == [] && HasAnswered(host, how)
               else HasTold(host, how, own)
      modifies `visits
      ensures Books() && host in old(visits) && old(visits[host]).Heard?
      ensures visits == old(visits)[host := old(visits[host]).(stage := stage)]
    {
      hide Ledger, Answered, Told, Of;
      ghost var v := visits[host].(stage := stage);
      assert fabric.calls + [] == fabric.calls && Of(fabric.calls, host) + [] == Of(fabric.calls, host);
      LedgerRevised(fabric.calls, visits, polled, failed, cfg, nb.dryRun, host, [], v);
      visits := visits[host := v];
    }

    /** lldp.py:229-235: nobody talks to an excluded host. */
    ghost method LeaveAlone(host: Host)
      requires Books() && host !in visits && host in cfg.exclude
      modifies `visits
      ensures Books() && visits == old(visits)[host := Excluded]
    {
      hide Of;
      assert fabric.calls + [] == fabric.calls;
      LedgerOn(fabric.calls, visits, polled, failed, cfg, nb.dryRun, host, [], Excluded);
      visits := visits[host := Excluded];
    }

    /** lldp.py:229-278, the turn of a host that has not had one. */
    method Visit(target: Target) returns (r: Outcome<Option<seq<Neighbor>>>)
      requires Books() && Chronicled() && target.host !in visits
      requires target.device.Some? ==> HandleOk(nb.State(), target.device.value)
      modifies `polled, `failed, `created, `visitedMac, `visits, `history, nb, fabric, cache
      ensures Explained(r, old(nb.faults), nb.faults)
      ensures Books() && Chronicled() && Extends(old(history), history)
      ensures Keeps(nb.dryRun, old(nb.State()), nb.State())
      ensures Recorded(old(visits), visits, target.host)
      ensures visitedMac == old(visitedMac) + Learned(target.chassis, visits[target.host])
      ensures Suggested(visits[target.host], target.hint)
      ensures r.Ok? ==>
                if r.value.Some? then IsMapped(visits[target.host]) && visits[target.host].answered == r.value.value
                else !IsMapped(visits[target.host])
      ensures r.Ok? && visits[target.host].Heard? ==> !visits[target.host].stage.Cut?
      ensures MappedAs(target, visits[target.host], history, Facts(), Clean())
      ensures polled == old(polled) + (if visits[target.host].Heard? then 1 else 0)
    {
      hide Safe, Linked, Keeps, HandleOk, Ledger, IdentityMacs, Answered, Of, Chronicle, FoldedInto, LinksDrawn,
           DeviceFor;
      KeepsSelf(nb.dryRun, nb.State());
      ExtendsSelf(history);
      r := Ok(None);
      if target.host in cfg.exclude {
        LeaveAlone(target.host);
      } else {
        var poll := PollHost(target);
        if poll.Some? {
          var mapped := Document(target, poll.value);
          r := if mapped.Raised? then Raised(mapped.refusal)
               else Ok(if mapped.value then Some(poll.value.neighbors) else None);
        }
      }
    }

    /** lldp.py:282-308: the switches it reported queue up, one deeper. */
    method Expand(depth: nat, neighbors: seq<Neighbor>) returns (r: Outcome<bool>)
      requires Ordered() && Chronicled() && Founded() && HandlesOk(nb.State(), queue)
      requires Expanding(log, popped, visits, cfg.maxDepth, depth, neighbors)
      modifies `queue, `log, `created, `history, nb
      ensures Explained(r, old(nb.faults), nb.faults)
      ensures Ordered() && Chronicled() && Founded() && HandlesOk(nb.State(), queue)
      ensures Keeps(nb.dryRun, old(nb.State()), nb.State())
      ensures Extends(old(log), log) && Extends(old(history), history)
      ensures r.Ok? ==> AllReached(log, visitedMac, neighbors)
    {
      hide Safe, Linked, Keeps, InOrder, HandlesOk, AllReached, Expanding, Extends, Chronicle, AllOrigins;
      ghost var s := nb.State();
      NoneReached(log, visitedMac, neighbors);
      KeepsSelf(nb.dryRun, s);
      ExtendsSelf(log);
      ExtendsSelf(history);
      for k := 0 to |neighbors|
        invariant Ordered() && Chronicled() && Founded() && HandlesOk(nb.State(), queue)
        invariant Keeps(nb.dryRun, s, nb.State()) && old(nb.faults) <= nb.faults
        invariant Extends(old(log), log) && Extends(old(history), history)
        invariant AllReached(log, visitedMac, neighbors[..k])
      {
        ghost var t, before, past := nb.State(), log, history;
        StillExpanding(old(log), log, popped, visits, cfg.maxDepth, depth, neighbors);
        r := ExpandOne(depth, neighbors, k);
        ExtendsMore(old(log), before, log);
        ExtendsMore(old(history), past, history);
        KeepsTransitive(nb.dryRun, s, t, nb.State());
        if r.Raised? {
          return;
        }
        ReachedStays(before, log, visitedMac, neighbors, k);
      }
      assert neighbors[..|neighbors|] == neighbors;
      r := Ok(true);
    }

    /** One of them, unless it had its turn or its chassis is known. */
    method ExpandOne(depth: nat, neighbors: seq<Neighbor>, k: nat) returns (r: Outcome<bool>)
      requires Ordered() && Chronicled() && Founded() && HandlesOk(nb.State(), queue)
      requires Expanding(log, popped, visits, cfg.maxDepth, depth, neighbors)
      requires k < |neighbors|
      modifies `queue, `log, `created, `history, nb
      ensures Explained(r, old(nb.faults), nb.faults)
      ensures Ordered() && Chronicled() && Founded() && HandlesOk(nb.State(), queue)
      ensures Keeps(nb.dryRun, old(nb.State()), nb.State())
      ensures Extends(old(log), log) && Extends(old(history), history)
      ensures r.Ok? && IsSwitch(neighbors[k]) ==> Reached(log, visitedMac, neighbors[k])
    {
      hide Safe, Linked, Keeps, Walk, Tracks, HandlesOk, Expanding, AllOrigins, Chronicle, Ensured;
      ghost var s := nb.State();
      KeepsSelf(nb.dryRun, s);
      var n := neighbors[k];
      r := Ok(true);
      if !Crawlable(n) {
        return;
      }
      if n.mgmtIp.value in visitedIp || (n.chassis.Some? && n.chassis.value in visitedMac) {
        InOrderBounds(queue, log, popped, visitedIp, cfg.maxDepth);
        SeenLogged(log, popped, visitedIp);
        return;
      }
      ghost var past, was := history, Clean();
      LastOf(past, s, nb.dryRun);
      var device := Resolve(None, Sighting(n.mgmtIp, n.chassis, n.sysname));
      KeepsHandles(nb.dryRun, s, nb.State(), queue);
      OriginsStay(log, visits, visits, n.mgmtIp.value, past, history, Facts(), was, Clean());
      if device.Raised? {
        return Raised(device.refusal);
      }
      Enqueue(neighbors, k, device.value, depth);
    }

    method Enqueue(neighbors: seq<Neighbor>, k: nat, device: Option<Handle>, depth: nat)
      requires Ordered() && Founded() && HandlesOk(nb.State(), queue)
      requires Expanding(log, popped, visits, cfg.maxDepth, depth, neighbors)
      requires device.Some? ==> HandleOk(nb.State(), device.value)
      requires k < |neighbors| && IsSwitch(neighbors[k]) && |history| > 1
      requires Clean() ==>
                 var n := neighbors[k];
                 Ensured(history[|history| - 2], history[|history| - 1], cfg.site,
                         Sighting(n.mgmtIp, n.chassis, n.sysname), now, device)
      modifies `queue, `log
      ensures Ordered() && Founded() && HandlesOk(nb.State(), queue)
      ensures Extends(old(log), log) && Reached(log, visitedMac, neighbors[k])
    {
      hide Ensured, First;
      var n := neighbors[k];
      var target := Target(n.mgmtIp.value, device, n.hint, depth + 1, n.chassis);
      ghost var e := Entry(n.mgmtIp.value, depth + 1, Some(popped - 1), k, |history| - 2, device, n.chassis, n.hint);
      WalkGrows(log, popped, cfg.maxDepth, e);
      LoggedAppend(log, e);
      SeenGrows(log, e, popped, visitedIp);
      TracksGrows(queue, log, popped, target, e);
      OriginsGrow(log, e, visits, history, Facts(), Clean());
      hide Walk, Seen, Tracks, AllOrigins;
      queue := queue + [target];
      log := log + [e];
    }

    /** lldp.py:222-227: the first entry leaves the queue; False if its host already had its turn. */
    method TakeNext() returns (target: Target, isNew: bool)
      requires Ordered() && queue != []
      modifies `queue, `popped, `visitedIp, `visitedMac
      ensures target == old(queue)[0] && queue == old(queue)[1..] && popped == old(popped) + 1 <= |log|
      ensures InOrder(queue, log, popped, visitedIp, cfg.maxDepth) && visitedIp == visits.Keys + {target.host}
      ensures target == TargetOf(log[popped - 1])
      ensures isNew == (target.host !in visits) == First(log, popped - 1)
      ensures Seen(log, popped - 1, visits.Keys)
      ensures visitedMac == if isNew then old(visitedMac) + Just(target.chassis) else old(visitedMac)
    {
      hide InOrder, First, Seen;
      Pops(queue, log, popped, visitedIp, cfg.maxDepth);
      target := queue[0];
      queue := queue[1..];
      popped := popped + 1;
      isNew := target.host !in visitedIp;
      visitedIp := visitedIp + {target.host};
      if isNew && target.chassis.Some? {
        visitedMac := visitedMac + {target.chassis.value};
      } else if isNew {
        assert visitedMac == visitedMac + Just(target.chassis);
      }
    }

    /** lldp.py:222-308: the first of the queue has its turn, unless its host already had one. */
    method Turn() returns (r: Outcome<bool>)
      requires Valid() && queue != []
      requires cfg.crawlEnabled ==> Covered(log, popped, visits, visitedMac, cfg.maxDepth)
      modifies this, nb, fabric, cache
      ensures Explained(r, old(nb.faults), nb.faults)
      ensures Valid() && Keeps(nb.dryRun, old(nb.State()), nb.State())
      ensures old(polled) <= polled <= old(polled) + 1
      ensures polled == old(polled) ==> |queue| < |old(queue)|
      ensures r.Ok? && cfg.crawlEnabled ==> Covered(log, popped, visits, visitedMac, cfg.maxDepth)
      ensures r.Ok? && old(NoneCut(visits)) ==> NoneCut(visits)
      ensures Extends(old(log), log) && Extends(old(history), history)
    {
      hide Safe, Linked, Keeps, Ledger, Covered, Expanded, InOrder, First, HandlesOk, HandleOk, AllReached, Recorded,
           Seen, Extends, KnownMacs, Sourced, NoneCut, Learned, Chronicle, AllOrigins, AllMappedAs, MappedAs, Suggested;
      ghost var s := nb.State();
      KeepsSelf(nb.dryRun, s);
      HandlesPop(s, queue);
      ghost var books, past, was := visits, history, Clean();
      var target, isNew := TakeNext();
      if isNew {
        r := Handle(target);
        GoesOn(old(log), log, old(popped), books, visits);
        NoneCutOn(books, visits, target.host);
        MappedGoesOn(old(log), log, old(popped), books, visits, past, history, Facts(), was, Clean());
        if r.Ok? && cfg.crawlEnabled {
          CoveredGoesOn(old(log), log, old(popped), old(visits), visits, old(visitedMac), visitedMac, cfg.maxDepth);
        }
      } else {
        r := Ok(false);
        ExtendsSelf(log);
        ExtendsSelf(history);
        SkippedAdds(log, popped - 1, visits);
        MappedSkips(log, popped - 1, visits, history, Facts(), Clean());
        CoveredSkips(log, popped - 1, visits, visitedMac, cfg.maxDepth);
      }
    }

    /** lldp.py:229-308, for a host that has just been marked visited. */
    method Handle(target: Target) returns (r: Outcome<bool>)
      requires Books() && InOrder(queue, log, popped, visitedIp, cfg.maxDepth) && Chronicled() && Founded()
      requires target.host !in visits && visitedIp == visits.Keys + {target.host}
      requires 0 < popped <= |log| && First(log, popped - 1) && target == TargetOf(log[popped - 1])
      requires HandlesOk(nb.State(), queue)
      requires target.device.Some? ==> HandleOk(nb.State(), target.device.value)
      modifies `queue, `log, `polled, `failed, `created, `visitedMac, `visits, `history, nb, fabric, cache
      ensures Explained(r, old(nb.faults), nb.faults)
      ensures Ready() && Keeps(nb.dryRun, old(nb.State()), nb.State())
      ensures Extends(old(log), log) && Extends(old(history), history)
      ensures Recorded(old(visits), visits, target.host)
      ensures visitedMac == old(visitedMac) + Learned(target.chassis, visits[target.host])
      ensures Suggested(visits[target.host], target.hint)
      ensures MappedAs(target, visits[target.host], history, Facts(), Clean())
      ensures old(polled) <= polled <= old(polled) + 1 && (polled == old(polled) ==> queue == old(queue))
      ensures r.Ok? && visits[target.host].Heard? ==> !visits[target.host].stage.Cut?
      ensures r.Ok? && cfg.crawlEnabled && IsMapped(visits[target.host]) && target.depth < cfg.maxDepth ==>
                AllReached(log, visitedMac, visits[target.host].answered)
    {
      hide Safe, Linked, Keeps, Ledger, InOrder, First, HandlesOk, HandleOk, AllReached, Extends, Recorded, Learned,
           Chronicle, AllOrigins, MappedAs, Suggested;
      ghost var s, past, was := nb.State(), history, Clean();
      var answer := Visit(target);
      RecordedKeys(old(visits), visits, target.host);
      ghost var t, visited, v := nb.State(), history, visits[target.host];
      ghost var clean := Clean();
      KeepsHandles(nb.dryRun, s, t, queue);
      OriginsStay(log, old(visits), visits, target.host, past, history, Facts(), was, clean);
      ExtendsSelf(log);
      ExtendsSelf(history);
      r := if answer.Raised? then Raised(answer.refusal) else Ok(true);
      if answer.Ok? && answer.value.Some? && cfg.crawlEnabled && target.depth < cfg.maxDepth {
        r := Expand(target.depth, answer.value.value);
        KeepsTransitive(nb.dryRun, s, t, nb.State());
        ExtendsMore(past, visited, history);
      }
      MappedStays(target, v, visited, history, Facts(), clean, Clean());
    }

    /**
     lldp.py:221. The crawl ends for any answers: either a new host was polled, of which
     there are at most `maxSwitches`, or the queue got shorter.
     */
    method Run() returns (r: Outcome<bool>)
      requires Valid() && popped == 0 && polled == 0 && visits == map[]
      modifies this, nb, fabric, cache
      ensures Explained(r, old(nb.faults), nb.faults)
      ensures Valid() && Keeps(nb.dryRun, old(nb.State()), nb.State())
      ensures polled <= (if cfg.maxSwitches < 0 then 0 else cfg.maxSwitches)
      ensures r.Ok? ==> queue == [] || polled >= cfg.maxSwitches
      ensures r.Ok? && cfg.crawlEnabled ==> Covered(log, popped, visits, visitedMac, cfg.maxDepth)
      ensures r.Ok? ==> NoneCut(visits)
      ensures Extends(old(log), log) && Extends(old(history), history)
    {
      hide Safe, Linked, Keeps, Ledger, InOrder, HandlesOk, KnownMacs, Sourced, Chronicle, AllOrigins, AllMappedAs;
      ghost var s := nb.State();
      KeepsSelf(nb.dryRun, s);
      while queue != [] && polled < cfg.maxSwitches
        invariant Valid() && Keeps(nb.dryRun, s, nb.State()) && old(nb.faults) <= nb.faults
        invariant polled <= (if cfg.maxSwitches < 0 then 0 else cfg.maxSwitches)
        invariant cfg.crawlEnabled ==> Covered(log, popped, visits, visitedMac, cfg.maxDepth)
        invariant NoneCut(visits) && Extends(old(log), log) && Extends(old(history), history)
        decreases cfg.maxSwitches - polled, |queue|
      {
        ghost var t, before, past := nb.State(), log, history;
        r := Turn();
        KeepsTransitive(nb.dryRun, s, t, nb.State());
        ExtendsMore(old(log), before, log);
        ExtendsMore(old(history), past, history);
        if r.Raised? {
          return;
        }
      }
      r := Ok(true);
    }
  }

  lemma NothingYet(s: Store, visits: map<Host, Visit>, history: seq<Store>, x: Setting, dryRun: bool, cfg: Config,
                   clean: bool)
    requires visits == map[] && history == [s]
    ensures Chronicle(history, s, dryRun) && Ledger([], visits, 0, 0, cfg, dryRun)
    ensures AllOrigins([], visits, history, x, clean)
    ensures forall h :: !Logged([], h)
  {
  }

  lemma NoTurnYet(log: seq<Entry>, visits: map<Host, Visit>, history: seq<Store>, x: Setting, clean: bool)
    ensures AllMappedAs(log, 0, visits, history, x, clean)
    ensures Sourced(log, 0, visits) && KnownMacs(log, 0, visits) == {} && Seen(log, 0, {})
  {
  }

  lemma SwitchAdds(s: Store, t: Store, id: Id, site: string, x: Sighting, now: real)
    requires Linked(s) && NewSwitch(s, t, id, site, x, now)
    ensures t != s
  {
  }

  lemma SeedsGrow(log: seq<Entry>, e: Entry, visits: map<Host, Visit>, history: seq<Store>, x: Setting, clean: bool)
    requires AllOrigins(log, visits, history, x, clean)
    requires e.via.None? && e.chassis.None? && e.device.Some? && e.index < |x.seeds|
    requires x.seeds[e.index] == Seed(e.device.value, Some(e.host), e.hint)
    ensures AllOrigins(log + [e], visits, history, x, clean)
  {
    hide ReportedWith;
    var grown := log + [e];
    forall k | 0 <= k < |grown| ensures Origin(grown, k, visits, history, x, clean) {
      if k < |log| {
        assert Origin(log, k, visits, history, x, clean);
      }
    }
  }

  /** What is left of a device once its duplicates were folded is on record. */
  lemma FoldingDone(s: Store, t: Store, device: Handle, macs: set<string>, switch: Id, protective: bool, clean: bool)
    requires Linked(t) && MergedBy(s, t, device.id, macs) && (macs == {} ==> switch == device.id)
    requires clean ==> forall m | m in macs :: Carries(t, switch, m)
    requires clean && (protective ==> Unpinned(s, device.id, macs)) ==>
               exists folded :: Reunited(s, folded, device, macs, switch) && OnlyRecorded(folded, t)
    ensures FoldedInto(s, t, device, macs, switch, protective, clean)
  {
    hide Reunited, OnlyRecorded, Unpinned;
    if macs != {} {
      var m :| m in macs;
    }
  }

  lemma StillFolded(s: Store, t: Store, device: Handle, macs: set<string>, switch: Id, protective: bool, was: bool,
                    clean: bool)
    requires FoldedInto(s, t, device, macs, switch, protective, was) && (clean ==> was)
    ensures FoldedInto(s, t, device, macs, switch, protective, clean)
  {
    hide Reunited, OnlyRecorded, Unpinned, Carries, MergedBy;
  }

  lemma SparingAbout(c: seq<Call>, host: Host, cap: int)
    requires Sparing(c, host, cap)
    ensures forall k | 0 <= k < |c| :: c[k].host == host
  {
  }

  lemma NothingBefore(calls: seq<Call>, visits: map<Host, Visit>, polled: nat, failed: nat, cfg: Config, dryRun: bool,
                      host: Host, made: seq<Call>)
    requires Ledger(calls, visits, polled, failed, cfg, dryRun) && host !in visits
    requires forall k | 0 <= k < |made| :: made[k].host == host
    ensures Of(calls + made, host) == made
  {
    hide Of;
    OfGrows(calls, host, made);
    assert Of(calls, host) == [];
  }

  /** The MACs known, and the vendors tried, are in order after one more turn. */
  lemma GoesOn(before: seq<Entry>, log: seq<Entry>, at: nat, books: map<Host, Visit>, visits: map<Host, Visit>)
    requires at < |before| && Extends(before, log) && First(before, at) && Seen(before, at, books.Keys)
    requires before[at].host !in books && Recorded(books, visits, before[at].host)
    requires Sourced(before, at, books)
    requires Suggested(visits[before[at].host], before[at].hint)
    ensures at + 1 <= |log| && Sourced(log, at + 1, visits)
    ensures KnownMacs(log, at + 1, visits)
         == KnownMacs(before, at, books) + Just(before[at].chassis)
             + Learned(before[at].chassis, visits[before[at].host])
  {
    KnownGoesOn(before, log, at, books, visits);
    SourcedGoesOn(before, log, at, books, visits);
  }

  lemma Pops(queue: seq<Target>, log: seq<Entry>, popped: nat, visited: set<Host>, maxDepth: int)
    requires InOrder(queue, log, popped, visited, maxDepth) && queue != []
    ensures popped < |log| && queue[0] == TargetOf(log[popped])
    ensures InOrder(queue[1..], log, popped + 1, visited + {queue[0].host}, maxDepth)
    ensures queue[0].host in visited ==> visited + {queue[0].host} == visited
    ensures First(log, popped) <==> queue[0].host !in visited
    ensures Seen(log, popped, visited)
  {
    WalkPops(log, popped, maxDepth);
    hide Walk;
  }

  lemma HandlesPop(s: Store, queue: seq<Target>)
    requires HandlesOk(s, queue) && queue != []
    ensures HandlesOk(s, queue[1..]) && (queue[0].device.Some? ==> HandleOk(s, queue[0].device.value))
  {
  }

  lemma TracksGrows(queue: seq<Target>, log: seq<Entry>, popped: nat, t: Target, e: Entry)
    requires Tracks(queue, log, popped) && t == TargetOf(e)
    ensures Tracks(queue + [t], log + [e], popped)
  {
  }

  lemma KeepsHandles(dryRun: bool, s: Store, t: Store, queue: seq<Target>)
    requires HandlesOk(s, queue) && Keeps(dryRun, s, t)
    ensures HandlesOk(t, queue) && Linked(t)
  {
    HandlesStayOk(s, t, queue);
  }

  // ------------------------------------------------------------ the results

  /** With the queue empty, every switch that a mapped switch above the depth limit reported was met. */
  lemma NothingLeftOut(log: seq<Entry>, popped: nat, visited: set<Host>, visits: map<Host, Visit>, macs: set<string>,
                       maxDepth: int)
    requires InOrder([], log, popped, visited, maxDepth) && Covered(log, popped, visits, macs, maxDepth)
    ensures forall k, n | 0 <= k < |log| && First(log, k) && log[k].depth < maxDepth
                          && log[k].host in visits && IsMapped(visits[log[k].host])
                          && n in visits[log[k].host].answered && IsSwitch(n) :: Met(visited, macs, n)
  {
    assert log[..popped] == log;
    forall k, n | 0 <= k < |log| && First(log, k) && log[k].depth < maxDepth
                  && log[k].host in visits && IsMapped(visits[log[k].host])
                  && n in visits[log[k].host].answered && IsSwitch(n)
      ensures Met(visited, macs, n)
    {
      assert Expanded(log, k, visits, macs, maxDepth);
      assert Reached(log, macs, n);
    }
  }

  /** What is true of every crawl, whether it ends well or is cut short by an error. */
  ghost predicate WellBehaved(crawl: SiteCrawl)
    reads crawl, crawl.fabric, crawl.nb
  {
    && (forall h :: Polite(Of(crawl.fabric.calls, h), crawl.cfg.maxAttempts))
    && (forall h | h in crawl.cfg.exclude || h !in crawl.visitedIp :: Of(crawl.fabric.calls, h) == [])
    && GivenUpFairly(crawl.fabric.calls, crawl.visits, crawl.cfg)
    && crawl.visits.Keys == crawl.visitedIp
    && crawl.polled + crawl.failed + |set h | h in crawl.visits && crawl.visits[h].Excluded?| == |crawl.visitedIp|
    && crawl.polled <= (if crawl.cfg.maxSwitches < 0 then 0 else crawl.cfg.maxSwitches)
    && InOrder(crawl.queue, crawl.log, crawl.popped, crawl.visitedIp, crawl.cfg.maxDepth)
    && crawl.popped <= |crawl.log| && Sourced(crawl.log, crawl.popped, crawl.visits)
    && crawl.visitedMac == KnownMacs(crawl.log, crawl.popped, crawl.visits)
    && Chronicle(crawl.history, crawl.nb.State(), crawl.nb.dryRun)
    && AllOrigins(crawl.log, crawl.visits, crawl.history, crawl.Facts(), crawl.Clean())
    && AllMappedAs(crawl.log, crawl.popped, crawl.visits, crawl.history, crawl.Facts(), crawl.Clean())
  }

  /**
   At any time the queue is sorted by depth and spans two depths at most, nothing in it
   is too deep, and the turn a host gets is that of its least deep entry, as far from
   the seeds as the shortest chain of enqueued links. Such a chain starts at a seed and
   follows what mapped switches reported.
   */
  lemma BreadthFirst(crawl: SiteCrawl)
    requires WellBehaved(crawl)
    ensures forall i, j | 0 <= i <= j < |crawl.queue| ::
              crawl.queue[i].depth <= crawl.queue[j].depth <= crawl.queue[i].depth + 1
    ensures forall i | 0 <= i < |crawl.queue| ::
              crawl.queue[i].depth <= if crawl.cfg.maxDepth < 0 then 0 else crawl.cfg.maxDepth
    ensures forall h | h in crawl.visitedIp ::
              exists k: nat :: First(crawl.log, k) && k < crawl.popped && crawl.log[k].host == h
                          && Nearest(crawl.log, h, crawl.log[k].depth)
    ensures forall path | Chain(crawl.log, path) :: ReportChain(crawl.visits, crawl.seeds, path)
  {
    hide Polite, Of, Nearest, GivenUpFairly, KnownMacs, Sourced, Chronicle, AllOrigins, AllMappedAs, Chain, ReportChain;
    var log, popped, maxDepth := crawl.log, crawl.popped, crawl.cfg.maxDepth;
    QueueSpansTwoDepths(log, popped, maxDepth);
    forall h | h in crawl.visitedIp
      ensures exists k: nat :: First(log, k) && k < popped && log[k].host == h && Nearest(log, h, log[k].depth)
    {
      var i :| 0 <= i < popped && log[..popped][i].host == h;
      var k := FirstEntry(log, i);
      NearestDepth(log, popped, maxDepth, k);
    }
    forall path | Chain(log, path) ensures ReportChain(crawl.visits, crawl.seeds, path) {
      ChainsAreReported(log, crawl.visits, crawl.history, crawl.Facts(), crawl.Clean(), path);
    }
  }

  /** The length of the shortest chain of enqueued links from a seed, and the least depth of an entry. */
  ghost predicate Nearest(log: seq<Entry>, host: Host, depth: nat) {
    && (forall j | 0 <= j < |log| && log[j].host == host :: depth <= log[j].depth)
    && (exists path :: Chain(log, path) && path[|path| - 1] == host && |path| == depth + 1)
    && (forall path | Chain(log, path) && path[|path| - 1] == host :: depth + 1 <= |path|)
  }

  lemma NearestDepth(log: seq<Entry>, popped: nat, maxDepth: int, k: nat)
    requires Walk(log, popped, maxDepth) && First(log, k)
    ensures Nearest(log, log[k].host, log[k].depth)
  {
    HandledAtLeastDepth(log, popped, maxDepth, k);
  }

  lemma {:induction false} FirstEntry(log: seq<Entry>, i: nat) returns (k: nat)
    requires i < |log|
    ensures k <= i && First(log, k) && log[k].host == log[i].host
    decreases i
  {
    k := i;
    if !First(log, i) {
      var j: nat :| j < i && log[j].host == log[i].host;
      k := FirstEntry(log, j);
    }
  }

  /** Nobody was left out. */
  ghost predicate Complete(crawl: SiteCrawl)
    reads crawl
  {
    forall k, n | 0 <= k < |crawl.log| && First(crawl.log, k) && crawl.log[k].depth < crawl.cfg.maxDepth
                  && crawl.log[k].host in crawl.visits && IsMapped(crawl.visits[crawl.log[k].host])
                  && n in crawl.visits[crawl.log[k].host].answered && IsSwitch(n) ::
      Met(crawl.visitedIp, crawl.visitedMac, n)
  }

  /** Every host that answered was mapped, unless there is no site to put new switches at. */
  ghost predicate AllMapped(crawl: SiteCrawl)
    reads crawl
  {
    forall h | h in crawl.visits && crawl.visits[h].Heard? ::
      IsMapped(crawl.visits[h]) || crawl.cfg.site.None? || crawl.nb.dryRun
  }

  /** Nobody is spoken to who is not a seed and was not reported as a switch by a mapped one. */
  ghost predicate OnlyReported(crawl: SiteCrawl)
    reads crawl, crawl.fabric
  {
    && (forall k | 0 <= k < |crawl.log| :: Reported(crawl.visits, crawl.seeds, crawl.log[k].host))
    && (forall h | Of(crawl.fabric.calls, h) != [] :: Reported(crawl.visits, crawl.seeds, h))
  }

  lemma Strangers(crawl: SiteCrawl)
    requires WellBehaved(crawl)
    ensures OnlyReported(crawl)
  {
    hide Polite, Of, GivenUpFairly, KnownMacs, Sourced, Chronicle, AllOrigins, AllMappedAs, Reported, Walk, Tracks;
    NoStrangers(crawl.log, crawl.visits, crawl.history, crawl.Facts(), crawl.Clean());
    forall h | Of(crawl.fabric.calls, h) != [] ensures Reported(crawl.visits, crawl.seeds, h) {
      var i :| 0 <= i < crawl.popped && crawl.log[..crawl.popped][i].host == h;
      assert crawl.log[i].host == h;
    }
  }

  /** The turn in which a host was mapped, step by step in the history of the crawl. */
  ghost predicate TrulyMapped(crawl: SiteCrawl, host: Host)
    reads crawl, crawl.nb
  {
    exists k: nat :: && First(crawl.log, k) && k < crawl.popped && crawl.log[k].host == host && host in crawl.visits
                && MappedAs(TargetOf(crawl.log[k]), crawl.visits[host], crawl.history, crawl.Facts(), crawl.Clean())
  }

  lemma Mapping(crawl: SiteCrawl)
    requires WellBehaved(crawl)
    ensures forall h | h in crawl.visits && IsMapped(crawl.visits[h]) :: TrulyMapped(crawl, h)
  {
    hide Polite, Of, GivenUpFairly, KnownMacs, Sourced, Chronicle, AllOrigins, MappedAs, Walk, Tracks;
    forall h | h in crawl.visits && IsMapped(crawl.visits[h]) ensures TrulyMapped(crawl, h) {
      var i :| 0 <= i < crawl.popped && crawl.log[..crawl.popped][i].host == h;
      var k := FirstEntry(crawl.log, i);
    }
  }

  /** lldp.py:190-309. */
  method CrawlSite(cfg: Config, nb: NetBox, cache: ComboCache, seeds: seq<Seed>, now: real)
    returns (crawl: SiteCrawl, r: Outcome<bool>)
    requires Linked(nb.State()) && forall k | 0 <= k < |seeds| :: HandleOk(nb.State(), seeds[k].device)
    modifies nb, cache
    ensures Explained(r, old(nb.faults), nb.faults)
    ensures fresh(crawl) && crawl.cfg == cfg && crawl.nb == nb && crawl.seeds == seeds && crawl.now == now
    ensures crawl.start == old(nb.faults) && crawl.history != [] && crawl.history[0] == old(nb.State())
    ensures WellBehaved(crawl) && Keeps(nb.dryRun, old(nb.State()), nb.State())
    ensures OnlyReported(crawl)
    ensures forall h | h in crawl.visits && IsMapped(crawl.visits[h]) :: TrulyMapped(crawl, h)
    ensures r.Ok? ==> crawl.queue == [] || crawl.polled >= cfg.maxSwitches
    ensures r.Ok? ==> AllMapped(crawl)
    ensures r.Ok? && crawl.queue == [] && cfg.crawlEnabled ==> Complete(crawl)
    ensures forall k | 0 <= k < |seeds| && seeds[k].primary.Some? :: Logged(crawl.log, seeds[k].primary.value)
  {
    hide Safe, Linked, Keeps, InOrder, HandlesOk, Ledger, Covered, KnownMacs, Sourced, Chronicle, AllOrigins,
         AllMappedAs, TrulyMapped, OnlyReported, WellBehaved;
    crawl := new SiteCrawl(cfg, nb, cache, seeds, now);
    ghost var start, first := crawl.log, crawl.history;
    r := crawl.Run();
    Concluded(crawl);
    Strangers(crawl);
    Mapping(crawl);
    FirstOf(first, crawl.history);
    forall k | 0 <= k < |seeds| && seeds[k].primary.Some? ensures Logged(crawl.log, seeds[k].primary.value) {
      LoggedStays(start, crawl.log, seeds[k].primary.value);
    }
    if r.Ok? {
      ResolvedFairly(crawl.fabric.calls, crawl.visits, crawl.polled, crawl.failed, cfg, nb.dryRun);
    }
    if r.Ok? && crawl.queue == [] && cfg.crawlEnabled {
      NothingLeftOut(crawl.log, crawl.popped, crawl.visitedIp, crawl.visits, crawl.visitedMac, cfg.maxDepth);
    }
  }

  lemma FirstOf<T>(before: seq<T>, after: seq<T>)
    requires Extends(before, after) && before != []
    ensures after != [] && after[0] == before[0]
  {
  }

  lemma ResolvedFairly(calls: seq<Call>, visits: map<Host, Visit>, polled: nat, failed: nat, cfg: Config, dryRun: bool)
    requires Ledger(calls, visits, polled, failed, cfg, dryRun)
    ensures forall h | h in visits && visits[h].Heard? && visits[h].stage.Unresolved? :: cfg.site.None? || dryRun
  {
    hide AllTalked, Counted;
    forall h | h in visits && visits[h].Heard? && visits[h].stage.Unresolved? ensures cfg.site.None? || dryRun {
      assert Fair(visits[h], cfg, dryRun);
    }
  }

  lemma LoggedStays(before: seq<Entry>, log: seq<Entry>, host: Host)
    requires Extends(before, log) && Logged(before, host)
    ensures Logged(log, host)
  {
    assert forall k | 0 <= k < |before| :: log[k] == before[k];
  }

  lemma Concluded(crawl: SiteCrawl)
    requires crawl.Valid() && crawl.polled <= (if crawl.cfg.maxSwitches < 0 then 0 else crawl.cfg.maxSwitches)
    ensures WellBehaved(crawl)
  {
    hide Safe, Linked, InOrder, HandlesOk, Polite, Of, GivenUpFairly, KnownMacs, Sourced, Chronicle, AllOrigins,
         AllMappedAs;
    FailuresAreFair(crawl.fabric.calls, crawl.visits, crawl.polled, crawl.failed, crawl.cfg, crawl.nb.dryRun);
    PoliteToAll(crawl.fabric.calls, crawl.visits, crawl.cfg.maxAttempts);
    EveryTurnCounts(crawl.visits, crawl.polled, crawl.failed);
    ExcludedOnly(crawl.fabric.calls, crawl.visits, crawl.polled, crawl.failed, crawl.cfg, crawl.nb.dryRun);
    hide AllTalked, Counted, AllFair;
    assert crawl.visits.Keys == crawl.visitedIp;
    assert |crawl.visits| == |crawl.visitedIp|;
  }

  lemma ExcludedOnly(calls: seq<Call>, visits: map<Host, Visit>, polled: nat, failed: nat, cfg: Config, dryRun: bool)
    requires Ledger(calls, visits, polled, failed, cfg, dryRun)
    ensures forall h | h in cfg.exclude && h in visits :: visits[h].Excluded?
  {
  }
}
