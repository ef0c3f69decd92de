/**
 The books a crawl of the LLDP fabric is judged by: what was said to each host and what
 came of it, which MACs became known, and which reported switches were reached
 (lldp.py:205-309).
 */
module CrawlBooks {
  import opened Prelude
  import opened Networks
  import opened NetBoxStore
  import opened Common
  import opened LldpNeighbors
  import opened LldpSafety
  import opened LldpDedup
  import opened LldpTopology
  import opened LldpAttempts
  import opened CrawlLog

  /** `site` is the NetBox site new switches go to, if there is one. */
  datatype Config = Config(crawlEnabled: bool, maxSwitches: int, maxDepth: int, maxAttempts: int,
                           exclude: set<Host>, profiles: seq<Cred>, site: Option<string>)

  /** A tagged device, with the host part of its primary address and the driver its platform suggests. */
  datatype Seed = Seed(device: Handle, primary: Option<Host>, hint: Option<SshDriver>)

  /** What a crawl is judged against. */
  datatype Setting = Setting(seeds: seq<Seed>, site: Option<string>, protective: bool, now: real)

  /**
   How far the turn of a host that answered got: an error cut it short, before or after
   its MACs were learned; there was no device for it; or it was mapped: `device` was found
   for it, and `switch` is the record left once duplicates were folded. Entry `at` of the
   crawl's history is the inventory the turn started from, and the next three are those
   after finding the device, after folding, and after drawing the links.
   */
  datatype Stage = Cut(learned: bool) | Unresolved | Mapped(device: Handle, switch: Id, at: nat)

  /** The logins a host may be tried with, and what they were made from. */
  datatype Tries = Tries(list: seq<Attempt>, cached: Option<Combo>, secret: Option<Cred>, hint: Option<SshDriver>)

  /** What came of a host's turn. `own` are the MACs it gave as its own. */
  datatype Visit =
    | Excluded
    | Failed(tries: Tries)
    | Heard(tries: Tries, answered: seq<Neighbor>, how: Attempt, own: seq<OwnMac>, stage: Stage)

  predicate IsMapped(v: Visit) {
    v.Heard? && v.stage.Mapped?
  }

  // ------------------------------------------------------- the conversations

  /** The conversations with one host. */
  function Of(calls: seq<Call>, host: Host): seq<Call> {
    if calls == [] then []
    else Of(calls[..|calls| - 1], host) + if calls[|calls| - 1].host == host then [calls[|calls| - 1]] else []
  }

  lemma {:induction false} OfConcat(a: seq<Call>, b: seq<Call>, host: Host)
    ensures Of(a + b, host) == Of(a, host) + Of(b, host)
    decreases |b|
  {
    if b == [] {
      assert a + b == a;
    } else {
      var before, last := b[..|b| - 1], b[|b| - 1];
      OfConcat(a, before, host);
      assert (a + b)[..|a + b| - 1] == a + before && (a + b)[|a + b| - 1] == last;
      assert Of(b, host) == Of(before, host) + if last.host == host then [last] else [];
    }
  }

  lemma {:induction false} OfOne(calls: seq<Call>, h: Host, host: Host)
    requires forall k | 0 <= k < |calls| :: calls[k].host == h
    ensures Of(calls, host) == if host == h then calls else []
    decreases |calls|
  {
    if calls != [] {
      OfOne(calls[..|calls| - 1], h, host);
    }
  }

  /** A last successful collection ends the attempts. */
  ghost predicate Answered(c: seq<Call>, host: Host, cap: int, tried: seq<Attempt>, how: Attempt,
                           answer: seq<Neighbor>) {
    && Sparing(c, host, cap) && c != [] && c[|c| - 1] == Collect(host, KeyOf(how), Neighbors(answer))
    && Won(c, tried, cap, how)
  }

  /** Whoever answers to a credential is asked for its own MACs. */
  ghost predicate Told(c: seq<Call>, host: Host, cap: int, tried: seq<Attempt>, how: Attempt, answer: seq<Neighbor>,
                       own: seq<OwnMac>) {
    if how.cred.None? then own == [] && Answered(c, host, cap, tried, how, answer)
    else
      c != [] && c[|c| - 1] == ReadMacs(host, own) && Answered(c[..|c| - 1], host, cap, tried, how, answer)
  }

  /** The whole conversation with a host, by what came of it. */
  ghost predicate Talked(c: seq<Call>, host: Host, cap: int, v: Visit) {
    match v
    case Excluded => c == []
    case Failed(tries) =>
      && Sparing(c, host, cap) && (forall k | 0 <= k < |c| :: !Succeeds(c[k]))
      && Follows(c, tries.list, Limit(tries.list, cap))
    case Heard(tries, answer, how, own, stage) =>
      || (!stage.Mapped? && own == [] && Answered(c, host, cap, tries.list, how, answer))
      || (!stage.Unresolved? && Told(c, host, cap, tries.list, how, answer, own))
  }

  ghost predicate AllTalked(calls: seq<Call>, visits: map<Host, Visit>, cap: int) {
    forall h :: if h in visits then Talked(Of(calls, h), h, cap, visits[h]) else Of(calls, h) == []
  }

  lemma TalkedOn(calls: seq<Call>, visits: map<Host, Visit>, cap: int, host: Host, more: seq<Call>, v: Visit)
    requires AllTalked(calls, visits, cap)
    requires forall k | 0 <= k < |more| :: more[k].host == host
    requires Talked(Of(calls, host) + more, host, cap, v)
    ensures AllTalked(calls + more, visits[host := v], cap)
  {
    OfGrows(calls, host, more);
    hide Of, Talked;
    var next := visits[host := v];
    forall h
      ensures if h in next then Talked(Of(calls + more, h), h, cap, next[h]) else Of(calls + more, h) == []
    {
      assert if h in visits then Talked(Of(calls, h), h, cap, visits[h]) else Of(calls, h) == [];
    }
  }

  lemma OfGrows(calls: seq<Call>, host: Host, more: seq<Call>)
    requires forall k | 0 <= k < |more| :: more[k].host == host
    ensures forall h :: Of(calls + more, h) == if h == host then Of(calls, h) + more else Of(calls, h)
  {
    forall h ensures Of(calls + more, h) == if h == host then Of(calls, h) + more else Of(calls, h) {
      OfConcat(calls, more, h);
      OfOne(more, host, h);
      assert Of(calls, h) + [] == Of(calls, h);
    }
  }

  /**
   Politeness: a host is asked for its neighbours at most `cap` times, with distinct
   logins, with none after one that worked and no SSH once SSH is unreachable; its own
   MACs are read once at most, and only right after a success.
   */
  ghost predicate Polite(c: seq<Call>, cap: int) {
    && |set k | 0 <= k < |c| && c[k].Collect? :: k| <= (if cap < 0 then 0 else cap)
    && (forall i, j | 0 <= i < j < |c| && c[i].Collect? && c[j].Collect? ::
          c[i].key != c[j].key && !Succeeds(c[i]) && !(HitsWall(c[i]) && IsSsh(c[j].key.driver)))
    && (forall k | 0 <= k < |c| && c[k].ReadMacs? :: k == |c| - 1 && k > 0 && Succeeds(c[k - 1]))
  }

  lemma PoliteToAll(calls: seq<Call>, visits: map<Host, Visit>, cap: int)
    requires AllTalked(calls, visits, cap)
    ensures forall h :: Polite(Of(calls, h), cap)
    ensures forall h | h !in visits || visits[h].Excluded? :: Of(calls, h) == []
  {
    hide Of, Talked, Polite;
    forall h ensures Polite(Of(calls, h), cap) {
      if h in visits {
        PoliteToOne(Of(calls, h), h, cap, visits[h]);
      } else {
        NothingSaid(cap);
      }
    }
    forall h | h in visits && visits[h].Excluded? ensures Of(calls, h) == [] {
      NotTalked(Of(calls, h), h, cap, visits[h]);
    }
  }

  lemma NothingSaid(cap: int)
    ensures Polite([], cap)
  {
    CollectsCounted([], 0);
  }

  lemma NotTalked(c: seq<Call>, host: Host, cap: int, v: Visit)
    requires Talked(c, host, cap, v) && v.Excluded?
    ensures c == []
  {
  }

  lemma PoliteToOne(c: seq<Call>, host: Host, cap: int, v: Visit)
    requires Talked(c, host, cap, v)
    ensures Polite(c, cap)
  {
    var n := if c != [] && c[|c| - 1].ReadMacs? then |c| - 1 else |c|;
    assert c[..|c|] == c;
    assert n == 0 || Sparing(c[..n], host, cap);
    assert forall k | 0 <= k < n :: c[..n][k] == c[k];
    CollectsCounted(c, n);
  }

  lemma CollectsCounted(c: seq<Call>, n: nat)
    requires n <= |c| && forall k | 0 <= k < |c| :: c[k].Collect? <==> k < n
    ensures |set k | 0 <= k < |c| && c[k].Collect? :: k| == n
  {
    var s := set k | 0 <= k < |c| && c[k].Collect? :: k;
    forall k ensures k in s <==> k in Upto(n) {
      if 0 <= k < |c| {
        assert c[k].Collect? <==> k < n;
      }
    }
    assert s == Upto(n);
  }

  // ---------------------------------------------------------- the accounting

  function PolledHosts(visits: map<Host, Visit>): set<Host> {
    set h | h in visits && visits[h].Heard?
  }

  function FailedHosts(visits: map<Host, Visit>): set<Host> {
    set h | h in visits && visits[h].Failed?
  }

  predicate Counted(visits: map<Host, Visit>, polled: nat, failed: nat) {
    polled == |PolledHosts(visits)| && failed == |FailedHosts(visits)|
  }

  lemma CountOn(visits: map<Host, Visit>, polled: nat, failed: nat, host: Host, v: Visit)
    requires Counted(visits, polled, failed)
    requires host in visits ==> visits[host].Heard? && v.Heard?
    ensures host !in visits ==>
              var p: nat := if v.Heard? then polled + 1 else polled;
              var f: nat := if v.Failed? then failed + 1 else failed;
              Counted(visits[host := v], p, f)
    ensures host in visits ==> Counted(visits[host := v], polled, failed)
  {
    SetsOn(visits, host, v);
    hide PolledHosts, FailedHosts;
  }

  lemma SetsOn(visits: map<Host, Visit>, host: Host, v: Visit)
    requires host in visits ==> visits[host].Heard? && v.Heard?
    ensures host in visits ==> PolledHosts(visits[host := v]) == PolledHosts(visits)
    ensures host in visits ==> FailedHosts(visits[host := v]) == FailedHosts(visits)
    ensures host !in visits ==>
              && host !in PolledHosts(visits) && host !in FailedHosts(visits)
              && PolledHosts(visits[host := v]) == (
                   if v.Heard? then PolledHosts(visits) + {host} else PolledHosts(visits))
              && FailedHosts(visits[host := v]) == (
                   if v.Failed? then FailedHosts(visits) + {host} else FailedHosts(visits))
  {
  }

  /** Every host whose turn came was polled, failed or excluded. */
  lemma EveryTurnCounts(visits: map<Host, Visit>, polled: nat, failed: nat)
    requires Counted(visits, polled, failed)
    ensures polled + failed + |set h | h in visits && visits[h].Excluded?| == |visits|
  {
    var polledHosts, failedHosts := PolledHosts(visits), FailedHosts(visits);
    var out := set h | h in visits && visits[h].Excluded?;
    assert visits.Keys == polledHosts + failedHosts + out;
    Apart(polledHosts, failedHosts, out);
  }

  lemma Apart(a: set<Host>, b: set<Host>, c: set<Host>)
    requires a !! b && a !! c && b !! c
    ensures |a + b + c| == |a| + |b| + |c|
  {
    assert a + b !! c;
  }

  /**
   The logins are the candidates, and no host that answered is left without a device while
   there is a site to put one at.
   */
  predicate Fair(v: Visit, cfg: Config, dryRun: bool) {
    && (!v.Excluded? ==> AreCandidates(v.tries, cfg))
    && (v.Heard? && v.stage.Unresolved? ==> cfg.site.None? || dryRun)
  }

  predicate AreCandidates(t: Tries, cfg: Config) {
    t.list == Deduped(Candidates(t.cached, t.secret, cfg.profiles, t.hint))
  }

  predicate AllFair(visits: map<Host, Visit>, cfg: Config, dryRun: bool) {
    forall h | h in visits :: Fair(visits[h], cfg, dryRun) && (visits[h].Excluded? <==> h in cfg.exclude)
  }

  /** The books on the hosts: what was said to each, and what came of it. */
  ghost predicate Ledger(calls: seq<Call>, visits: map<Host, Visit>, polled: nat, failed: nat, cfg: Config,
                         dryRun: bool) {
    AllTalked(calls, visits, cfg.maxAttempts) && Counted(visits, polled, failed) && AllFair(visits, cfg, dryRun)
  }

  lemma LedgerOn(calls: seq<Call>, visits: map<Host, Visit>, polled: nat, failed: nat, cfg: Config, dryRun: bool,
                 host: Host, more: seq<Call>, v: Visit)
    requires Ledger(calls, visits, polled, failed, cfg, dryRun) && host !in visits
    requires Fair(v, cfg, dryRun) && (v.Excluded? <==> host in cfg.exclude)
    requires Talked(more, host, cfg.maxAttempts, v) && forall k | 0 <= k < |more| :: more[k].host == host
    ensures var p: nat := if v.Heard? then polled + 1 else polled;
            var f: nat := if v.Failed? then failed + 1 else failed;
            Ledger(calls + more, visits[host := v], p, f, cfg, dryRun)
  {
    hide AllTalked, Counted, Fair, Talked, Of;
    Untalked(calls, visits, cfg.maxAttempts, host);
    assert Of(calls, host) + more == more;
    TalkedOn(calls, visits, cfg.maxAttempts, host, more, v);
    CountOn(visits, polled, failed, host, v);
  }

  /** The turn of a host that answered gets further. */
  lemma LedgerRevised(calls: seq<Call>, visits: map<Host, Visit>, polled: nat, failed: nat, cfg: Config, dryRun: bool,
                      host: Host, more: seq<Call>, v: Visit)
    requires Ledger(calls, visits, polled, failed, cfg, dryRun)
    requires host in visits && visits[host].Heard? && v.Heard? && v.tries == visits[host].tries
    requires v.stage.Unresolved? ==> cfg.site.None? || dryRun
    requires Talked(Of(calls, host) + more, host, cfg.maxAttempts, v)
    requires forall k | 0 <= k < |more| :: more[k].host == host
    ensures Ledger(calls + more, visits[host := v], polled, failed, cfg, dryRun)
  {
    hide AllTalked, Counted, Fair, Talked, Of;
    assert Fair(visits[host], cfg, dryRun);
    StillFair(visits[host], v, cfg, dryRun);
    TalkedOn(calls, visits, cfg.maxAttempts, host, more, v);
    CountOn(visits, polled, failed, host, v);
  }

  lemma StillFair(before: Visit, v: Visit, cfg: Config, dryRun: bool)
    requires Fair(before, cfg, dryRun) && before.Heard? && v.Heard? && v.tries == before.tries
    requires v.stage.Unresolved? ==> cfg.site.None? || dryRun
    ensures Fair(v, cfg, dryRun)
  {
  }

  lemma Untalked(calls: seq<Call>, visits: map<Host, Visit>, cap: int, host: Host)
    requires AllTalked(calls, visits, cap)
    ensures if host in visits then Talked(Of(calls, host), host, cap, visits[host]) else Of(calls, host) == []
  {
    hide Talked, Of;
  }

  /** The host answered and nothing else was said yet; then it may be asked for its MACs. */
  lemma ToldOf(c: seq<Call>, host: Host, cap: int, tried: seq<Attempt>, how: Attempt, answer: seq<Neighbor>,
               own: seq<OwnMac>)
    requires Answered(c, host, cap, tried, how, answer)
    ensures how.cred.None? ==> Told(c + [], host, cap, tried, how, answer, [])
    ensures how.cred.Some? ==> Told(c + [ReadMacs(host, own)], host, cap, tried, how, answer, own)
  {
    assert c + [] == c;
    assert (c + [ReadMacs(host, own)])[..|c|] == c;
  }

  /** One host's turn went into the books. */
  predicate Recorded(before: map<Host, Visit>, visits: map<Host, Visit>, host: Host) {
    host in visits && visits == before[host := visits[host]]
  }

  lemma RecordedKeys(before: map<Host, Visit>, visits: map<Host, Visit>, host: Host)
    requires Recorded(before, visits, host)
    ensures visits.Keys == before.Keys + {host}
  {
  }

  // ----------------------------------------------------------- the known MACs

  function Just(mac: Option<string>): set<string> {
    if mac.Some? then {mac.value} else {}
  }

  /** The MACs a turn teaches beyond the chassis MAC the host was reported with. */
  function Learned(chassis: Option<string>, v: Visit): set<string> {
    if v.Heard? && (v.stage.Mapped? || (v.stage.Cut? && v.stage.learned)) then IdentityMacs(chassis, v.own) else {}
  }

  function FromTurn(log: seq<Entry>, k: nat, visits: map<Host, Visit>): set<string>
    requires k < |log|
  {
    if !First(log, k) then {}
    else
      Just(log[k].chassis)
      + if log[k].host in visits then Learned(log[k].chassis, visits[log[k].host]) else {}
  }

  /** All MACs known after the first `n` entries had their turn. */
  function KnownMacs(log: seq<Entry>, n: nat, visits: map<Host, Visit>): set<string>
    requires n <= |log|
  {
    if n == 0 then {} else KnownMacs(log, n - 1, visits) + FromTurn(log, n - 1, visits)
  }

  /** A MAC is known only from a turn: as the chassis reported with the host, or as an identity of a mapped switch. */
  lemma {:induction false} KnownFromTurns(log: seq<Entry>, n: nat, visits: map<Host, Visit>, mac: string)
    requires n <= |log|
    ensures mac in KnownMacs(log, n, visits) <==> exists k | 0 <= k < n :: mac in FromTurn(log, k, visits)
  {
    if n > 0 {
      KnownFromTurns(log, n - 1, visits, mac);
    }
  }

  /** The MACs of earlier turns do not change. */
  lemma {:induction false} KnownStays(before: seq<Entry>, log: seq<Entry>, n: nat, books: map<Host, Visit>,
                                      visits: map<Host, Visit>)
    requires before <= log && n <= |before|
    requires forall k | 0 <= k < n ::
               before[k].host in books && before[k].host in visits && visits[before[k].host] == books[before[k].host]
    ensures KnownMacs(log, n, visits) == KnownMacs(before, n, books)
  {
    if n > 0 {
      hide First, Learned;
      KnownStays(before, log, n - 1, books, visits);
      FirstBefore(before, log, n - 1);
    }
  }

  lemma KnownGoesOn(before: seq<Entry>, log: seq<Entry>, at: nat, books: map<Host, Visit>, visits: map<Host, Visit>)
    requires at < |before| && before <= log && First(before, at) && Seen(before, at, books.Keys)
    requires before[at].host !in books && Recorded(books, visits, before[at].host)
    ensures at + 1 <= |log|
    ensures KnownMacs(log, at + 1, visits)
         == KnownMacs(before, at, books) + Just(before[at].chassis)
             + Learned(before[at].chassis, visits[before[at].host])
  {
    hide First, Seen, Learned;
    forall k: nat | k < at
      ensures before[k].host in books && before[k].host in visits && visits[before[k].host] == books[before[k].host]
    {
      SeenHas(before, at, books.Keys, k);
    }
    hide Recorded;
    KnownStays(before, log, at, books, visits);
    FirstBefore(before, log, at);
  }

  /** A host was tried with the vendor its first entry suggested. */
  ghost predicate Sourced(log: seq<Entry>, popped: nat, visits: map<Host, Visit>)
    requires popped <= |log|
  {
    forall k | 0 <= k < popped && First(log, k) && log[k].host in visits :: Suggested(visits[log[k].host], log[k].hint)
  }

  predicate Suggested(v: Visit, hint: Option<SshDriver>) {
    v.Excluded? || v.tries.hint == hint
  }

  lemma SourcedGoesOn(before: seq<Entry>, log: seq<Entry>, at: nat, books: map<Host, Visit>, visits: map<Host, Visit>)
    requires at < |before| && before <= log && Seen(before, at, books.Keys) && Sourced(before, at, books)
    requires before[at].host !in books && Recorded(books, visits, before[at].host)
    requires Suggested(visits[before[at].host], before[at].hint)
    ensures at + 1 <= |log| && Sourced(log, at + 1, visits)
  {
    hide First, Seen, Suggested, Extends;
    forall k: nat | k < at + 1 && First(log, k) && log[k].host in visits
      ensures Suggested(visits[log[k].host], log[k].hint)
    {
      FirstBefore(before, log, k);
      if k < at {
        SeenHas(before, at, books.Keys, k);
      }
    }
  }

  lemma SeenHas(log: seq<Entry>, popped: nat, visited: set<Host>, k: nat)
    requires k < popped <= |log| && Seen(log, popped, visited)
    ensures log[k].host in visited
  {
    assert log[..popped][k] == log[k];
  }

  lemma SkippedAdds(log: seq<Entry>, at: nat, visits: map<Host, Visit>)
    requires at < |log| && !First(log, at)
    ensures KnownMacs(log, at + 1, visits) == KnownMacs(log, at, visits)
    ensures Sourced(log, at, visits) ==> Sourced(log, at + 1, visits)
  {
  }

  // ------------------------------------------------------- the errors and links

  /** No error cut a turn short. */
  predicate NoneCut(visits: map<Host, Visit>) {
    forall h | h in visits && visits[h].Heard? :: !visits[h].stage.Cut?
  }

  lemma NoneCutOn(books: map<Host, Visit>, visits: map<Host, Visit>, host: Host)
    requires Recorded(books, visits, host)
    ensures NoneCut(books) && (visits[host].Heard? ==> !visits[host].stage.Cut?) ==> NoneCut(visits)
  {
  }

  // ---------------------------------------------------------- what a turn did

  /**
   Duplicates of a device were folded, on the way from `s` to `t`. Whatever fails, only a
   record tied to it by an identity MAC goes.
   */
  ghost predicate FoldedInto(s: Store, t: Store, device: Handle, macs: set<string>, switch: Id, protective: bool,
                             clean: bool) {
    && MergedBy(s, t, device.id, macs)
    && (clean ==>
          && (switch in t.devices || (macs == {} && device.id !in s.devices))
          && (forall m | m in macs :: Carries(t, switch, m))
          && ((protective ==> Unpinned(s, device.id, macs)) ==>
                exists folded :: Reunited(s, folded, device, macs, switch) && OnlyRecorded(folded, t)))
  }

  /** The links were drawn, on the way from `s` to `t`. */
  ghost predicate LinksDrawn(s: Store, t: Store, x: Setting, switch: Id, neighbors: seq<Neighbor>, clean: bool) {
    Drawn(s, t, |neighbors|) && (clean ==> LinksAttempted(s, t, x.site, switch, neighbors, x.now))
  }

  /**
   The history bears out that a mapped host was mapped: its device was found or documented,
   its duplicates were folded and its links drawn, one after the other. `clean` says that
   no request failed.
   */
  ghost predicate MappedAs(t: Target, v: Visit, history: seq<Store>, x: Setting, clean: bool) {
    IsMapped(v) ==>
      var at, device, switch := v.stage.at, v.stage.device, v.stage.switch;
      && at + 3 < |history|
      && DeviceFor(history[at], history[at + 1], t, device, x, clean)
      && FoldedInto(history[at + 1], history[at + 2], device, IdentityMacs(t.chassis, v.own), switch, x.protective,
                    clean)
      && LinksDrawn(history[at + 2], history[at + 3], x, switch, v.answered, clean)
  }

  /** The device the entry came with, or else the one its host and chassis lead to. */
  ghost predicate DeviceFor(s: Store, t: Store, target: Target, device: Handle, x: Setting, clean: bool) {
    if target.device.Some? then device == target.device.value && t == s
    else clean ==> Ensured(s, t, x.site, Sighting(Some(target.host), target.chassis, None), x.now, Some(device))
  }

  lemma MappedStays(t: Target, v: Visit, before: seq<Store>, history: seq<Store>, x: Setting, was: bool, clean: bool)
    requires MappedAs(t, v, before, x, was) && Extends(before, history) && (clean ==> was)
    ensures MappedAs(t, v, history, x, clean)
  {
    hide MergedBy, LinksAttempted, Ensured, Reunited, OnlyRecorded, Carries, Unpinned, Drawn, IdentityMacs;
  }

  /** Every mapped host was mapped as its first entry says. */
  ghost predicate AllMappedAs(log: seq<Entry>, popped: nat, visits: map<Host, Visit>, history: seq<Store>, x: Setting,
                              clean: bool)
    requires popped <= |log|
  {
    forall k | 0 <= k < popped && First(log, k) && log[k].host in visits ::
      MappedAs(TargetOf(log[k]), visits[log[k].host], history, x, clean)
  }

  lemma MappedGoesOn(before: seq<Entry>, log: seq<Entry>, at: nat, books: map<Host, Visit>, visits: map<Host, Visit>,
                     past: seq<Store>, history: seq<Store>, x: Setting, was: bool, clean: bool)
    requires at < |before| && Extends(before, log) && Seen(before, at, books.Keys)
    requires AllMappedAs(before, at, books, past, x, was) && Extends(past, history) && (clean ==> was)
    requires before[at].host !in books && Recorded(books, visits, before[at].host)
    requires MappedAs(TargetOf(before[at]), visits[before[at].host], history, x, clean)
    ensures at + 1 <= |log| && AllMappedAs(log, at + 1, visits, history, x, clean)
  {
    hide MappedAs, First, Seen;
    forall k: nat | k < at + 1 && First(log, k) && log[k].host in visits
      ensures MappedAs(TargetOf(log[k]), visits[log[k].host], history, x, clean)
    {
      FirstBefore(before, log, k);
      if k < at {
        SeenHas(before, at, books.Keys, k);
        MappedStays(TargetOf(log[k]), visits[log[k].host], past, history, x, was, clean);
      }
    }
  }

  lemma MappedSkips(log: seq<Entry>, at: nat, visits: map<Host, Visit>, history: seq<Store>, x: Setting, clean: bool)
    requires at < |log| && !First(log, at)
    ensures AllMappedAs(log, at, visits, history, x, clean) ==> AllMappedAs(log, at + 1, visits, history, x, clean)
  {
    hide MappedAs;
  }

  // --------------------------------------------------------- where entries come from

  /** The entry is that of a seed, or of a switch that a mapped switch reported. */
  ghost predicate Origin(log: seq<Entry>, k: nat, visits: map<Host, Visit>, history: seq<Store>, x: Setting,
                         clean: bool)
    requires k < |log|
  {
    match log[k].via
    case None =>
      && log[k].index < |x.seeds| && log[k].chassis.None? && log[k].device.Some?
      && x.seeds[log[k].index] == Seed(log[k].device.value, Some(log[k].host), log[k].hint)
    case Some(p) => p < k && ReportedWith(log[k], log[p].host, visits, history, x, clean)
  }

  /** The host was reported by a mapped switch, with this chassis and vendor, and its device looked up or documented. */
  ghost predicate ReportedWith(e: Entry, source: Host, visits: map<Host, Visit>, history: seq<Store>, x: Setting,
                               clean: bool) {
    && source in visits && IsMapped(visits[source]) && e.index < |visits[source].answered|
    && var n := visits[source].answered[e.index];
       && IsSwitch(n) && n.mgmtIp == Some(e.host) && n.chassis == e.chassis && n.hint == e.hint
       && e.at + 1 < |history|
       && (clean ==> Ensured(history[e.at], history[e.at + 1], x.site, Sighting(n.mgmtIp, n.chassis, n.sysname), x.now,
                             e.device))
  }

  ghost predicate AllOrigins(log: seq<Entry>, visits: map<Host, Visit>, history: seq<Store>, x: Setting, clean: bool) {
    forall k | 0 <= k < |log| :: Origin(log, k, visits, history, x, clean)
  }

  lemma OriginsStay(log: seq<Entry>, books: map<Host, Visit>, visits: map<Host, Visit>, host: Host, past: seq<Store>,
                    history: seq<Store>, x: Setting, was: bool, clean: bool)
    requires AllOrigins(log, books, past, x, was) && Extends(past, history) && (clean ==> was)
    requires visits == books || (host !in books && Recorded(books, visits, host))
    ensures AllOrigins(log, visits, history, x, clean)
  {
    hide Ensured;
    forall k | 0 <= k < |log| ensures Origin(log, k, visits, history, x, clean) {
      assert Origin(log, k, books, past, x, was);
    }
  }

  lemma OriginsGrow(log: seq<Entry>, e: Entry, visits: map<Host, Visit>, history: seq<Store>, x: Setting, clean: bool)
    requires AllOrigins(log, visits, history, x, clean)
    requires e.via.Some? && e.via.value < |log|
    requires ReportedWith(e, log[e.via.value].host, visits, history, x, clean)
    ensures AllOrigins(log + [e], visits, history, x, clean)
  {
    hide ReportedWith;
    var grown := log + [e];
    forall k | 0 <= k < |grown| ensures Origin(grown, k, visits, history, x, clean) {
      if k < |log| {
        assert Origin(log, k, visits, history, x, clean);
      }
    }
  }

  /** The entry handled last is that of a mapped host above the depth limit, which reported these neighbours. */
  ghost predicate Expanding(log: seq<Entry>, popped: nat, visits: map<Host, Visit>, maxDepth: int, depth: nat,
                            neighbors: seq<Neighbor>) {
    && 0 < popped <= |log| && First(log, popped - 1) && log[popped - 1].depth == depth < maxDepth
    && log[popped - 1].host in visits && IsMapped(visits[log[popped - 1].host])
    && visits[log[popped - 1].host].answered == neighbors
  }

  lemma StillExpanding(before: seq<Entry>, log: seq<Entry>, popped: nat, visits: map<Host, Visit>, maxDepth: int,
                       depth: nat, neighbors: seq<Neighbor>)
    requires Expanding(before, popped, visits, maxDepth, depth, neighbors) && Extends(before, log)
    ensures Expanding(log, popped, visits, maxDepth, depth, neighbors)
  {
    FirstStays(before, log, popped - 1);
  }

  /** A seed's address, or one that a mapped switch reported for a switch. */
  ghost predicate Reported(visits: map<Host, Visit>, seeds: seq<Seed>, host: Host) {
    (exists i | 0 <= i < |seeds| :: seeds[i].primary == Some(host)) || exists source :: Reports(visits, source, host)
  }

  /** The mapped switch `source` reported `host` as a switch. */
  ghost predicate Reports(visits: map<Host, Visit>, source: Host, host: Host) {
    && source in visits && IsMapped(visits[source])
    && exists n | n in visits[source].answered :: IsSwitch(n) && n.mgmtIp == Some(host)
  }

  lemma OriginReported(log: seq<Entry>, visits: map<Host, Visit>, history: seq<Store>, x: Setting, clean: bool, k: nat)
    requires AllOrigins(log, visits, history, x, clean) && k < |log|
    ensures match log[k].via
            case None => exists i | 0 <= i < |x.seeds| :: x.seeds[i].primary == Some(log[k].host)
            case Some(p) => p < k && Reports(visits, log[p].host, log[k].host)
  {
    hide Ensured;
    assert Origin(log, k, visits, history, x, clean);
  }

  /** No entry is that of a stranger. */
  lemma NoStrangers(log: seq<Entry>, visits: map<Host, Visit>, history: seq<Store>, x: Setting, clean: bool)
    requires AllOrigins(log, visits, history, x, clean)
    ensures forall k | 0 <= k < |log| :: Reported(visits, x.seeds, log[k].host)
  {
    hide AllOrigins, Reports;
    forall k | 0 <= k < |log| ensures Reported(visits, x.seeds, log[k].host) {
      OriginReported(log, visits, history, x, clean, k);
    }
  }

  /** A way from a seed along what mapped switches reported. */
  ghost predicate ReportChain(visits: map<Host, Visit>, seeds: seq<Seed>, path: seq<Host>) {
    && path != [] && (exists i | 0 <= i < |seeds| :: seeds[i].primary == Some(path[0]))
    && (forall i | 0 < i < |path| :: Reports(visits, path[i - 1], path[i]))
  }

  /** The links between entries are links that were reported. */
  lemma ChainsAreReported(log: seq<Entry>, visits: map<Host, Visit>, history: seq<Store>, x: Setting, clean: bool,
                          path: seq<Host>)
    requires AllOrigins(log, visits, history, x, clean) && Chain(log, path)
    ensures ReportChain(visits, x.seeds, path)
  {
    hide AllOrigins, Reports;
    var s: nat :| s < |log| && log[s].via.None? && log[s].host == path[0];
    OriginReported(log, visits, history, x, clean, s);
    forall i | 0 < i < |path| ensures Reports(visits, path[i - 1], path[i]) {
      assert Link(log, path[i - 1], path[i]);
      var k: nat :| k < |log| && log[k].host == path[i] && log[k].via.Some?
                    && log[k].via.value < |log| && log[log[k].via.value].host == path[i - 1];
      OriginReported(log, visits, history, x, clean, k);
    }
  }

  // ------------------------------------------------------------- the coverage

  predicate Logged(log: seq<Entry>, host: Host) {
    exists k | 0 <= k < |log| :: log[k].host == host
  }

  /** A reported switch is in the log, or known by its chassis. */
  predicate Reached(log: seq<Entry>, macs: set<string>, n: Neighbor) {
    (n.mgmtIp.Some? && Logged(log, n.mgmtIp.value)) || (n.chassis.Some? && n.chassis.value in macs)
  }

  /** All switches the entry's host reported are reached, if it was to be expanded. */
  ghost predicate Expanded(log: seq<Entry>, k: nat, visits: map<Host, Visit>, macs: set<string>, maxDepth: int)
    requires k < |log|
  {
    First(log, k) && log[k].depth < maxDepth && log[k].host in visits && IsMapped(visits[log[k].host]) ==>
      AllReached(log, macs, visits[log[k].host].answered)
  }

  ghost predicate Covered(log: seq<Entry>, popped: nat, visits: map<Host, Visit>, macs: set<string>, maxDepth: int)
    requires popped <= |log|
  {
    forall k | 0 <= k < popped :: Expanded(log, k, visits, macs, maxDepth)
  }

  ghost predicate Seen(log: seq<Entry>, popped: nat, visited: set<Host>)
    requires popped <= |log|
  {
    visited == HostsOf(log[..popped])
  }

  function HostsOf(log: seq<Entry>): set<Host> {
    set k | 0 <= k < |log| :: log[k].host
  }

  lemma CoveredSkips(log: seq<Entry>, popped: nat, visits: map<Host, Visit>, macs: set<string>, maxDepth: int)
    requires popped < |log| && !First(log, popped)
    ensures Covered(log, popped, visits, macs, maxDepth) ==> Covered(log, popped + 1, visits, macs, maxDepth)
  {
  }

  lemma CoveredGoesOn(before: seq<Entry>, log: seq<Entry>, popped: nat, books: map<Host, Visit>,
                      visits: map<Host, Visit>, macs: set<string>, now: set<string>, maxDepth: int)
    requires popped < |before| && Extends(before, log) && Covered(before, popped, books, macs, maxDepth) && macs <= now
    requires Seen(before, popped, books.Keys)
    requires before[popped].host !in books && Recorded(books, visits, before[popped].host)
    requires IsMapped(visits[before[popped].host]) && before[popped].depth < maxDepth ==>
               AllReached(log, now, visits[before[popped].host].answered)
    ensures Covered(log, popped + 1, visits, now, maxDepth)
  {
    hide First, Seen, AllReached;
    FirstBefore(before, log, popped);
    forall k: nat | k < popped ensures Expanded(log, k, visits, now, maxDepth) {
      assert Expanded(before, k, books, macs, maxDepth);
      FirstBefore(before, log, k);
      SeenHas(before, popped, books.Keys, k);
      if First(log, k) && log[k].depth < maxDepth && IsMapped(visits[log[k].host]) {
        ReachedKept(before, log, macs, now, visits[log[k].host].answered);
      }
    }
  }

  lemma ReachedKept(before: seq<Entry>, log: seq<Entry>, macs: set<string>, now: set<string>, neighbors: seq<Neighbor>)
    requires Extends(before, log) && macs <= now && AllReached(before, macs, neighbors)
    ensures AllReached(log, now, neighbors)
  {
    assert forall k | 0 <= k < |before| :: log[k] == before[k];
  }

  lemma SeenGrows(log: seq<Entry>, e: Entry, popped: nat, visited: set<Host>)
    requires popped <= |log| && Seen(log, popped, visited)
    ensures Seen(log + [e], popped, visited)
  {
    assert (log + [e])[..popped] == log[..popped];
  }

  lemma FirstStays(before: seq<Entry>, log: seq<Entry>, k: nat)
    requires Extends(before, log) && First(before, k)
    ensures First(log, k) && log[k] == before[k]
  {
    assert forall i | 0 <= i <= k :: log[i] == before[i];
  }

  ghost predicate Extends<T>(before: seq<T>, log: seq<T>) {
    before <= log
  }

  lemma ExtendsSelf<T>(a: seq<T>)
    ensures Extends(a, a)
  {
  }

  lemma ExtendsMore<T>(a: seq<T>, b: seq<T>, c: seq<T>)
    requires Extends(a, b) && Extends(b, c)
    ensures Extends(a, c)
  {
  }

  ghost predicate AllReached(log: seq<Entry>, macs: set<string>, neighbors: seq<Neighbor>) {
    forall n | n in neighbors && IsSwitch(n) :: Reached(log, macs, n)
  }

  lemma NoneReached(log: seq<Entry>, macs: set<string>, neighbors: seq<Neighbor>)
    ensures AllReached(log, macs, neighbors[..0])
  {
  }

  lemma ReachedStays(before: seq<Entry>, log: seq<Entry>, macs: set<string>, neighbors: seq<Neighbor>, n: nat)
    requires n < |neighbors| && Extends(before, log) && AllReached(before, macs, neighbors[..n])
    requires IsSwitch(neighbors[n]) ==> Reached(log, macs, neighbors[n])
    ensures AllReached(log, macs, neighbors[..n + 1])
  {
    assert neighbors[..n + 1] == neighbors[..n] + [neighbors[n]];
    assert forall k | 0 <= k < |before| :: log[k] == before[k];
  }

  lemma SeenLogged(log: seq<Entry>, popped: nat, visited: set<Host>)
    requires popped <= |log| && Seen(log, popped, visited)
    ensures forall h | h in visited :: Logged(log, h)
  {
  }

  lemma LoggedAppend(log: seq<Entry>, e: Entry)
    ensures forall h :: Logged(log + [e], h) <==> Logged(log, h) || h == e.host
  {
    assert (log + [e])[|log|] == e;
    assert forall k | 0 <= k < |log| :: (log + [e])[k] == log[k];
  }

  // ------------------------------------------------------------ the results

  /** The switch is visited under its address, or its chassis is known under another. */
  predicate Met(visited: set<Host>, macs: set<string>, n: Neighbor) {
    (n.mgmtIp.Some? && n.mgmtIp.value in visited) || (n.chassis.Some? && n.chassis.value in macs)
  }

  /**
   A host counts as failed only after all candidates for the combination remembered, the
   credential stored and the vendor reported with it were tried, or made pointless, up to
   the limit; and no host is ever sent a login that is not among these candidates.
   */
  ghost predicate TriedFairly(c: seq<Call>, v: Visit, cfg: Config) {
    !v.Excluded? ==>
      && RightList(v.tries.list, v.tries.cached, v.tries.secret, cfg.profiles, v.tries.hint)
      && (forall j | 0 <= j < |c| && c[j].Collect? :: exists a | a in v.tries.list :: Sends(a, c[j].key))
      && (v.Failed? ==> forall j | 0 <= j < |v.tries.list| && j < cfg.maxAttempts :: Pointless(c, v.tries.list[j]))
  }

  /** The login was sent, or it needs SSH, which was found to be unreachable. */
  ghost predicate Pointless(c: seq<Call>, a: Attempt) {
    || (exists k | 0 <= k < |c| :: c[k].Collect? && Sends(a, c[k].key))
    || (&& a.driver in {Mikrotik, Cisco, Arista, Aruba, Unifi}
        && exists k | 0 <= k < |c| :: c[k].Collect? && c[k].answer.TransportError?
                                      && c[k].key.driver in {Mikrotik, Cisco, Arista, Aruba, Unifi})
  }

  lemma ConsideredIs(c: seq<Call>, a: Attempt)
    requires Considered(c, a)
    ensures Pointless(c, a)
  {
    hide KeyOf;
    forall k | 0 <= k < |c| && c[k].Collect? ensures Sends(a, c[k].key) <==> c[k].key == KeyOf(a) {
      KeyIs(a, c[k].key);
    }
  }

  ghost predicate GivenUpFairly(calls: seq<Call>, visits: map<Host, Visit>, cfg: Config) {
    forall h | h in visits :: TriedFairly(Of(calls, h), visits[h], cfg)
  }

  lemma FailuresAreFair(calls: seq<Call>, visits: map<Host, Visit>, polled: nat, failed: nat, cfg: Config, dryRun: bool)
    requires Ledger(calls, visits, polled, failed, cfg, dryRun)
    ensures GivenUpFairly(calls, visits, cfg)
  {
    hide AllTalked, Counted, Of, Talked, TriedFairly, AreCandidates;
    forall h | h in visits ensures TriedFairly(Of(calls, h), visits[h], cfg) {
      assert Fair(visits[h], cfg, dryRun);
      Untalked(calls, visits, cfg.maxAttempts, h);
      TriedInOrder(Of(calls, h), h, cfg, visits[h]);
    }
  }

  lemma TriedInOrder(c: seq<Call>, host: Host, cfg: Config, v: Visit)
    requires Talked(c, host, cfg.maxAttempts, v) && (!v.Excluded? ==> AreCandidates(v.tries, cfg))
    ensures TriedFairly(c, v, cfg)
  {
    hide RightList, Follows, Considered, Sparing, Keys, Won, Pointless, Sends, Deduped, Candidates;
    if !v.Excluded? {
      AttemptsAreRight(v.tries.cached, v.tries.secret, cfg.profiles, v.tries.hint);
      LoginsListed(c, host, cfg.maxAttempts, v);
      forall j | 0 <= j < |c| && c[j].Collect? ensures exists a | a in v.tries.list :: Sends(a, c[j].key) {
        KeysAre(v.tries.list, c[j].key);
      }
      if v.Failed? {
        AllConsidered(c, v.tries.list, Limit(v.tries.list, cfg.maxAttempts));
        forall j | 0 <= j < |v.tries.list| && j < cfg.maxAttempts ensures Pointless(c, v.tries.list[j]) {
          ConsideredIs(c, v.tries.list[j]);
        }
      }
    }
  }

  lemma LoginsListed(c: seq<Call>, host: Host, cap: int, v: Visit)
    requires Talked(c, host, cap, v) && !v.Excluded?
    ensures forall j | 0 <= j < |c| && c[j].Collect? :: c[j].key in Keys(v.tries.list)
  {
    hide Follows, Sparing, Keys, Won;
    if v.Failed? {
      OnlyListed(c, v.tries.list, Limit(v.tries.list, cap));
    } else {
      var n := if c != [] && c[|c| - 1].ReadMacs? then |c| - 1 else |c|;
      assert c[..|c|] == c;
      WonListed(c[..n], v.tries.list, cap, v.how);
      assert forall k | 0 <= k < n :: c[k] == c[..n][k];
    }
  }

  lemma WonListed(c: seq<Call>, tried: seq<Attempt>, cap: int, how: Attempt)
    requires Won(c, tried, cap, how)
    ensures forall k | 0 <= k < |c| :: c[k].Collect? && c[k].key in Keys(tried)
  {
    hide Follows, Keys;
    var n: nat :| 0 < n <= Limit(tried, cap) && how == tried[n - 1] && Follows(c, tried, n);
    OnlyListed(c, tried, n);
  }
}
