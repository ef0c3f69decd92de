/**
 The breadth-first shape of a crawl (lldp.py:205-308), seen through the list of all
 queue entries ever made, in the order they were made: the queue is what follows the
 first `popped` of them.
 */
module CrawlLog {
  import opened Prelude
  import opened Networks
  import opened LldpNeighbors
  import opened LldpSafety

  /** lldp.py:69-77. */
  datatype Target = Target(host: Host, device: Option<Handle>, hint: Option<SshDriver>, depth: nat,
                           chassis: Option<string>)

  /**
   A queue entry with its origin: `via` is the entry whose poll reported the host as its
   neighbour `index`, None for seed `index`; `at` is the inventory its device was looked up in.
   */
  datatype Entry = Entry(host: Host, depth: nat, via: Option<nat>, index: nat, at: nat, device: Option<Handle>,
                         chassis: Option<string>, hint: Option<SshDriver>)

  function TargetOf(e: Entry): Target {
    Target(e.host, e.device, e.hint, e.depth, e.chassis)
  }

  /** The first entry for its host: the one whose turn is not skipped. */
  predicate First(log: seq<Entry>, k: nat) {
    k < |log| && forall i | 0 <= i < k :: log[i].host != log[k].host
  }

  /** An entry is a seed, or one link away from an entry that was handled before it. */
  predicate Rooted(log: seq<Entry>, k: nat, popped: nat, maxDepth: int)
    requires k < |log|
  {
    match log[k].via
    case None => log[k].depth == 0
    case Some(p) =>
      p < k && p < popped && First(log, p) && log[p].depth < maxDepth && log[k].depth == log[p].depth + 1
  }

  predicate Sorted(log: seq<Entry>) {
    forall i, j | 0 <= i < j < |log| :: log[i].depth <= log[j].depth
  }

  ghost predicate Walk(log: seq<Entry>, popped: nat, maxDepth: int) {
    && popped <= |log|
    && (forall k | 0 <= k < |log| :: Rooted(log, k, popped, maxDepth))
    && Sorted(log)
    && (forall k | 0 <= k < |log| :: log[k].depth <= if popped == 0 then 0 else log[popped - 1].depth + 1)
  }

  lemma WalkStarts(log: seq<Entry>, maxDepth: int)
    requires forall k | 0 <= k < |log| :: log[k].depth == 0 && log[k].via.None?
    ensures Walk(log, 0, maxDepth)
  {
  }

  lemma WalkPops(log: seq<Entry>, popped: nat, maxDepth: int)
    requires Walk(log, popped, maxDepth) && popped < |log|
    ensures Walk(log, popped + 1, maxDepth)
  {
    var next := popped + 1;
    forall k | 0 <= k < |log| ensures Rooted(log, k, next, maxDepth) {
      assert Rooted(log, k, popped, maxDepth);
    }
  }

  /** The entry being handled adds entries one deeper than itself. */
  lemma WalkGrows(log: seq<Entry>, popped: nat, maxDepth: int, e: Entry)
    requires Walk(log, popped, maxDepth) && popped > 0
    requires First(log, popped - 1) && log[popped - 1].depth < maxDepth
    requires e.depth == log[popped - 1].depth + 1 && e.via == Some(popped - 1)
    ensures Walk(log + [e], popped, maxDepth)
  {
    RootedGrows(log, popped, maxDepth, e);
    hide Rooted, First;
    assert (log + [e])[|log|] == e;
    assert forall k | 0 <= k < |log| :: (log + [e])[k] == log[k];
  }

  /** Later entries do not change who came first. */
  lemma FirstBefore(before: seq<Entry>, log: seq<Entry>, k: nat)
    requires before <= log && k < |before|
    ensures log[k] == before[k] && (First(log, k) <==> First(before, k))
  {
    assert forall i | 0 <= i <= k :: log[i] == before[i];
  }

  lemma RootedGrows(log: seq<Entry>, popped: nat, maxDepth: int, e: Entry)
    requires forall k | 0 <= k < |log| :: Rooted(log, k, popped, maxDepth)
    requires 0 < popped <= |log| && First(log, popped - 1) && log[popped - 1].depth < maxDepth
    requires e.depth == log[popped - 1].depth + 1 && e.via == Some(popped - 1)
    ensures forall k | 0 <= k < |log + [e]| :: Rooted(log + [e], k, popped, maxDepth)
  {
    hide First, Rooted;
    forall k | 0 <= k < |log + [e]| ensures Rooted(log + [e], k, popped, maxDepth) {
      OneRooted(log, popped, maxDepth, e, k);
    }
  }

  lemma OneRooted(log: seq<Entry>, popped: nat, maxDepth: int, e: Entry, k: nat)
    requires k <= |log| && (k < |log| ==> Rooted(log, k, popped, maxDepth))
    requires 0 < popped <= |log| && First(log, popped - 1) && log[popped - 1].depth < maxDepth
    requires e.depth == log[popped - 1].depth + 1 && e.via == Some(popped - 1)
    ensures Rooted(log + [e], k, popped, maxDepth)
  {
    hide First;
    var p := if k < |log| then log[k].via else e.via;
    if p.Some? && p.value < |log| {
      FirstBefore(log, log + [e], p.value);
    }
  }

  // ---------------------------------------------------------------- what follows

  /** The queue is sorted by depth, with at most two neighbouring depths in it, and nothing is too deep. */
  lemma QueueSpansTwoDepths(log: seq<Entry>, popped: nat, maxDepth: int)
    requires Walk(log, popped, maxDepth)
    ensures forall i, j | popped <= i <= j < |log| :: log[i].depth <= log[j].depth <= log[i].depth + 1
    ensures forall k | 0 <= k < |log| :: log[k].depth <= if maxDepth < 0 then 0 else maxDepth
  {
    forall k | 0 <= k < |log| ensures log[k].depth <= if maxDepth < 0 then 0 else maxDepth {
      assert Rooted(log, k, popped, maxDepth);
    }
  }

  /** Some entry records that `a` reported `b`. */
  ghost predicate Link(log: seq<Entry>, a: Host, b: Host) {
    exists k | 0 <= k < |log| ::
      log[k].host == b && log[k].via.Some? && log[k].via.value < |log| && log[log[k].via.value].host == a
  }

  /** A way from a seed over enqueued links. */
  ghost predicate Chain(log: seq<Entry>, path: seq<Host>) {
    && path != []
    && (exists k | 0 <= k < |log| :: log[k].via.None? && log[k].host == path[0])
    && (forall i | 0 < i < |path| :: Link(log, path[i - 1], path[i]))
  }

  /** No way to a host is shorter than the depth at which it is handled. */
  lemma {:induction false} NoShorterChain(log: seq<Entry>, popped: nat, maxDepth: int, path: seq<Host>, k: nat)
    requires Walk(log, popped, maxDepth) && Chain(log, path)
    requires First(log, k) && log[k].host == path[|path| - 1]
    ensures log[k].depth <= |path| - 1
    decreases |path|
  {
    if |path| == 1 {
      var s :| 0 <= s < |log| && log[s].via.None? && log[s].host == path[0];
      assert Rooted(log, s, popped, maxDepth);
    } else {
      var before := path[..|path| - 1];
      assert Link(log, path[|path| - 2], path[|path| - 1]);
      var e :| 0 <= e < |log| && log[e].host == path[|path| - 1] && log[e].via.Some?
               && log[e].via.value < |log| && log[log[e].via.value].host == path[|path| - 2];
      assert Rooted(log, e, popped, maxDepth);
      assert forall i | 0 < i < |before| :: Link(log, before[i - 1], before[i]);
      NoShorterChain(log, popped, maxDepth, before, log[e].via.value);
      assert k <= e;
    }
  }

  /** And every entry ends a way exactly as long as its depth. */
  lemma {:induction false} ChainOfThatLength(log: seq<Entry>, popped: nat, maxDepth: int, k: nat)
    returns (path: seq<Host>)
    requires Walk(log, popped, maxDepth) && k < |log|
    ensures Chain(log, path) && path[|path| - 1] == log[k].host && |path| == log[k].depth + 1
    decreases k
  {
    assert Rooted(log, k, popped, maxDepth);
    match log[k].via
    case None =>
      path := [log[k].host];
    case Some(p) =>
      var before := ChainOfThatLength(log, popped, maxDepth, p);
      path := before + [log[k].host];
      assert Link(log, log[p].host, log[k].host);
      assert path[0] == before[0];
      forall i | 0 < i < |path| ensures Link(log, path[i - 1], path[i]) {
        if i < |before| {
          assert Link(log, before[i - 1], before[i]);
        }
      }
  }

  /**
   A host is handled at the least depth of any entry for it, which is the length of the
   shortest chain of enqueued links from a seed.
   */
  lemma HandledAtLeastDepth(log: seq<Entry>, popped: nat, maxDepth: int, k: nat)
    requires Walk(log, popped, maxDepth) && First(log, k)
    ensures forall j | 0 <= j < |log| && log[j].host == log[k].host :: log[k].depth <= log[j].depth
    ensures exists path :: Chain(log, path) && path[|path| - 1] == log[k].host && |path| == log[k].depth + 1
    ensures forall path | Chain(log, path) && path[|path| - 1] == log[k].host :: log[k].depth + 1 <= |path|
  {
    forall j | 0 <= j < |log| && log[j].host == log[k].host ensures log[k].depth <= log[j].depth {
      assert k <= j;
    }
    var path := ChainOfThatLength(log, popped, maxDepth, k);
    forall path | Chain(log, path) && path[|path| - 1] == log[k].host ensures log[k].depth + 1 <= |path| {
      NoShorterChain(log, popped, maxDepth, path, k);
    }
  }
}
