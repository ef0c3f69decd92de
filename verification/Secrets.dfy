/**
 The document whose secrets are hidden and filled in place (config_transfer.py:119-223).
 */
module Secrets {
  import opened ConfigTree
  import opened Redaction
  import opened RedactionLaws
  import opened SecretPlaces

  // ------------------------------------------------------------ the walks

  /** `_walk` with the visitor `hide` (config_transfer.py:119-148). */
  method WalkRedact(node: Json, path: Path) returns (out: Json)
    ensures out == RedactPath(node, path)
    decreases |path|
  {
    if path == [] {
      return node;
    }
    var head, rest := path[0], path[1..];
    if head == STAR {
      match node {
        case Arr(xs) =>
          var items := [];
          for i := 0 to |xs|
            invariant |items| == i
            invariant forall j | 0 <= j < i :: items[j] == RedactPath(xs[j], rest)
          {
            var item := WalkRedact(xs[i], rest);
            items := items + [item];
          }
          return Arr(items);
        case Obj(f) =>
          var fields, todo := f, f.Keys;
          while todo != {}
            invariant todo <= f.Keys && fields.Keys == f.Keys
            invariant forall k | k in f :: fields[k] == if k in todo then f[k] else RedactPath(f[k], rest)
            decreases |todo|
          {
            var k :| k in todo;
            var value := WalkRedact(f[k], rest);
            fields := fields[k := value];
            todo := todo - {k};
          }
          return Obj(fields);
        case _ =>
          return node;
      }
    }
    if !node.Obj? || head !in node.fields {
      return node;
    }
    if rest != [] {
      var value := WalkRedact(node.fields[head], rest);
      return Obj(node.fields[head := value]);
    }
    if Truthy(node.fields[head]) {
      return Obj(node.fields[head := REDACTED]);
    }
    assert node.fields[head := node.fields[head]] == node.fields;
    return node;
  }

  /** The locations of a subtree, seen from the root. */
  function Prefixed(trail: Loc, locs: set<Loc>): (r: set<Loc>)
    ensures forall loc :: loc in r <==> trail <= loc && loc[|trail|..] in locs
  {
    assert forall l: Loc :: (trail + l)[|trail|..] == l;
    assert forall l: Loc | trail <= l :: trail + l[|trail|..] == l;
    set l | l in locs :: trail + l
  }

  /** The list has every member of the set, once. */
  ghost predicate Lists(s: seq<Loc>, locs: set<Loc>) {
    multiset(s) == multiset(locs)
  }

  lemma ListsMore(s: seq<Loc>, t: seq<Loc>, a: set<Loc>, b: set<Loc>)
    requires Lists(s, a) && Lists(t, b) && a !! b
    ensures Lists(s + t, a + b)
  {
  }

  lemma ListsNone(locs: set<Loc>)
    requires locs == {}
    ensures Lists([], locs)
  {
  }

  /** The reports found under the first `i` elements of a list. */
  ghost function UpTo(locs: set<Loc>, trail: Loc, i: nat): set<Loc> {
    set l: Loc | l in locs && |l| > |trail| && l[|trail|].Index? && l[|trail|].i < i
  }

  /** The reports found under the given keys of a dict. */
  ghost function UnderKeys(locs: set<Loc>, trail: Loc, keys: set<string>): set<Loc> {
    set l: Loc | l in locs && |l| > |trail| && l[|trail|].Key? && l[|trail|].name in keys
  }

  lemma NoKeys(locs: set<Loc>, trail: Loc)
    ensures UnderKeys(locs, trail, {}) == {}
  {
  }

  lemma PrefixedSplit(trail: Loc, s: Step, locs: set<Loc>, loc: Loc)
    ensures loc in Prefixed(trail, Under(s, locs)) <==> loc in Prefixed(trail + [s], locs)
  {
    if trail <= loc && |loc| > |trail| {
      assert loc[|trail|..][1..] == loc[|trail| + 1..];
      assert loc[|trail|..][0] == loc[|trail|];
    }
  }

  /** What a merge of this node reports, seen from the root. */
  ghost function Reports(inc: Json, cur: Json, path: Path, prefix: Path, trail: Loc): set<Loc> {
    Prefixed(trail, Unresolved(inc, cur, path, prefix))
  }

  lemma ListRound(xs: seq<Json>, cur: Json, path: Path, prefix: Path, trail: Loc, i: nat)
    requires path != [] && path[0] == STAR && i < |xs|
    ensures var all := Reports(Arr(xs), cur, path, prefix, trail);
            var found := Reports(xs[i], Counterpart(xs[i], cur, ListKey(prefix)), path[1..], prefix + [STAR],
                                 trail + [Index(i)]);
            UpTo(all, trail, i + 1) == UpTo(all, trail, i) + found && UpTo(all, trail, i) !! found
  {
    var all := Reports(Arr(xs), cur, path, prefix, trail);
    var below := Unresolved(xs[i], Counterpart(xs[i], cur, ListKey(prefix)), path[1..], prefix + [STAR]);
    forall l ensures l in all && |l| > |trail| && l[|trail|] == Index(i) <==> l in Prefixed(trail + [Index(i)], below) {
      PrefixedSplit(trail, Index(i), below, l);
      if trail <= l && |l| > |trail| {
        assert l[|trail|..][0] == l[|trail|];
      }
    }
  }

  lemma ListDone(xs: seq<Json>, cur: Json, path: Path, prefix: Path, trail: Loc)
    requires path != [] && path[0] == STAR
    ensures UpTo(Reports(Arr(xs), cur, path, prefix, trail), trail, |xs|) == Reports(Arr(xs), cur, path, prefix, trail)
  {
    forall l: Loc | l in Reports(Arr(xs), cur, path, prefix, trail)
      ensures |l| > |trail| && l[|trail|].Index? && l[|trail|].i < |xs|
    {
      assert l[|trail|..][0] == l[|trail|];
    }
  }

  lemma DictRound(f: map<string, Json>, cur: Json, path: Path, prefix: Path, trail: Loc, k: string, seen: set<string>)
    requires path != [] && path[0] == STAR && k in f && k !in seen
    ensures var all := Reports(Obj(f), cur, path, prefix, trail);
            var found := Reports(f[k], Get(cur, k), path[1..], prefix + [STAR], trail + [Key(k)]);
            UnderKeys(all, trail, seen + {k}) == UnderKeys(all, trail, seen) + found
                && UnderKeys(all, trail, seen) !! found
  {
    var all := Reports(Obj(f), cur, path, prefix, trail);
    var found := Reports(f[k], Get(cur, k), path[1..], prefix + [STAR], trail + [Key(k)]);
    forall l ensures l in all && |l| > |trail| && l[|trail|] == Key(k) <==> l in found {
      DictReport(f, cur, path, prefix, trail, k, l);
    }
    hide Reports;
    assert UnderKeys(all, trail, seen + {k}) == UnderKeys(all, trail, seen) + found;
  }

  lemma DictReport(f: map<string, Json>, cur: Json, path: Path, prefix: Path, trail: Loc, k: string, l: Loc)
    requires path != [] && path[0] == STAR && k in f
    ensures l in Reports(Obj(f), cur, path, prefix, trail) && |l| > |trail| && l[|trail|] == Key(k) <==>
            l in Reports(f[k], Get(cur, k), path[1..], prefix + [STAR], trail + [Key(k)])
  {
    PrefixedSplit(trail, Key(k), Unresolved(f[k], Get(cur, k), path[1..], prefix + [STAR]), l);
    if trail <= l && |l| > |trail| {
      assert l[|trail|..][0] == l[|trail|];
    }
  }

  lemma DictDone(f: map<string, Json>, cur: Json, path: Path, prefix: Path, trail: Loc)
    requires path != [] && path[0] == STAR
    ensures UnderKeys(Reports(Obj(f), cur, path, prefix, trail), trail, f.Keys)
         == Reports(Obj(f), cur, path, prefix, trail)
  {
    forall l: Loc | l in Reports(Obj(f), cur, path, prefix, trail)
      ensures |l| > |trail| && l[|trail|].Key? && l[|trail|].name in f
    {
      assert l[|trail|..][0] == l[|trail|];
    }
  }

  /**
   The inner `walk` of merge_redacted (config_transfer.py:175-219): the rewritten
   node, and the blanked locations in the order they are met.
   */
  method WalkMerge(inc: Json, cur: Json, path: Path, prefix: Path, trail: Loc)
    returns (out: Json, unresolved: seq<Loc>)
    ensures out == MergePath(inc, cur, path, prefix)
    ensures Lists(unresolved, Reports(inc, cur, path, prefix, trail))
    decreases |path|, 1
  {
    if path == [] {
      return inc, [];
    }
    if path[0] == STAR {
      match inc {
        case Arr(xs) =>
          out, unresolved := WalkMergeList(xs, cur, path, prefix, trail);
        case Obj(f) =>
          out, unresolved := WalkMergeDict(f, cur, path, prefix, trail);
        case _ =>
          return inc, [];
      }
    } else if inc.Obj? && path[0] in inc.fields {
      out, unresolved := WalkMergeField(inc.fields, cur, path, prefix, trail);
    } else {
      return inc, [];
    }
  }

  method WalkMergeList(xs: seq<Json>, cur: Json, path: Path, prefix: Path, trail: Loc)
    returns (out: Json, unresolved: seq<Loc>)
    requires path != [] && path[0] == STAR
    ensures out == MergePath(Arr(xs), cur, path, prefix)
    ensures Lists(unresolved, Reports(Arr(xs), cur, path, prefix, trail))
    decreases |path|, 0
  {
    hide Reports, Lists;
    var key, rest, items := ListKey(prefix), path[1..], [];
    unresolved := [];
    ghost var all := Reports(Arr(xs), cur, path, prefix, trail);
    ListsNone(UpTo(all, trail, 0));
    for i := 0 to |xs|
      invariant |items| == i
      invariant forall j | 0 <= j < i ::
        items[j] == MergePath(xs[j], Counterpart(xs[j], cur, key), rest, prefix + [STAR])
      invariant Lists(unresolved, UpTo(all, trail, i))
    {
      var c := Counterpart(xs[i], cur, key);
      ghost var found := Reports(xs[i], c, rest, prefix + [STAR], trail + [Index(i)]);
      ListRound(xs, cur, path, prefix, trail, i);
      var item, more := WalkMerge(xs[i], c, rest, prefix + [STAR], trail + [Index(i)]);
      ListsMore(unresolved, more, UpTo(all, trail, i), found);
      items := items + [item];
      unresolved := unresolved + more;
    }
    ListDone(xs, cur, path, prefix, trail);
    out := Arr(items);
  }

  method WalkMergeDict(f: map<string, Json>, cur: Json, path: Path, prefix: Path, trail: Loc)
    returns (out: Json, unresolved: seq<Loc>)
    requires path != [] && path[0] == STAR
    ensures out == MergePath(Obj(f), cur, path, prefix)
    ensures Lists(unresolved, Reports(Obj(f), cur, path, prefix, trail))
    decreases |path|, 0
  {
    hide Reports, Lists, UnderKeys, ListKey, Truthy, MergePath;
    var rest, fields, seen := path[1..], f, {};
    unresolved := [];
    ghost var all := Reports(Obj(f), cur, path, prefix, trail);
    NoKeys(all, trail);
    ListsNone(UnderKeys(all, trail, seen));
    while seen != f.Keys
      invariant seen <= f.Keys && fields.Keys == f.Keys
      invariant forall k | k in f ::
        fields[k] == if k in seen then MergePath(f[k], Get(cur, k), rest, prefix + [STAR]) else f[k]
      invariant Lists(unresolved, UnderKeys(all, trail, seen))
      decreases f.Keys - seen
    {
      assert f.Keys == seen + (f.Keys - seen);
      var k :| k in f.Keys - seen;
      ghost var found := Reports(f[k], Get(cur, k), rest, prefix + [STAR], trail + [Key(k)]);
      DictRound(f, cur, path, prefix, trail, k, seen);
      var value, more := WalkMerge(f[k], Get(cur, k), rest, prefix + [STAR], trail + [Key(k)]);
      ListsMore(unresolved, more, UnderKeys(all, trail, seen), found);
      fields, unresolved, seen := fields[k := value], unresolved + more, seen + {k};
    }
    DictDone(f, cur, path, prefix, trail);
    DictMerged(f, fields, cur, path, prefix);
    out := Obj(fields);
  }

  lemma DictMerged(f: map<string, Json>, fields: map<string, Json>, cur: Json, path: Path, prefix: Path)
    requires path != [] && path[0] == STAR && fields.Keys == f.Keys
    requires forall k | k in f :: fields[k] == MergePath(f[k], Get(cur, k), path[1..], prefix + [STAR])
    ensures MergePath(Obj(f), cur, path, prefix) == Obj(fields)
  {
  }

  method WalkMergeField(f: map<string, Json>, cur: Json, path: Path, prefix: Path, trail: Loc)
    returns (out: Json, unresolved: seq<Loc>)
    requires path != [] && path[0] != STAR && path[0] in f
    ensures out == MergePath(Obj(f), cur, path, prefix)
    ensures Lists(unresolved, Reports(Obj(f), cur, path, prefix, trail))
    decreases |path|, 0
  {
    var head, rest := path[0], path[1..];
    if rest == [] {
      if f[head] != REDACTED {
        return Obj(f), [];
      }
      var value := Get(cur, head);
      if Truthy(value) {
        return Obj(f[head := value]), [];
      }
      assert forall l: Loc | trail <= l && l[|trail|..] == [Key(head)] :: l == trail + [Key(head)];
      assert Reports(Obj(f), cur, path, prefix, trail) == {trail + [Key(head)]};
      return Obj(f[head := Str("")]), [trail + [Key(head)]];
    }
    var value, more := WalkMerge(f[head], Get(cur, head), rest, prefix + [head], trail + [Key(head)]);
    forall l { PrefixedSplit(trail, Key(head), Unresolved(f[head], Get(cur, head), rest, prefix + [head]), l); }
    assert Reports(Obj(f), cur, path, prefix, trail)
        == Reports(f[head], Get(cur, head), rest, prefix + [head], trail + [Key(head)]);
    return Obj(f[head := value]), more;
  }

  lemma MergeRound(inc: Json, cur: Json, paths: seq<Path>, i: nat)
    requires i < |paths|
    ensures MergeAll(inc, cur, paths[i..]) == MergeAll(MergePath(inc, cur, paths[i], []), cur, paths[i + 1..])
    ensures UnresolvedAll(inc, cur, paths[i..]) ==
            Reports(inc, cur, paths[i], [], []) + UnresolvedAll(MergePath(inc, cur, paths[i], []), cur, paths[i + 1..])
  {
    assert paths[i..][1..] == paths[i + 1..];
    assert Reports(inc, cur, paths[i], [], []) == Unresolved(inc, cur, paths[i], []);
  }

  lemma NewReports(inc: Json, cur: Json, paths: seq<Path>, i: nat, found: set<Loc>)
    requires Good(paths) && i < |paths|
    requires forall l | l in found :: Secret(paths[..i], l)
    ensures Reports(inc, cur, paths[i], [], []) !! found
    ensures forall l | l in found + Reports(inc, cur, paths[i], [], []) :: Secret(paths[..i + 1], l)
  {
    var p := paths[i];
    assert paths[..i + 1] == paths[..i] + [p];
    forall l | l in Reports(inc, cur, p, [], []) ensures Names(p, l) && l !in found {
      assert l[0..] == l;
      UnresolvedAt(inc, cur, p, [], l);
      if l in found {
        var q :| q in paths[..i] && Names(q, l);
        NamesTouchOverlap(q, p, l);
      }
    }
    forall l | l in found ensures Secret(paths[..i + 1], l) {
      var q :| q in paths[..i] && Names(q, l);
      assert q in paths[..i + 1];
    }
  }

  method MergeAlong(inc: Json, current: Json, paths: seq<Path>) returns (out: Json, unresolved: seq<Loc>)
    requires Good(paths)
    ensures out == MergeAll(inc, current, paths)
    ensures Lists(unresolved, UnresolvedAll(inc, current, paths))
  {
    hide Reports, Lists, MergeAll, UnresolvedAll, Good;
    out, unresolved := inc, [];
    ghost var found: set<Loc> := {};
    assert paths[0..] == paths;
    ListsNone(found);
    for i := 0 to |paths|
      invariant MergeAll(out, current, paths[i..]) == MergeAll(inc, current, paths)
      invariant found + UnresolvedAll(out, current, paths[i..]) == UnresolvedAll(inc, current, paths)
      invariant forall l | l in found :: Secret(paths[..i], l)
      invariant Lists(unresolved, found)
    {
      MergeRound(out, current, paths, i);
      NewReports(out, current, paths, i, found);
      ghost var next := Reports(out, current, paths[i], [], []);
      var merged, more := WalkMerge(out, current, paths[i], [], []);
      ListsMore(unresolved, more, found, next);
      out, unresolved, found := merged, unresolved + more, found + next;
    }
    MergeDone(out, current, paths);
  }

  lemma MergeDone(out: Json, cur: Json, paths: seq<Path>)
    ensures MergeAll(out, cur, paths[|paths|..]) == out && UnresolvedAll(out, cur, paths[|paths|..]) == {}
  {
  }

  lemma ListsSet(s: seq<Loc>, locs: set<Loc>)
    requires Lists(s, locs)
    ensures (set l | l in s) == locs
  {
    forall l ensures l in s <==> l in locs {
      assert l in multiset(s) <==> l in multiset(locs);
    }
  }

  // --------------------------------------------------------- the document

  /** A serialized configuration that redact and merge_redacted edit in place. */
  class Document {
    var root: Json

    constructor (tree: Json)
      ensures root == tree
    {
      root := tree;
    }

    /** config_transfer.py:143-152. */
    method Redact()
      modifies this
      ensures root == RedactAll(old(root), SECRET_PATHS) && SecretsHidden(old(root), root)
    {
      hide SecretsHidden;
      RedactionHides(root);
      for i := 0 to |SECRET_PATHS|
        invariant RedactAll(root, SECRET_PATHS[i..]) == RedactAll(old(root), SECRET_PATHS)
      {
        assert SECRET_PATHS[i..][1..] == SECRET_PATHS[i + 1..];
        root := WalkRedact(root, SECRET_PATHS[i]);
      }
    }

    /** config_transfer.py:165-223. */
    method MergeRedacted(current: Json) returns (unresolved: seq<Loc>)
      modifies this
      ensures root == MergeAll(old(root), current, SECRET_PATHS)
      ensures Lists(unresolved, UnresolvedAll(old(root), current, SECRET_PATHS))
      ensures SecretsFilled(old(root), current, root, set l | l in unresolved)
    {
      hide SecretsFilled, Lists, MergeAll, UnresolvedAll, SECRET_PATHS;
      SecretPathsAreGood();
      MergeFills(root, current);
      ghost var blanked := UnresolvedAll(root, current, SECRET_PATHS);
      root, unresolved := MergeAlong(root, current, SECRET_PATHS);
      ListsSet(unresolved, blanked);
    }
  }
}
