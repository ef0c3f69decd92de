/**
 The laws of redaction and merging over a whole list of secret paths: framing,
 the value every secret location gets, the round trip, and independence from the
 order in which the paths are walked.
 */
module RedactionLaws {
  import opened Prelude
  import opened ConfigTree
  import opened Redaction

  /** No walk along `p` can rewrite an identity that pairs list elements on the way along `q`. */
  predicate KeepsIdentities(p: Path, q: Path) {
    forall n | 0 <= n < |q| && q[n] == STAR && ListKey(q[..n]).Some? ::
      !Overlap(p, q[..n + 1] + [ListKey(q[..n]).value])
  }

  /** What the secret paths must satisfy for the laws below; SecretPathsAreGood shows they do. */
  ghost predicate Good(paths: seq<Path>) {
    && (forall i | 0 <= i < |paths| :: EndsInField(paths[i]))
    && (forall i, j | 0 <= i < |paths| && 0 <= j < |paths| && i != j :: !Overlap(paths[i], paths[j]))
    && (forall i, j | 0 <= i < |paths| && 0 <= j < |paths| :: KeepsIdentities(paths[i], paths[j]))
  }

  /** `b` differs from `a` at most in the leaves that `p` names. */
  ghost predicate SameOff(a: Json, b: Json, p: Path) {
    forall loc ::
      && (!Touches(p, loc) ==> At(a, loc) == At(b, loc))
      && (Touches(p, loc) && |loc| < |p| ==> ShapeAt(a, loc) == ShapeAt(b, loc))
  }

  /** No path reaches the location or anything below it. */
  ghost predicate Off(paths: seq<Path>, loc: Loc) {
    forall p | p in paths :: !Touches(p, loc)
  }

  /** Every path that reaches the location goes on below it. */
  ghost predicate Above(paths: seq<Path>, loc: Loc) {
    forall p | p in paths :: Touches(p, loc) ==> |loc| < |p|
  }

  /** The location is a secret leaf. */
  ghost predicate Secret(paths: seq<Path>, loc: Loc) {
    exists p | p in paths :: Names(p, loc)
  }

  // -------------------------------------------- identities along a location

  /** At step `n` of the way to `loc`, the trees look alike and carry the same identity. */
  ghost predicate AlikeAt(a: Json, b: Json, path: Path, prefix: Path, loc: Loc, n: nat)
    requires n < |loc| == |path|
  {
    && ShapeAt(a, loc[..n]) == ShapeAt(b, loc[..n])
    && (path[n] == STAR && ListKey(prefix + path[..n]).Some? ==>
          && ShapeAt(a, loc[..n + 1]) == ShapeAt(b, loc[..n + 1])
          && var id := loc[..n + 1] + [Key(ListKey(prefix + path[..n]).value)];
             At(a, id) == At(b, id))
  }

  ghost predicate SameAlong(a: Json, b: Json, path: Path, prefix: Path, loc: Loc)
    requires |path| == |loc|
  {
    forall n | 0 <= n < |loc| :: AlikeAt(a, b, path, prefix, loc, n)
  }

  lemma SameAlongStep(a: Json, b: Json, path: Path, prefix: Path, loc: Loc)
    requires |path| == |loc| > 0
    requires SameAlong(a, b, path, prefix, loc)
    requires Child(a, loc[0]).Some? && Child(b, loc[0]).Some?
    ensures SameAlong(Child(a, loc[0]).value, Child(b, loc[0]).value, path[1..], prefix + [path[0]], loc[1..])
  {
    var c, d := Child(a, loc[0]).value, Child(b, loc[0]).value;
    forall n | 0 <= n < |loc| - 1 ensures AlikeAt(c, d, path[1..], prefix + [path[0]], loc[1..], n) {
      assert AlikeAt(a, b, path, prefix, loc, n + 1);
      AlikeBelow(a, b, path, prefix, loc, n);
    }
  }

  lemma AlikeBelow(a: Json, b: Json, path: Path, prefix: Path, loc: Loc, n: nat)
    requires |path| == |loc| > n + 1 && AlikeAt(a, b, path, prefix, loc, n + 1)
    requires Child(a, loc[0]).Some? && Child(b, loc[0]).Some?
    ensures AlikeAt(Child(a, loc[0]).value, Child(b, loc[0]).value, path[1..], prefix + [path[0]], loc[1..], n)
  {
    hide Child, ListKey;
    PrefixBelow(path, prefix, n);
    WayBelow(loc, n);
    if ListKey(prefix + path[..n + 1]).Some? {
      NamedBelow(loc, n, Key(ListKey(prefix + path[..n + 1]).value));
    }
  }

  lemma PrefixBelow(path: Path, prefix: Path, n: nat)
    requires n + 1 < |path|
    ensures prefix + [path[0]] + path[1..][..n] == prefix + path[..n + 1]
  {
    assert path[..n + 1] == [path[0]] + path[1..][..n];
  }

  lemma WayBelow(loc: Loc, n: nat)
    requires n + 1 < |loc|
    ensures loc[..n + 1][1..] == loc[1..][..n] && loc[..n + 2][1..] == loc[1..][..n + 1]
  {
  }

  lemma NamedBelow(loc: Loc, n: nat, k: Step)
    requires n + 1 < |loc|
    ensures (loc[..n + 2] + [k])[1..] == loc[1..][..n + 1] + [k]
  {
  }

  lemma AtOne(t: Json, s: Step)
    ensures At(t, [s]) == Child(t, s)
  {
    assert [s][1..] == [];
  }

  /** Equal identities pair with equal elements of the current tree. */
  lemma SamePairing(a: Json, b: Json, cur: Json, path: Path, prefix: Path, loc: Loc)
    requires |path| == |loc| > 0 && Fits(path[0], loc[0])
    requires Child(a, loc[0]).Some? && Child(b, loc[0]).Some?
    requires SameAlong(a, b, path, prefix, loc)
    ensures Across(Child(a, loc[0]).value, loc[0], cur, prefix) == Across(Child(b, loc[0]).value, loc[0], cur, prefix)
  {
    if loc[0].Index? && ListKey(prefix).Some? {
      var c, d, k := Child(a, loc[0]).value, Child(b, loc[0]).value, ListKey(prefix).value;
      assert AlikeAt(a, b, path, prefix, loc, 0);
      assert prefix + path[..0] == prefix;
      assert loc[..1] == [loc[0]];
      AtOne(a, loc[0]);
      AtOne(b, loc[0]);
      AtAppend(a, [loc[0]], [Key(k)]);
      AtAppend(b, [loc[0]], [Key(k)]);
      AtOne(c, Key(k));
      AtOne(d, Key(k));
    }
  }

  lemma {:induction false} SourceSame(a: Json, b: Json, cur: Json, path: Path, prefix: Path, loc: Loc)
    requires EndsInField(path) && Names(path, loc)
    requires At(a, loc).Some? && At(b, loc).Some?
    requires SameAlong(a, b, path, prefix, loc)
    ensures Source(a, cur, path, prefix, loc) == Source(b, cur, path, prefix, loc)
    decreases |path|
  {
    var c, d := Child(a, loc[0]).value, Child(b, loc[0]).value;
    SamePairing(a, b, cur, path, prefix, loc);
    if |path| > 1 {
      SameAlongStep(a, b, path, prefix, loc);
      SourceSame(c, d, Across(c, loc[0], cur, prefix), path[1..], prefix + [path[0]], loc[1..]);
    }
  }

  /** On the way to a `q` location a walk along `p` passes or stays clear. */
  lemma WayKept(a: Json, b: Json, p: Path, q: Path, loc: Loc, n: nat)
    requires SameOff(a, b, p) && Names(q, loc) && n < |loc|
    requires p == q || !Overlap(p, q)
    ensures ShapeAt(a, loc[..n]) == ShapeAt(b, loc[..n])
  {
    if Touches(p, loc[..n]) && |p| <= n {
      TouchesExtend(p, loc, n);
      NamesTouchOverlap(p, q, loc);
    }
  }

  lemma IdentityKept(a: Json, b: Json, p: Path, q: Path, loc: Loc, n: nat)
    requires SameOff(a, b, p) && Names(q, loc) && n < |loc| && KeepsIdentities(p, q)
    requires q[n] == STAR && ListKey(q[..n]).Some?
    ensures var id := loc[..n + 1] + [Key(ListKey(q[..n]).value)]; At(a, id) == At(b, id)
  {
    var k := ListKey(q[..n]).value;
    var pattern, id := q[..n + 1] + [k], loc[..n + 1] + [Key(k)];
    IdentityNamed(q, loc, n + 1, k);
    if Touches(p, id) {
      NamesTouchOverlap(p, pattern, id);
    }
  }

  /** A walk along `p` leaves the way to a `q` location alone. */
  lemma SameOffAlong(a: Json, b: Json, p: Path, q: Path, loc: Loc)
    requires SameOff(a, b, p)
    requires EndsInField(q) && Names(q, loc)
    requires (p == q || !Overlap(p, q)) && KeepsIdentities(p, q)
    ensures SameAlong(a, b, q, [], loc)
  {
    hide SameOff, KeepsIdentities, Overlap, Touches, At;
    forall n | 0 <= n < |loc| ensures AlikeAt(a, b, q, [], loc, n) {
      WayKept(a, b, p, q, loc, n);
      assert [] + q[..n] == q[..n];
      if q[n] == STAR && ListKey(q[..n]).Some? {
        IdentityKept(a, b, p, q, loc, n);
        WayKept(a, b, p, q, loc, n + 1);
      }
    }
  }

  lemma {:induction false} IdentityNamed(q: Path, loc: Loc, n: nat, k: string)
    requires Names(q, loc) && n <= |q|
    ensures Names(q[..n] + [k], loc[..n] + [Key(k)])
    decreases n
  {
    if n == 0 {
      assert (q[..0] + [k])[1..] == [];
    } else {
      IdentityNamed(q[1..], loc[1..], n - 1, k);
      assert (q[..n] + [k])[1..] == q[1..][..n - 1] + [k];
      assert (loc[..n] + [Key(k)])[1..] == loc[1..][..n - 1] + [Key(k)];
    }
  }

  // ------------------------------------------------------- all the paths

  lemma RedactSameOff(t: Json, p: Path)
    requires EndsInField(p)
    ensures SameOff(t, RedactPath(t, p), p)
  {
    forall loc { RedactAt(t, p, loc); }
  }

  lemma MergeSameOff(inc: Json, cur: Json, p: Path)
    requires EndsInField(p)
    ensures SameOff(inc, MergePath(inc, cur, p, []), p)
  {
    forall loc { MergeAt(inc, cur, p, [], loc); }
  }

  /** Redaction rewrites exactly the populated secrets, and nothing else. */
  lemma {:induction false} RedactAllAt(t: Json, paths: seq<Path>, loc: Loc)
    requires Good(paths)
    ensures Off(paths, loc) ==> At(RedactAll(t, paths), loc) == At(t, loc)
    ensures Above(paths, loc) ==> ShapeAt(RedactAll(t, paths), loc) == ShapeAt(t, loc)
    ensures Secret(paths, loc) ==>
              At(RedactAll(t, paths), loc) == match At(t, loc) case None => None case Some(v) => Some(Hide(v))
    decreases |paths|
  {
    if paths != [] {
      var p := paths[0];
      RedactAt(t, p, loc);
      RedactAllAt(RedactPath(t, p), paths[1..], loc);
      forall q | q in paths[1..] && Names(p, loc) ensures !Touches(q, loc) {
        if Touches(q, loc) { NamesTouchOverlap(q, p, loc); }
      }
      forall q | q in paths[1..] && Names(q, loc) ensures !Touches(p, loc) {
        if Touches(p, loc) { NamesTouchOverlap(p, q, loc); }
      }
    }
  }

  lemma {:induction false} RedactAllAlong(t: Json, paths: seq<Path>, q: Path, all: seq<Path>, loc: Loc)
    requires Good(all) && q in all && Names(q, loc)
    requires |paths| <= |all| && paths == all[|all| - |paths|..]
    ensures SameAlong(t, RedactAll(t, paths), q, [], loc)
    decreases |paths|
  {
    if paths != [] {
      assert all[|all| - |paths|..][1..] == all[|all| - |paths| + 1..];
      RedactSameOff(t, paths[0]);
      SameOffAlong(t, RedactPath(t, paths[0]), paths[0], q, loc);
      RedactAllAlong(RedactPath(t, paths[0]), paths[1..], q, all, loc);
      forall n | 0 <= n < |loc| ensures AlikeAt(t, RedactAll(t, paths), q, [], loc, n) {
        assert AlikeAt(t, RedactPath(t, paths[0]), q, [], loc, n);
        assert AlikeAt(RedactPath(t, paths[0]), RedactAll(t, paths), q, [], loc, n);
      }
    }
  }

  /** Walking one path disturbs neither the leaves of another nor what they pair with. */
  lemma OtherPathKept(inc: Json, cur: Json, paths: seq<Path>, q: Path, loc: Loc)
    requires Good(paths) && paths != [] && q in paths[1..] && Names(q, loc)
    ensures At(MergePath(inc, cur, paths[0], []), loc) == At(inc, loc)
    ensures At(inc, loc).Some? ==>
              Source(MergePath(inc, cur, paths[0], []), cur, q, [], loc) == Source(inc, cur, q, [], loc)
  {
    var p, inc' := paths[0], MergePath(inc, cur, paths[0], []);
    MergeAt(inc, cur, p, [], loc);
    if Touches(p, loc) { NamesTouchOverlap(p, q, loc); }
    if At(inc, loc).Some? {
      MergeSameOff(inc, cur, p);
      SameOffAlong(inc, inc', p, q, loc);
      SourceSame(inc, inc', cur, q, [], loc);
    }
  }

  /** Off the secret paths the merge changes nothing at all. */
  lemma {:induction false} MergeAllOff(inc: Json, cur: Json, paths: seq<Path>, loc: Loc)
    requires Good(paths)
    requires Off(paths, loc)
    ensures At(MergeAll(inc, cur, paths), loc) == At(inc, loc)
    decreases |paths|
  {
    if paths != [] {
      MergeAt(inc, cur, paths[0], [], loc);
      MergeAllOff(MergePath(inc, cur, paths[0], []), cur, paths[1..], loc);
    }
  }

  /** Every container above the secrets keeps its length or its keys. */
  lemma {:induction false} MergeAllAbove(inc: Json, cur: Json, paths: seq<Path>, loc: Loc)
    requires Good(paths)
    requires Above(paths, loc)
    ensures ShapeAt(MergeAll(inc, cur, paths), loc) == ShapeAt(inc, loc)
    decreases |paths|
  {
    if paths != [] {
      MergeAt(inc, cur, paths[0], [], loc);
      MergeAllAbove(MergePath(inc, cur, paths[0], []), cur, paths[1..], loc);
    }
  }

  /**
   A secret leaf changes only if it was the sentinel; then it becomes the non-empty
   value at the same logical place of the current tree, or the empty string.
   */
  lemma {:induction false} MergeAllLeaf(inc: Json, cur: Json, paths: seq<Path>, p: Path, loc: Loc)
    requires Good(paths) && p in paths && Names(p, loc)
    ensures At(MergeAll(inc, cur, paths), loc) ==
            if At(inc, loc) == Some(REDACTED) then Some(Filled(Source(inc, cur, p, [], loc))) else At(inc, loc)
    decreases |paths|
  {
    var inc' := MergePath(inc, cur, paths[0], []);
    if p == paths[0] {
      MergeAt(inc, cur, p, [], loc);
      forall q | q in paths[1..] ensures !Touches(q, loc) {
        if Touches(q, loc) { NamesTouchOverlap(q, p, loc); }
      }
      MergeAllOff(inc', cur, paths[1..], loc);
    } else {
      OtherPathKept(inc, cur, paths, p, loc);
      MergeAllLeaf(inc', cur, paths[1..], p, loc);
    }
  }

  /** One report per blanked secret: the reported locations are exactly those. */
  lemma {:induction false} UnresolvedAllAt(inc: Json, cur: Json, paths: seq<Path>, p: Path, loc: Loc)
    requires Good(paths) && p in paths && Names(p, loc)
    ensures loc in UnresolvedAll(inc, cur, paths) <==>
            At(inc, loc) == Some(REDACTED) && !Truthy(Source(inc, cur, p, [], loc))
    decreases |paths|
  {
    UnresolvedAt(inc, cur, paths[0], [], loc);
    if p == paths[0] {
      forall q | q in paths[1..] ensures !Names(q, loc) {
        if Touches(q, loc) { NamesTouchOverlap(q, p, loc); }
      }
      UnresolvedAllNamed(MergePath(inc, cur, paths[0], []), cur, paths[1..], loc);
    } else {
      if Touches(paths[0], loc) { NamesTouchOverlap(paths[0], p, loc); }
      OtherPathKept(inc, cur, paths, p, loc);
      UnresolvedAllAt(MergePath(inc, cur, paths[0], []), cur, paths[1..], p, loc);
    }
  }

  lemma {:induction false} UnresolvedAllNamed(inc: Json, cur: Json, paths: seq<Path>, loc: Loc)
    requires forall i | 0 <= i < |paths| :: EndsInField(paths[i])
    ensures loc in UnresolvedAll(inc, cur, paths) ==> Secret(paths, loc)
    decreases |paths|
  {
    if paths != [] {
      UnresolvedAt(inc, cur, paths[0], [], loc);
      UnresolvedAllNamed(MergePath(inc, cur, paths[0], []), cur, paths[1..], loc);
    }
  }

  // ------------------------------------------------------ whole-tree laws

  /** Trees that agree off, above and at the named leaves are equal. */
  lemma SameTree(a: Json, b: Json, paths: seq<Path>)
    requires forall loc | Above(paths, loc) :: ShapeAt(a, loc) == ShapeAt(b, loc)
    requires forall p, loc | p in paths && Names(p, loc) :: At(a, loc) == At(b, loc)
    ensures a == b
  {
    forall loc ensures ShapeAt(a, loc) == ShapeAt(b, loc) {
      if p :| p in paths && Touches(p, loc) && |p| <= |loc| {
        var l := loc[..|p|];
        TouchesPrefix(p, loc, |p|);
        assert Names(p, l);
        AtAppend(a, l, loc[|p|..]);
        AtAppend(b, l, loc[|p|..]);
        assert l + loc[|p|..] == loc;
      }
    }
    Extensional(a, b);
  }

  /** The merged tree does not depend on the order in which the paths are walked. */
  lemma MergeOrderIrrelevant(inc: Json, cur: Json, paths: seq<Path>, paths': seq<Path>)
    requires Good(paths) && Good(paths')
    requires forall p :: p in paths <==> p in paths'
    ensures MergeAll(inc, cur, paths) == MergeAll(inc, cur, paths')
  {
    var a, b := MergeAll(inc, cur, paths), MergeAll(inc, cur, paths');
    forall loc | Above(paths, loc) ensures ShapeAt(a, loc) == ShapeAt(b, loc) {
      assert Above(paths', loc);
      MergeAllAbove(inc, cur, paths, loc);
      MergeAllAbove(inc, cur, paths', loc);
    }
    forall p, loc | p in paths && Names(p, loc) ensures At(a, loc) == At(b, loc) {
      MergeAllLeaf(inc, cur, paths, p, loc);
      MergeAllLeaf(inc, cur, paths', p, loc);
    }
    SameTree(a, b, paths);
  }

  /** Nor does the set of reported locations. */
  lemma ReportOrderIrrelevant(inc: Json, cur: Json, paths: seq<Path>, paths': seq<Path>)
    requires Good(paths) && Good(paths')
    requires forall p :: p in paths <==> p in paths'
    ensures UnresolvedAll(inc, cur, paths) == UnresolvedAll(inc, cur, paths')
  {
    forall loc ensures loc in UnresolvedAll(inc, cur, paths) <==> loc in UnresolvedAll(inc, cur, paths') {
      UnresolvedAllNamed(inc, cur, paths, loc);
      UnresolvedAllNamed(inc, cur, paths', loc);
      if p :| p in paths && Names(p, loc) {
        UnresolvedAllAt(inc, cur, paths, p, loc);
        UnresolvedAllAt(inc, cur, paths', p, loc);
      }
    }
  }

  // ----------------------------------------------------------- round trip

  predicate Identified(xs: seq<Json>, key: string) {
    && (forall i | 0 <= i < |xs| :: xs[i].Obj? && Get(xs[i], key) != Null)
    && (forall i, j | 0 <= i < j < |xs| :: Get(xs[i], key) != Get(xs[j], key))
  }

  /** Every list on the way along `path` pairs by present and distinct identities. */
  predicate WellKeyed(node: Json, path: Path, prefix: Path)
    decreases |path|
  {
    if path == [] then true
    else if path[0] == STAR then
      match node
      case Arr(xs) =>
        && (xs == [] || (ListKey(prefix).Some? && Identified(xs, ListKey(prefix).value)))
        && (forall i | 0 <= i < |xs| :: WellKeyed(xs[i], path[1..], prefix + [STAR]))
      case Obj(f) => forall k | k in f :: WellKeyed(f[k], path[1..], prefix + [STAR])
      case _ => true
    else node.Obj? && path[0] in node.fields ==> WellKeyed(node.fields[path[0]], path[1..], prefix + [path[0]])
  }

  lemma {:induction false} FirstMatchFinds(xs: seq<Json>, key: string, i: nat)
    requires Identified(xs, key) && i < |xs|
    ensures FirstMatch(xs, key, Get(xs[i], key)) == xs[i]
    decreases |xs|
  {
    if i > 0 {
      FirstMatchFinds(xs[1..], key, i - 1);
    }
  }

  /** In a well-keyed tree every leaf is its own counterpart. */
  lemma {:induction false} SourceSelf(t: Json, path: Path, prefix: Path, loc: Loc)
    requires WellKeyed(t, path, prefix) && Names(path, loc) && At(t, loc).Some?
    ensures Source(t, t, path, prefix, loc) == At(t, loc).value
    decreases |path|
  {
    if loc != [] {
      var c := Child(t, loc[0]).value;
      if t.Arr? {
        FirstMatchFinds(t.items, ListKey(prefix).value, loc[0].i);
      }
      SourceSelf(c, path[1..], prefix + [path[0]], loc[1..]);
    }
  }

  /**
   Redact, then merge back against the original: the original, exactly, with no
   secret left unresolved.
   */
  lemma RoundTrip(t: Json, paths: seq<Path>)
    requires Good(paths)
    requires forall p | p in paths :: WellKeyed(t, p, [])
    ensures MergeAll(RedactAll(t, paths), t, paths) == t
    ensures UnresolvedAll(RedactAll(t, paths), t, paths) == {}
  {
    var r := RedactAll(t, paths);
    var m := MergeAll(r, t, paths);
    forall loc | Above(paths, loc) ensures ShapeAt(m, loc) == ShapeAt(t, loc) {
      MergeAllAbove(r, t, paths, loc);
      RedactAllAt(t, paths, loc);
    }
    forall p, loc | p in paths && Names(p, loc)
      ensures At(m, loc) == At(t, loc)
      ensures loc !in UnresolvedAll(r, t, paths)
    {
      RoundTripLeaf(t, paths, p, loc);
    }
    SameTree(m, t, paths);
    forall loc ensures loc !in UnresolvedAll(r, t, paths) {
      UnresolvedAllNamed(r, t, paths, loc);
    }
  }

  lemma RoundTripLeaf(t: Json, paths: seq<Path>, p: Path, loc: Loc)
    requires Good(paths) && p in paths && Names(p, loc) && WellKeyed(t, p, [])
    ensures At(MergeAll(RedactAll(t, paths), t, paths), loc) == At(t, loc)
    ensures loc !in UnresolvedAll(RedactAll(t, paths), t, paths)
  {
    var r := RedactAll(t, paths);
    RedactAllAt(t, paths, loc);
    MergeAllLeaf(r, t, paths, p, loc);
    UnresolvedAllAt(r, t, paths, p, loc);
    if At(t, loc).Some? {
      RedactAllAlong(t, paths, p, paths, loc);
      SourceSame(t, r, t, p, [], loc);
      SourceSelf(t, p, [], loc);
    }
  }
}
