/**
 Lists are paired by identity and never by position (config_transfer.py:73-80,
 155-162): reordering the incoming lists reorders the merged lists in the same
 way, and reordering the lists of the current configuration changes nothing.
 */
module Reordering {
  import opened Prelude
  import opened ConfigTree
  import opened Redaction
  import opened RedactionLaws

  /** A way to reorder the lists of a tree, at any depth. */
  datatype Shuffle =
    | Keep
    | Items(order: seq<nat>, subs: seq<Shuffle>)
    | Fields(within: map<string, Shuffle>)

  predicate Permutation(order: seq<nat>) {
    && (forall i | 0 <= i < |order| :: order[i] < |order|)
    && (forall i, j | 0 <= i < j < |order| :: order[i] != order[j])
  }

  predicate Reorders(sh: Shuffle, t: Json) {
    sh.Items? && t.Arr? && |sh.order| == |sh.subs| == |t.items| && Permutation(sh.order)
  }

  function Apply(sh: Shuffle, t: Json): Json
    decreases sh
  {
    if Reorders(sh, t) then
      Arr(seq(|t.items|, i requires 0 <= i < |t.items| => Apply(sh.subs[i], t.items[sh.order[i]])))
    else if sh.Fields? && t.Obj? then
      Obj(map k | k in t.fields :: if k in sh.within then Apply(sh.within[k], t.fields[k]) else t.fields[k])
    else t
  }

  function SubField(sh: Shuffle, k: string): Shuffle {
    if sh.Fields? && k in sh.within then sh.within[k] else Keep
  }

  /**
   The reordering leaves alone what is looked at as one value along `path`: the secret
   itself, and the identities by which list elements are paired on the way.
   */
  predicate Spares(sh: Shuffle, path: Path, prefix: Path)
    decreases |path|
  {
    if sh.Keep? then true
    else if path == [] then false
    else if path[0] == STAR then
      match sh
      case Items(_, subs) =>
        forall i | 0 <= i < |subs| ::
          && (ListKey(prefix).Some? ==> SubField(subs[i], ListKey(prefix).value) == Keep)
          && Spares(subs[i], path[1..], prefix + [STAR])
      case Fields(within) => forall k | k in within :: Spares(within[k], path[1..], prefix + [STAR])
    else sh.Fields? && path[0] in sh.within ==> Spares(sh.within[path[0]], path[1..], prefix + [path[0]])
  }

  /** The step of the original tree that a step of the reordered tree stands for. */
  function Moved(sh: Shuffle, t: Json, s: Step): Step {
    if Reorders(sh, t) && s.Index? && s.i < |sh.order| then Index(sh.order[s.i]) else s
  }

  /** The reordering of the subtree at a step. */
  function Sub(sh: Shuffle, t: Json, s: Step): Shuffle {
    if Reorders(sh, t) then (if s.Index? && s.i < |sh.subs| then sh.subs[s.i] else Keep)
    else if s.Key? then SubField(sh, s.name)
    else Keep
  }

  lemma ChildApplied(sh: Shuffle, t: Json, s: Step)
    ensures ShapeOf(Apply(sh, t)) == ShapeOf(t)
    ensures Child(Apply(sh, t), s) ==
            match Child(t, Moved(sh, t, s)) case None => None case Some(c) => Some(Apply(Sub(sh, t, s), c))
    ensures forall p :: Fits(p, Moved(sh, t, s)) == Fits(p, s)
    ensures Moved(sh, t, s).Index? == s.Index? && (s.Key? ==> Moved(sh, t, s) == s)
  {
  }

  lemma GetApplied(sh: Shuffle, t: Json, k: string)
    ensures Apply(sh, t).Obj? == t.Obj?
    ensures Get(Apply(sh, t), k) == Apply(SubField(sh, k), Get(t, k))
  {
  }

  // ------------------------------------------- reordering the incoming lists

  /** A reordered element still pairs with the same element of the current tree. */
  lemma AcrossReordered(sub: Shuffle, c: Json, s: Step, cur: Json, prefix: Path)
    requires s.Index? && ListKey(prefix).Some? ==> SubField(sub, ListKey(prefix).value) == Keep
    ensures Across(Apply(sub, c), s, cur, prefix) == Across(c, s, cur, prefix)
  {
    if ListKey(prefix).Some? {
      GetApplied(sub, c, ListKey(prefix).value);
    }
  }

  lemma SubSpares(sh: Shuffle, t: Json, path: Path, prefix: Path, s: Step)
    requires path != [] && Spares(sh, path, prefix) && Fits(path[0], s)
    ensures Spares(Sub(sh, t, s), path[1..], prefix + [path[0]])
    ensures s.Index? && ListKey(prefix).Some? ==> SubField(Sub(sh, t, s), ListKey(prefix).value) == Keep
  {
  }

  /** Reordering commutes with the merge along one path. */
  lemma {:induction false} MergePathShuffled(sh: Shuffle, inc: Json, cur: Json, path: Path, prefix: Path)
    requires EndsInField(path) && Spares(sh, path, prefix)
    ensures MergePath(Apply(sh, inc), cur, path, prefix) == Apply(sh, MergePath(inc, cur, path, prefix))
    decreases |path|
  {
    hide MergePath, Apply, Spares, Across, Moved, Sub;
    var m := MergePath(inc, cur, path, prefix);
    var lhs, rhs := MergePath(Apply(sh, inc), cur, path, prefix), Apply(sh, m);
    MergeStep(Apply(sh, inc), cur, path, prefix, Index(0));
    MergeStep(inc, cur, path, prefix, Index(0));
    ChildApplied(sh, inc, Index(0));
    ChildApplied(sh, m, Index(0));
    forall s ensures Child(lhs, s) == Child(rhs, s) {
      MergeStep(inc, cur, path, prefix, s);
      SameMoves(sh, inc, m, s);
      var s' := Moved(sh, inc, s);
      ChildApplied(sh, inc, s);
      ChildApplied(sh, m, s);
      MergeStep(Apply(sh, inc), cur, path, prefix, s);
      MergeStep(inc, cur, path, prefix, s');
      if Child(inc, s').Some? && Fits(path[0], s) {
        var c, sub := Child(inc, s').value, Sub(sh, inc, s);
        SubSpares(sh, inc, path, prefix, s);
        AcrossReordered(sub, c, s, cur, prefix);
        SameAcross(c, s, s', cur, prefix);
        if |path| > 1 {
          MergePathShuffled(sub, c, Across(c, s', cur, prefix), path[1..], prefix + [path[0]]);
        } else {
          LeafSpared(sub, path, prefix);
        }
      }
    }
    SameChildren(lhs, rhs);
  }

  lemma SameMoves(sh: Shuffle, a: Json, b: Json, s: Step)
    requires ShapeOf(a) == ShapeOf(b)
    ensures Moved(sh, a, s) == Moved(sh, b, s) && Sub(sh, a, s) == Sub(sh, b, s)
  {
  }

  /** List steps pair by identity: which position they come from does not matter. */
  lemma SameAcross(c: Json, s: Step, s': Step, cur: Json, prefix: Path)
    requires s.Index? == s'.Index? && (s.Key? ==> s == s')
    ensures Across(c, s, cur, prefix) == Across(c, s', cur, prefix)
  {
  }

  lemma LeafSpared(sub: Shuffle, path: Path, prefix: Path)
    requires |path| == 1 && Spares(sub, path[1..], prefix + [path[0]])
    ensures forall value :: Apply(sub, value) == value
  {
    assert path[1..] == [];
  }

  lemma {:induction false} FirstMatchIsItem(xs: seq<Json>, key: string, wanted: Json)
    ensures var m := FirstMatch(xs, key, wanted);
            m == Null || (m in xs && m.Obj? && Get(m, key) == wanted)
    decreases |xs|
  {
    if xs != [] {
      FirstMatchIsItem(xs[1..], key, wanted);
    }
  }

  /** The reordering spares all secrets and identities. */
  ghost predicate SparesAll(sh: Shuffle, paths: seq<Path>) {
    forall i | 0 <= i < |paths| :: EndsInField(paths[i]) && Spares(sh, paths[i], [])
  }

  /** Permuting incoming lists permutes the merged lists the same way. */
  lemma {:induction false} IncomingReordered(sh: Shuffle, inc: Json, cur: Json, paths: seq<Path>)
    requires SparesAll(sh, paths)
    ensures MergeAll(Apply(sh, inc), cur, paths) == Apply(sh, MergeAll(inc, cur, paths))
    decreases |paths|
  {
    if paths != [] {
      MergePathShuffled(sh, inc, cur, paths[0], []);
      IncomingReordered(sh, MergePath(inc, cur, paths[0], []), cur, paths[1..]);
    }
  }

  /** The location of the original tree that a location of the reordered tree stands for. */
  function MovedLoc(sh: Shuffle, t: Json, loc: Loc): Loc
    decreases |loc|
  {
    if loc == [] then []
    else
      var s := Moved(sh, t, loc[0]);
      [s] + match Child(t, s) case None => loc[1..] case Some(c) => MovedLoc(Sub(sh, t, loc[0]), c, loc[1..])
  }

  lemma {:induction false} MovedLocTouches(sh: Shuffle, t: Json, path: Path, loc: Loc)
    ensures Touches(path, MovedLoc(sh, t, loc)) <==> Touches(path, loc)
    ensures |MovedLoc(sh, t, loc)| == |loc|
    decreases |loc|
  {
    if loc != [] {
      ChildApplied(sh, t, loc[0]);
      hide Moved, Sub;
      var s := Moved(sh, t, loc[0]);
      assert MovedLoc(sh, t, loc)[0] == s;
      var below := if path == [] then [] else path[1..];
      match Child(t, s)
      case None => assert MovedLoc(sh, t, loc)[1..] == loc[1..];
      case Some(c) =>
        MovedLocTouches(Sub(sh, t, loc[0]), c, below, loc[1..]);
        assert MovedLoc(sh, t, loc)[1..] == MovedLoc(Sub(sh, t, loc[0]), c, loc[1..]);
    }
  }

  /** A secret of the reordered tree is the one at the location it stands for, and pairs with the same value. */
  lemma {:induction false} LeafMoved(sh: Shuffle, inc: Json, cur: Json, path: Path, prefix: Path, loc: Loc)
    requires Names(path, loc) && Spares(sh, path, prefix)
    ensures |MovedLoc(sh, inc, loc)| == |loc|
    ensures At(Apply(sh, inc), loc) == At(inc, MovedLoc(sh, inc, loc))
    ensures Source(Apply(sh, inc), cur, path, prefix, loc)
         == Source(inc, cur, path, prefix, MovedLoc(sh, inc, loc))
    decreases |path|
  {
    hide Apply, Spares, Across, Moved, Sub;
    MovedLocTouches(sh, inc, path, loc);
    if path == [] {
      NothingSpared(sh, prefix, inc);
    } else {
      var s := loc[0];
      var s' := Moved(sh, inc, s);
      ChildApplied(sh, inc, s);
      assert MovedLoc(sh, inc, loc)[0] == s';
      if Child(inc, s').Some? {
        var c, sub := Child(inc, s').value, Sub(sh, inc, s);
        assert MovedLoc(sh, inc, loc)[1..] == MovedLoc(sub, c, loc[1..]);
        SubSpares(sh, inc, path, prefix, s);
        AcrossReordered(sub, c, s, cur, prefix);
        SameAcross(c, s, s', cur, prefix);
        LeafMoved(sub, c, Across(c, s', cur, prefix), path[1..], prefix + [path[0]], loc[1..]);
      }
    }
  }

  lemma NothingSpared(sh: Shuffle, prefix: Path, t: Json)
    requires Spares(sh, [], prefix)
    ensures Apply(sh, t) == t
  {
  }

  /** The secrets reported for reordered lists are those reported for the original ones, each at its new place. */
  lemma IncomingReports(sh: Shuffle, inc: Json, cur: Json, paths: seq<Path>, loc: Loc)
    requires Good(paths) && SparesAll(sh, paths)
    ensures loc in UnresolvedAll(Apply(sh, inc), cur, paths)
       <==> MovedLoc(sh, inc, loc) in UnresolvedAll(inc, cur, paths)
  {
    hide Apply, UnresolvedAll, Good, Spares, Source, At;
    var l := MovedLoc(sh, inc, loc);
    GoodEnds(paths);
    UnresolvedAllNamed(Apply(sh, inc), cur, paths, loc);
    UnresolvedAllNamed(inc, cur, paths, l);
    forall p ensures Names(p, l) <==> Names(p, loc) {
      MovedLocTouches(sh, inc, p, loc);
    }
    if p :| p in paths && Names(p, loc) {
      UnresolvedAllAt(Apply(sh, inc), cur, paths, p, loc);
      UnresolvedAllAt(inc, cur, paths, p, l);
      LeafMoved(sh, inc, cur, p, [], loc);
    }
  }

  lemma GoodEnds(paths: seq<Path>)
    requires Good(paths)
    ensures forall i | 0 <= i < |paths| :: EndsInField(paths[i])
  {
  }

  /** And none of those is missing: every location of the original tree has a new place. */
  lemma {:induction false} EveryPlaceMoved(sh: Shuffle, t: Json, loc: Loc) returns (l: Loc)
    requires At(t, loc).Some?
    ensures MovedLoc(sh, t, l) == loc
    decreases |loc|
  {
    l := [];
    if loc != [] {
      var s := loc[0];
      if Reorders(sh, t) {
        var i := Surjective(sh.order, s.i);
        s := Index(i);
      }
      assert Moved(sh, t, s) == loc[0];
      var below := EveryPlaceMoved(Sub(sh, t, s), Child(t, loc[0]).value, loc[1..]);
      l := [s] + below;
      assert l[1..] == below;
    }
  }

  // ------------------------------------------- reordering the current lists

  lemma {:induction false} FirstMatchUnique(xs: seq<Json>, key: string, wanted: Json, i: nat)
    requires Identified(xs, key) && i < |xs| && Get(xs[i], key) == wanted
    ensures FirstMatch(xs, key, wanted) == xs[i]
  {
    FirstMatchFinds(xs, key, i);
  }

  /** The counterpart found in a reordered list is the same element, itself reordered inside. */
  lemma CounterpartShuffled(item: Json, sh: Shuffle, cur: Json, key: string) returns (s: Shuffle)
    requires cur.Arr? ==> Identified(cur.items, key)
    requires sh.Items? ==> forall i | 0 <= i < |sh.subs| :: SubField(sh.subs[i], key) == Keep
    ensures s == Keep || (sh.Items? && s in sh.subs)
    ensures Counterpart(item, Apply(sh, cur), Some(key)) == Apply(s, Counterpart(item, cur, Some(key)))
  {
    s := Keep;
    if item.Obj? && Get(item, key) != Null && Reorders(sh, cur) {
      var xs, ys, w := cur.items, Apply(sh, cur).items, Get(item, key);
      ItemsShuffled(sh, cur, key);
      hide Apply, Identified, FirstMatch, SubField;
      FirstMatchIsItem(xs, key, w);
      FirstMatchIsItem(ys, key, w);
      if i :| 0 <= i < |ys| && Get(ys[i], key) == w {
        FirstMatchUnique(ys, key, w, i);
        FirstMatchUnique(xs, key, w, sh.order[i]);
        s := sh.subs[i];
      } else if FirstMatch(xs, key, w) != Null {
        var j :| 0 <= j < |xs| && xs[j] == FirstMatch(xs, key, w);
        var i := Surjective(sh.order, j);
        assert false;
      }
    }
  }

  lemma ItemsShuffled(sh: Shuffle, cur: Json, key: string)
    requires Reorders(sh, cur) && Identified(cur.items, key)
    requires forall i | 0 <= i < |sh.subs| :: SubField(sh.subs[i], key) == Keep
    ensures Apply(sh, cur).Arr? && |Apply(sh, cur).items| == |cur.items| && Identified(Apply(sh, cur).items, key)
    ensures forall i | 0 <= i < |cur.items| ::
              && Apply(sh, cur).items[i] == Apply(sh.subs[i], cur.items[sh.order[i]])
              && Get(Apply(sh, cur).items[i], key) == Get(cur.items[sh.order[i]], key)
  {
    var xs, ys := cur.items, Apply(sh, cur).items;
    forall i | 0 <= i < |ys| ensures ys[i].Obj? && Get(ys[i], key) == Get(xs[sh.order[i]], key) {
      GetApplied(sh.subs[i], xs[sh.order[i]], key);
      assert xs[sh.order[i]] in xs;
    }
  }

  /** An injection of 0..n into itself reaches every index. */
  lemma Surjective(order: seq<nat>, j: nat) returns (i: nat)
    requires Permutation(order) && j < |order|
    ensures i < |order| && order[i] == j
  {
    var n := |order|;
    if forall k | 0 <= k < n :: order[k] != j {
      var rest := Upto(n) - {j};
      InjectiveInto(order, rest);
      assert false;
    }
    i :| 0 <= i < n && order[i] == j;
  }

  lemma {:induction false} InjectiveInto(s: seq<nat>, into: set<nat>)
    requires forall i, j | 0 <= i < j < |s| :: s[i] != s[j]
    requires forall i | 0 <= i < |s| :: s[i] in into
    ensures |s| <= |into|
    decreases |s|
  {
    if s != [] {
      InjectiveInto(s[1..], into - {s[0]});
    }
  }

  /** Crossing to the reordered current tree leads to the same place, itself reordered inside. */
  lemma AcrossShuffled(c: Json, s: Step, sh: Shuffle, cur: Json, path: Path, prefix: Path) returns (sub: Shuffle)
    requires path != [] && Fits(path[0], s) && Spares(sh, path, prefix) && WellKeyed(cur, path, prefix)
    ensures Across(c, s, Apply(sh, cur), prefix) == Apply(sub, Across(c, s, cur, prefix))
    ensures Spares(sub, path[1..], prefix + [path[0]])
    ensures WellKeyed(Across(c, s, cur, prefix), path[1..], prefix + [path[0]])
  {
    if s.Key? {
      GetApplied(sh, cur, s.name);
      sub := SubField(sh, s.name);
    } else {
      CounterpartKeyed(c, cur, path, prefix);
      sub := Keep;
      if ListKey(prefix).Some? && cur.Arr? {
        sub := CounterpartShuffled(c, sh, cur, ListKey(prefix).value);
      }
    }
  }

  lemma {:induction false} CurrentPathShuffled(inc: Json, sh: Shuffle, cur: Json, path: Path, prefix: Path)
    requires EndsInField(path) && Spares(sh, path, prefix) && WellKeyed(cur, path, prefix)
    ensures MergePath(inc, Apply(sh, cur), path, prefix) == MergePath(inc, cur, path, prefix)
    decreases |path|
  {
    hide MergePath, Apply, Spares, WellKeyed, Across;
    var lhs, rhs := MergePath(inc, Apply(sh, cur), path, prefix), MergePath(inc, cur, path, prefix);
    MergeStep(inc, Apply(sh, cur), path, prefix, Index(0));
    MergeStep(inc, cur, path, prefix, Index(0));
    forall s ensures Child(lhs, s) == Child(rhs, s) {
      MergeStep(inc, Apply(sh, cur), path, prefix, s);
      MergeStep(inc, cur, path, prefix, s);
      if Child(inc, s).Some? && Fits(path[0], s) {
        var c := Child(inc, s).value;
        var sub := AcrossShuffled(c, s, sh, cur, path, prefix);
        if |path| > 1 {
          CurrentPathShuffled(c, sub, Across(c, s, cur, prefix), path[1..], prefix + [path[0]]);
        } else {
          LeafSpared(sub, path, prefix);
        }
      }
    }
    SameChildren(lhs, rhs);
  }

  lemma CounterpartKeyed(item: Json, cur: Json, path: Path, prefix: Path)
    requires path != [] && path[0] == STAR && WellKeyed(cur, path, prefix)
    ensures WellKeyed(Counterpart(item, cur, ListKey(prefix)), path[1..], prefix + [STAR])
  {
    var c := Counterpart(item, cur, ListKey(prefix));
    if c != Null {
      FirstMatchIsItem(cur.items, ListKey(prefix).value, Get(item, ListKey(prefix).value));
    }
  }

  /** Reordering the lists of the current configuration does not change the merged tree. */
  lemma {:induction false} CurrentReordered(inc: Json, sh: Shuffle, cur: Json, paths: seq<Path>)
    requires SparesAll(sh, paths) && forall i | 0 <= i < |paths| :: WellKeyed(cur, paths[i], [])
    ensures MergeAll(inc, Apply(sh, cur), paths) == MergeAll(inc, cur, paths)
    decreases |paths|
  {
    if paths != [] {
      CurrentPathShuffled(inc, sh, cur, paths[0], []);
      CurrentReordered(MergePath(inc, cur, paths[0], []), sh, cur, paths[1..]);
    }
  }

  lemma {:induction false} SourceShuffled(inc: Json, sh: Shuffle, cur: Json, path: Path, prefix: Path, loc: Loc)
    requires Names(path, loc) && Spares(sh, path, prefix) && WellKeyed(cur, path, prefix)
    ensures Source(inc, Apply(sh, cur), path, prefix, loc) == Source(inc, cur, path, prefix, loc)
    decreases |path|
  {
    hide Apply, Spares, WellKeyed, Across;
    if path == [] {
      NothingSpared(sh, prefix, cur);
    } else if Child(inc, loc[0]).Some? {
      var c := Child(inc, loc[0]).value;
      var sub := AcrossShuffled(c, loc[0], sh, cur, path, prefix);
      SourceShuffled(c, sub, Across(c, loc[0], cur, prefix), path[1..], prefix + [path[0]], loc[1..]);
    }
  }

  /** Nor which secrets are reported, and where. */
  lemma CurrentReports(inc: Json, sh: Shuffle, cur: Json, paths: seq<Path>)
    requires Good(paths) && SparesAll(sh, paths) && forall i | 0 <= i < |paths| :: WellKeyed(cur, paths[i], [])
    ensures UnresolvedAll(inc, Apply(sh, cur), paths) == UnresolvedAll(inc, cur, paths)
  {
    hide Apply, UnresolvedAll, Good, Spares, WellKeyed, Source, At;
    GoodEnds(paths);
    forall loc ensures loc in UnresolvedAll(inc, Apply(sh, cur), paths) <==> loc in UnresolvedAll(inc, cur, paths) {
      UnresolvedAllNamed(inc, Apply(sh, cur), paths, loc);
      UnresolvedAllNamed(inc, cur, paths, loc);
      if p :| p in paths && Names(p, loc) {
        UnresolvedAllAt(inc, Apply(sh, cur), paths, p, loc);
        UnresolvedAllAt(inc, cur, paths, p, loc);
        SourceShuffled(inc, sh, cur, p, [], loc);
      }
    }
  }
}
