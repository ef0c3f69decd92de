/**
 Redaction and its inverse, the merge of a redacted tree with the tree a target
 instance already holds (config_transfer.py:119-223).

 `RedactPath` and `MergePath` follow the recursive walks of the program; the
 lemmas say what they do location by location.
 */
module Redaction {
  import opened Prelude
  import opened ConfigTree

  const REDACTED: Json := Str("__REDACTED__")

  /** config_transfer.py:146-148: only populated secrets are hidden. */
  function Hide(t: Json): Json {
    if Truthy(t) then REDACTED else t
  }

  function RedactPath(node: Json, path: Path): Json
    decreases |path|
  {
    if path == [] then node
    else if path[0] == STAR then
      match node
      case Arr(xs) => Arr(seq(|xs|, i requires 0 <= i < |xs| => RedactPath(xs[i], path[1..])))
      case Obj(f) => Obj(map k | k in f :: RedactPath(f[k], path[1..]))
      case _ => node
    else if !node.Obj? || path[0] !in node.fields then node
    else
      var leaf := node.fields[path[0]];
      Obj(node.fields[path[0] := if |path| == 1 then Hide(leaf) else RedactPath(leaf, path[1..])])
  }

  function RedactAll(node: Json, paths: seq<Path>): Json
    decreases |paths|
  {
    if paths == [] then node else RedactAll(RedactPath(node, paths[0]), paths[1..])
  }

  // ----------------------------------------------------------- identities

  /** config_transfer.py:76-80. */
  function ListKey(prefix: Path): Option<string> {
    if prefix == ["sites"] then Some("id")
    else if prefix == ["sites", STAR, "proxmox"] then Some("host")
    else if prefix == ["lldp", "credentials"] then Some("name")
    else None
  }

  function FirstMatch(xs: seq<Json>, key: string, wanted: Json): Json {
    if xs == [] then Null
    else if xs[0].Obj? && Get(xs[0], key) == wanted then xs[0]
    else FirstMatch(xs[1..], key, wanted)
  }

  /** config_transfer.py:155-162: identity, never position. */
  function Counterpart(item: Json, current: Json, key: Option<string>): Json {
    if key.None? || !item.Obj? || !current.Arr? then Null
    else
      var wanted := Get(item, key.value);
      if wanted == Null then Null else FirstMatch(current.items, key.value, wanted)
  }

  // ---------------------------------------------------------------- merge

  function Filled(value: Json): Json {
    if Truthy(value) then value else Str("")
  }

  /** The tree part of the inner `walk` of merge_redacted, for one path. */
  function MergePath(inc: Json, cur: Json, path: Path, prefix: Path): Json
    decreases |path|
  {
    if path == [] then inc
    else if path[0] == STAR then
      match inc
      case Arr(xs) =>
        Arr(seq(|xs|, i requires 0 <= i < |xs| =>
          MergePath(xs[i], Counterpart(xs[i], cur, ListKey(prefix)), path[1..], prefix + [STAR])))
      case Obj(f) => Obj(map k | k in f :: MergePath(f[k], Get(cur, k), path[1..], prefix + [STAR]))
      case _ => inc
    else if !inc.Obj? || path[0] !in inc.fields then inc
    else
      var h := path[0];
      var leaf := inc.fields[h];
      if |path| == 1 then
        if leaf != REDACTED then inc else Obj(inc.fields[h := Filled(Get(cur, h))])
      else
        Obj(inc.fields[h := MergePath(leaf, Get(cur, h), path[1..], prefix + [h])])
  }

  function Under(s: Step, locs: set<Loc>): (r: set<Loc>)
    ensures forall loc :: loc in r <==> loc != [] && loc[0] == s && loc[1..] in locs
  {
    assert forall l: Loc :: ([s] + l)[1..] == l;
    assert forall l: Loc | l != [] && l[0] == s :: [s] + l[1..] == l;
    set l | l in locs :: [s] + l
  }

  /** The locations the same walk blanks and reports. */
  function Unresolved(inc: Json, cur: Json, path: Path, prefix: Path): set<Loc>
    decreases |path|
  {
    if path == [] then {}
    else if path[0] == STAR then
      match inc
      case Arr(xs) =>
        set i, l | 0 <= i < |xs| &&
                   l in Under(Index(i), Unresolved(xs[i], Counterpart(xs[i], cur, ListKey(prefix)),
                                                   path[1..], prefix + [STAR])) :: l
      case Obj(f) =>
        set k, l | k in f && l in Under(Key(k), Unresolved(f[k], Get(cur, k), path[1..], prefix + [STAR])) :: l
      case _ => {}
    else if !inc.Obj? || path[0] !in inc.fields then {}
    else
      var h := path[0];
      var leaf := inc.fields[h];
      if |path| > 1 then Under(Key(h), Unresolved(leaf, Get(cur, h), path[1..], prefix + [h]))
      else if leaf == REDACTED && !Truthy(Get(cur, h)) then {[Key(h)]}
      else {}
  }

  function MergeAll(inc: Json, cur: Json, paths: seq<Path>): Json
    decreases |paths|
  {
    if paths == [] then inc else MergeAll(MergePath(inc, cur, paths[0], []), cur, paths[1..])
  }

  function UnresolvedAll(inc: Json, cur: Json, paths: seq<Path>): set<Loc>
    decreases |paths|
  {
    if paths == [] then {}
    else Unresolved(inc, cur, paths[0], []) + UnresolvedAll(MergePath(inc, cur, paths[0], []), cur, paths[1..])
  }

  // --------------------------------------------- one path, by location

  lemma RedactStep(node: Json, path: Path, s: Step)
    requires EndsInField(path)
    ensures ShapeOf(RedactPath(node, path)) == ShapeOf(node)
    ensures Child(RedactPath(node, path), s) ==
            match Child(node, s)
            case None => None
            case Some(c) =>
              Some(if !Fits(path[0], s) then c else if |path| == 1 then Hide(c) else RedactPath(c, path[1..]))
  {
    if node.Obj? && path[0] != STAR && path[0] in node.fields {
      assert RedactPath(node, path).fields.Keys == node.fields.Keys;
    }
  }

  lemma {:induction false} RedactAt(node: Json, path: Path, loc: Loc)
    requires EndsInField(path)
    ensures !Touches(path, loc) ==> At(RedactPath(node, path), loc) == At(node, loc)
    ensures Touches(path, loc) && |loc| < |path| ==> ShapeAt(RedactPath(node, path), loc) == ShapeAt(node, loc)
    ensures Names(path, loc) ==>
              At(RedactPath(node, path), loc) ==
              match At(node, loc) case None => None case Some(v) => Some(Hide(v))
    decreases |path|
  {
    RedactStep(node, path, if loc == [] then Index(0) else loc[0]);
    if loc != [] {
      match Child(node, loc[0])
      case None =>
        assert At(node, loc) == None;
        assert At(RedactPath(node, path), loc) == None;
      case Some(c) =>
      if !Fits(path[0], loc[0]) {
        assert At(RedactPath(node, path), loc) == At(node, loc);
      } else if |path| == 1 {
        assert path[1..] == [];
        assert Touches(path, loc);
      } else {
        RedactAt(c, path[1..], loc[1..]);
      }
    }
  }

  /**
   The value the current tree holds at the same logical location: dict steps follow
   the key, list steps follow the identity of the incoming element.
   */
  function Source(inc: Json, cur: Json, path: Path, prefix: Path, loc: Loc): Json
    requires |path| == |loc|
    decreases |path|
  {
    if loc == [] then cur else
    match Child(inc, loc[0])
    case None => Null
    case Some(c) =>
      Source(c, Across(c, loc[0], cur, prefix), path[1..], prefix + [path[0]], loc[1..])
  }

  function Across(c: Json, s: Step, cur: Json, prefix: Path): Json {
    if s.Index? then Counterpart(c, cur, ListKey(prefix)) else Get(cur, s.name)
  }

  lemma MergeStep(inc: Json, cur: Json, path: Path, prefix: Path, s: Step)
    requires EndsInField(path)
    ensures ShapeOf(MergePath(inc, cur, path, prefix)) == ShapeOf(inc)
    ensures Child(MergePath(inc, cur, path, prefix), s) ==
            match Child(inc, s)
            case None => None
            case Some(c) =>
              Some(if !Fits(path[0], s) then c
                   else if |path| > 1 then MergePath(c, Across(c, s, cur, prefix), path[1..], prefix + [path[0]])
                   else if c == REDACTED then Filled(Across(c, s, cur, prefix))
                   else c)
  {
    if inc.Obj? && path[0] != STAR && path[0] in inc.fields {
      assert MergePath(inc, cur, path, prefix).fields.Keys == inc.fields.Keys;
    }
  }

  lemma {:induction false} MergeAt(inc: Json, cur: Json, path: Path, prefix: Path, loc: Loc)
    requires EndsInField(path)
    ensures !Touches(path, loc) ==> At(MergePath(inc, cur, path, prefix), loc) == At(inc, loc)
    ensures Touches(path, loc) && |loc| < |path| ==>
              ShapeAt(MergePath(inc, cur, path, prefix), loc) == ShapeAt(inc, loc)
    ensures Names(path, loc) ==>
              At(MergePath(inc, cur, path, prefix), loc) ==
              if At(inc, loc) == Some(REDACTED) then Some(Filled(Source(inc, cur, path, prefix, loc)))
              else At(inc, loc)
    decreases |path|
  {
    MergeStep(inc, cur, path, prefix, if loc == [] then Index(0) else loc[0]);
    if loc != [] {
      match Child(inc, loc[0])
      case None =>
        assert At(inc, loc) == None;
        assert At(MergePath(inc, cur, path, prefix), loc) == None;
      case Some(c) =>
        if !Fits(path[0], loc[0]) {
          assert At(MergePath(inc, cur, path, prefix), loc) == At(inc, loc);
        } else if |path| == 1 {
          assert path[1..] == [];
          assert Touches(path, loc);
        } else {
          MergeAt(c, Across(c, loc[0], cur, prefix), path[1..], prefix + [path[0]], loc[1..]);
        }
    }
  }

  lemma UnresolvedLeaf(inc: Json, cur: Json, path: Path, prefix: Path, loc: Loc)
    requires EndsInField(path) && |path| == 1
    ensures loc in Unresolved(inc, cur, path, prefix) <==>
            Names(path, loc) && At(inc, loc) == Some(REDACTED) && !Truthy(Source(inc, cur, path, prefix, loc))
  {
    var h := path[0];
    assert path[1..] == [];
    if |loc| == 1 && loc[0] == Key(h) {
      assert loc == [Key(h)] && loc[1..] == [];
      assert Names(path, loc);
      assert At(inc, loc) == Child(inc, Key(h));
      if inc.Obj? && h in inc.fields {
        assert Source(inc, cur, path, prefix, loc) == Get(cur, h);
      }
    }
  }

  lemma UnresolvedStep(inc: Json, cur: Json, path: Path, prefix: Path, loc: Loc)
    requires |path| > 1 && loc != []
    ensures loc in Unresolved(inc, cur, path, prefix) <==>
            && Fits(path[0], loc[0]) && Child(inc, loc[0]).Some?
            && var c := Child(inc, loc[0]).value;
               loc[1..] in Unresolved(c, Across(c, loc[0], cur, prefix), path[1..], prefix + [path[0]])
  {
    match Child(inc, loc[0])
    case None =>
    case Some(c) =>
      if Fits(path[0], loc[0]) {
        var below := Unresolved(c, Across(c, loc[0], cur, prefix), path[1..], prefix + [path[0]]);
        assert loc in Under(loc[0], below) <==> loc in Unresolved(inc, cur, path, prefix);
      }
  }

  /** A location is reported exactly when the walk left it blank. */
  lemma {:induction false} UnresolvedAt(inc: Json, cur: Json, path: Path, prefix: Path, loc: Loc)
    requires EndsInField(path)
    ensures loc in Unresolved(inc, cur, path, prefix) <==>
            Names(path, loc) && At(inc, loc) == Some(REDACTED) && !Truthy(Source(inc, cur, path, prefix, loc))
    decreases |path|
  {
    if |path| == 1 {
      UnresolvedLeaf(inc, cur, path, prefix, loc);
    } else if loc != [] {
      hide Unresolved;
      UnresolvedStep(inc, cur, path, prefix, loc);
      if Fits(path[0], loc[0]) && Child(inc, loc[0]).Some? {
        var c := Child(inc, loc[0]).value;
        UnresolvedAt(c, Across(c, loc[0], cur, prefix), path[1..], prefix + [path[0]], loc[1..]);
      }
    }
  }
}
