/**
 The serialized configuration: an unbounded JSON tree, the concrete locations in
 it, and the wildcard paths that name families of locations
 (config_transfer.py:57-80).
 */
module ConfigTree {
  import opened Prelude

  /** A Python dict compares without regard to key order, hence a map. */
  datatype Json =
    | Null
    | Bool(b: bool)
    | Num(n: int)
    | Str(s: string)
    | Arr(items: seq<Json>)
    | Obj(fields: map<string, Json>)

  /** Python truthiness of a JSON value. */
  predicate Truthy(t: Json) {
    match t
    case Null => false
    case Bool(b) => b
    case Num(n) => n != 0
    case Str(s) => s != ""
    case Arr(xs) => xs != []
    case Obj(f) => f != map[]
  }

  /** None of the values Python takes for false. */
  ghost predicate Populated(v: Json) {
    v != Null && v != Bool(false) && v != Num(0) && v != Str("") && v != Arr([]) && v != Obj(map[])
  }

  lemma PopulatedIs(v: Json)
    ensures Truthy(v) <==> Populated(v)
  {
  }

  /** `t.get(k)` when `t` is a dict, and None (Null) for everything else. */
  function Get(t: Json, k: string): Json {
    if t.Obj? && k in t.fields then t.fields[k] else Null
  }

  // ------------------------------------------------------------ locations

  datatype Step = Key(name: string) | Index(i: nat)
  type Loc = seq<Step>

  function Child(t: Json, s: Step): Option<Json> {
    match (t, s)
    case (Arr(xs), Index(i)) => if i < |xs| then Some(xs[i]) else None
    case (Obj(f), Key(k)) => if k in f then Some(f[k]) else None
    case _ => None
  }

  /** The subtree at a location, if the tree has that location. */
  function At(t: Json, loc: Loc): Option<Json> {
    if loc == [] then Some(t) else
    match Child(t, loc[0])
    case None => None
    case Some(c) => At(c, loc[1..])
  }

  /** What a node looks like without its children. */
  datatype Shape = Scalar(value: Json) | ListOf(len: nat) | DictOf(keys: set<string>)

  function ShapeOf(t: Json): Shape {
    match t
    case Arr(xs) => ListOf(|xs|)
    case Obj(f) => DictOf(f.Keys)
    case _ => Scalar(t)
  }

  function ShapeAt(t: Json, loc: Loc): Option<Shape> {
    match At(t, loc)
    case None => None
    case Some(c) => Some(ShapeOf(c))
  }

  lemma AtAppend(t: Json, l: Loc, m: Loc)
    ensures At(t, l + m) == match At(t, l) case None => None case Some(c) => At(c, m)
  {
    if l == [] {
      assert l + m == m;
    } else {
      assert (l + m)[0] == l[0] && (l + m)[1..] == l[1..] + m;
      match Child(t, l[0])
      case None =>
      case Some(c) => AtAppend(c, l[1..], m);
    }
  }

  /** A node is its shape and its children. */
  lemma SameChildren(a: Json, b: Json)
    requires ShapeOf(a) == ShapeOf(b)
    requires forall s :: Child(a, s) == Child(b, s)
    ensures a == b
  {
    match a
    case Arr(xs) =>
      forall i | 0 <= i < |xs| ensures xs[i] == b.items[i] {
        assert Child(a, Index(i)) == Child(b, Index(i));
      }
    case Obj(f) =>
      forall k | k in f ensures f[k] == b.fields[k] {
        assert Child(a, Key(k)) == Child(b, Key(k));
      }
    case _ =>
  }

  /** Two trees with the same shape at every location are the same tree. */
  lemma {:induction false} Extensional(a: Json, b: Json)
    requires forall loc :: ShapeAt(a, loc) == ShapeAt(b, loc)
    ensures a == b
    decreases a
  {
    assert ShapeAt(a, []) == ShapeAt(b, []);
    match a
    case Arr(xs) =>
      forall i | 0 <= i < |xs| ensures xs[i] == b.items[i] {
        forall loc ensures ShapeAt(xs[i], loc) == ShapeAt(b.items[i], loc) {
          assert ([Index(i)] + loc)[1..] == loc;
          assert ShapeAt(a, [Index(i)] + loc) == ShapeAt(b, [Index(i)] + loc);
        }
        Extensional(xs[i], b.items[i]);
      }
    case Obj(f) =>
      forall k | k in f ensures f[k] == b.fields[k] {
        forall loc ensures ShapeAt(f[k], loc) == ShapeAt(b.fields[k], loc) {
          assert ([Key(k)] + loc)[1..] == loc;
          assert ShapeAt(a, [Key(k)] + loc) == ShapeAt(b, [Key(k)] + loc);
        }
        Extensional(f[k], b.fields[k]);
      }
    case _ =>
  }

  // ---------------------------------------------------------------- paths

  /** A path through the tree; "*" stands for every list element or dict value. */
  type Path = seq<string>

  const STAR: string := "*"

  predicate Fits(p: string, s: Step) {
    p == STAR || s == Key(p)
  }

  /** The path and the location agree as far as both go: one lies on the other. */
  predicate Touches(path: Path, loc: Loc) {
    path == [] || loc == [] || (Fits(path[0], loc[0]) && Touches(path[1..], loc[1..]))
  }

  /** The location is one of those the path names. */
  predicate Names(path: Path, loc: Loc) {
    |path| == |loc| && Touches(path, loc)
  }

  /** Some location can lie on both paths. */
  predicate Overlap(p: Path, q: Path) {
    p == [] || q == [] || ((p[0] == STAR || q[0] == STAR || p[0] == q[0]) && Overlap(p[1..], q[1..]))
  }

  /** Secret paths end in a field name; a walk along them always has a leaf to visit. */
  predicate EndsInField(path: Path) {
    path != [] && path[|path| - 1] != STAR
  }

  lemma {:induction false} NamesTouchOverlap(p: Path, q: Path, loc: Loc)
    requires Names(q, loc) && Touches(p, loc)
    ensures Overlap(p, q)
    decreases |p|
  {
    if p != [] && q != [] {
      NamesTouchOverlap(p[1..], q[1..], loc[1..]);
    }
  }

  lemma {:induction false} TouchesPrefix(path: Path, loc: Loc, n: nat)
    requires n <= |loc| && Touches(path, loc)
    ensures Touches(path, loc[..n])
    decreases n
  {
    if n != 0 && path != [] {
      assert loc[..n][1..] == loc[1..][..n - 1];
      TouchesPrefix(path[1..], loc[1..], n - 1);
    }
  }

  /** A location at least as long as the path decides the contact on its prefix. */
  lemma {:induction false} TouchesExtend(path: Path, loc: Loc, n: nat)
    requires |path| <= n <= |loc| && Touches(path, loc[..n])
    ensures Touches(path, loc)
    decreases |path|
  {
    if path != [] {
      assert loc[..n][1..] == loc[1..][..n - 1];
      TouchesExtend(path[1..], loc[1..], n - 1);
    }
  }
}
