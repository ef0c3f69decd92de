/**
 The secret-bearing paths of this configuration schema (config_transfer.py:61-80), and
 what hiding and filling along them comes to, place by place.
 */
module SecretPlaces {
  import opened Prelude
  import opened ConfigTree
  import opened Redaction
  import opened RedactionLaws
  import opened Reordering

  const SECRET_PATHS: seq<Path> := [
    ["netbox", "token"],
    ["sites", STAR, "technitium", "token"],
    ["sites", STAR, "proxmox", STAR, "token_value"],
    ["sites", STAR, "lldp", "snmp_community"],
    ["sites", STAR, "lldp", "ssh_password"],
    ["lldp", "credentials", STAR, "password"],
    ["lldp", "credentials", STAR, "snmp_community"],
    ["lldp", "fallback_creds", STAR, "community"],
    ["lldp", "fallback_creds", STAR, "password"]
  ]

  /** The paths that hold the identities of LIST_KEYS. */
  const IDENTITY_PATHS: seq<Path> := [
    ["sites", STAR, "id"],
    ["sites", STAR, "proxmox", STAR, "host"],
    ["lldp", "credentials", STAR, "name"]
  ]

  lemma {:induction false} ApartAt(p: Path, q: Path, n: nat)
    requires n < |p| && n < |q| && p[n] != STAR && q[n] != STAR && p[n] != q[n]
    ensures !Overlap(p, q)
    decreases n
  {
    if n > 0 {
      ApartAt(p[1..], q[1..], n - 1);
    }
  }

  lemma SecretsApart(i: nat, j: nat)
    requires i < |SECRET_PATHS| && j < |SECRET_PATHS| && i != j
    ensures !Overlap(SECRET_PATHS[i], SECRET_PATHS[j])
  {
    var p, q := SECRET_PATHS[i], SECRET_PATHS[j];
    var n := if p[0] != q[0] then 0
             else if p[0] == "sites" then (if p[2] != q[2] then 2 else 3)
             else if p[1] != q[1] then 1 else 3;
    ApartAt(p, q, n);
  }

  lemma IdentitiesApart(i: nat, j: nat)
    requires i < |SECRET_PATHS| && j < |IDENTITY_PATHS|
    ensures !Overlap(SECRET_PATHS[i], IDENTITY_PATHS[j])
  {
    var p, q := SECRET_PATHS[i], IDENTITY_PATHS[j];
    var n := if p[0] != q[0] then 0
             else if p[0] == "sites" then (if p[2] != q[2] then 2 else 4)
             else if p[1] != q[1] then 1 else 3;
    ApartAt(p, q, n);
  }

  /** The secret paths meet neither each other nor the identities that pair list elements. */
  lemma SecretPathsAreGood()
    ensures Good(SECRET_PATHS)
  {
    forall i, j | 0 <= i < |SECRET_PATHS| && 0 <= j < |SECRET_PATHS|
      ensures i != j ==> !Overlap(SECRET_PATHS[i], SECRET_PATHS[j])
      ensures KeepsIdentities(SECRET_PATHS[i], SECRET_PATHS[j])
    {
      if i != j { SecretsApart(i, j); }
      var q := SECRET_PATHS[j];
      forall n | 0 <= n < |q| && q[n] == STAR && ListKey(q[..n]).Some?
        ensures !Overlap(SECRET_PATHS[i], q[..n + 1] + [ListKey(q[..n]).value])
      {
        assert q[..n + 1] == q[..n] + [STAR];
        var k := if q[..n] == ["sites"] then 0 else if q[..n] == ["sites", STAR, "proxmox"] then 1 else 2;
        assert q[..n + 1] + [ListKey(q[..n]).value] == IDENTITY_PATHS[k];
        IdentitiesApart(i, k);
      }
    }
  }

  // -------------------------------------------------------------- the places

  /** Where a configuration holds its secrets. A step that may be any list element or dict value is left open. */
  ghost predicate SecretPlace(loc: Loc) {
    || loc == [Key("netbox"), Key("token")]
    || (|loc| == 4 && loc[0] == Key("sites") && loc[2] == Key("technitium") && loc[3] == Key("token"))
    || (|loc| == 5 && loc[0] == Key("sites") && loc[2] == Key("proxmox") && loc[4] == Key("token_value"))
    || (|loc| == 4 && loc[0] == Key("sites") && loc[2] == Key("lldp")
        && (loc[3] == Key("snmp_community") || loc[3] == Key("ssh_password")))
    || (|loc| == 4 && loc[0] == Key("lldp") && loc[1] == Key("credentials")
        && (loc[3] == Key("password") || loc[3] == Key("snmp_community")))
    || (|loc| == 4 && loc[0] == Key("lldp") && loc[1] == Key("fallback_creds")
        && (loc[3] == Key("community") || loc[3] == Key("password")))
  }

  lemma NamesTwo(p: Path, loc: Loc)
    requires |p| == 2
    ensures Names(p, loc) <==> |loc| == 2 && Fits(p[0], loc[0]) && Fits(p[1], loc[1])
  {
    NamesStepwise(p, loc);
    hide Names, Fits;
  }

  lemma NamesFour(p: Path, loc: Loc)
    requires |p| == 4
    ensures Names(p, loc) <==>
            |loc| == 4 && Fits(p[0], loc[0]) && Fits(p[1], loc[1]) && Fits(p[2], loc[2]) && Fits(p[3], loc[3])
  {
    NamesStepwise(p, loc);
    hide Names, Fits;
  }

  lemma NamesFive(p: Path, loc: Loc)
    requires |p| == 5
    ensures Names(p, loc) <==>
            |loc| == 5 && Fits(p[0], loc[0]) && Fits(p[1], loc[1]) && Fits(p[2], loc[2]) && Fits(p[3], loc[3])
            && Fits(p[4], loc[4])
  {
    NamesStepwise(p, loc);
    hide Names, Fits;
  }

  lemma NamesStepwise(p: Path, loc: Loc)
    ensures Names(p, loc) <==> |p| == |loc| && forall i | 0 <= i < |p| :: Fits(p[i], loc[i])
  {
    hide Touches, Fits;
    if |p| == |loc| {
      NamesRest(p, loc, |p|);
      assert p[0..] == p && loc[0..] == loc;
    }
  }

  /** A path names a location if and only if it does so step by step. */
  lemma {:induction false} NamesRest(p: Path, loc: Loc, n: nat)
    requires |p| == |loc| && n <= |p|
    ensures Touches(p[|p| - n..], loc[|p| - n..]) <==> forall i | |p| - n <= i < |p| :: Fits(p[i], loc[i])
    decreases n
  {
    if n > 0 {
      NamesRest(p, loc, n - 1);
      var k := |p| - n;
      assert p[k..][1..] == p[k + 1..] && loc[k..][1..] == loc[k + 1..];
      assert p[k..][0] == p[k] && loc[k..][0] == loc[k];
    }
  }

  /** The paths name exactly these places. */
  lemma PlacesNamed(loc: Loc)
    ensures Secret(SECRET_PATHS, loc) <==> SecretPlace(loc)
  {
    var ps := SECRET_PATHS;
    NamesTwo(ps[0], loc);
    NamesFour(ps[1], loc);
    NamesFive(ps[2], loc);
    NamesFour(ps[3], loc);
    NamesFour(ps[4], loc);
    NamesFour(ps[5], loc);
    NamesFour(ps[6], loc);
    NamesFour(ps[7], loc);
    NamesFour(ps[8], loc);
    NinePaths(loc);
    hide Names, Secret;
  }

  lemma NinePaths(loc: Loc)
    ensures var ps := SECRET_PATHS;
            Secret(ps, loc) <==> Names(ps[0], loc) || Names(ps[1], loc) || Names(ps[2], loc) || Names(ps[3], loc)
                                 || Names(ps[4], loc) || Names(ps[5], loc) || Names(ps[6], loc) || Names(ps[7], loc)
                                 || Names(ps[8], loc)
  {
    hide Names;
    var ps := SECRET_PATHS;
    forall p | p in ps
      ensures p == ps[0] || p == ps[1] || p == ps[2] || p == ps[3] || p == ps[4] || p == ps[5] || p == ps[6]
              || p == ps[7] || p == ps[8]
    {
      var i :| 0 <= i < |ps| && ps[i] == p;
    }
  }

  // --------------------------------------------------------------- redaction

  /** Neither a secret nor part of one. */
  ghost predicate Plain(loc: Loc) {
    forall n | 0 <= n <= |loc| :: !SecretPlace(loc[..n])
  }

  /** `t` is `s` with every populated secret hidden, and nothing else changed. */
  ghost predicate SecretsHidden(s: Json, t: Json) {
    && (forall loc | SecretPlace(loc) ::
          At(t, loc) == match At(s, loc)
                        case None => None
                        case Some(v) => if Populated(v) then Some(Str("__REDACTED__")) else Some(v))
    && (forall loc | Plain(loc) :: ShapeAt(t, loc) == ShapeAt(s, loc))
  }

  /** Where no secret begins, the paths only pass. */
  lemma PlainIsAbove(loc: Loc)
    requires Plain(loc)
    ensures Above(SECRET_PATHS, loc)
  {
    hide SECRET_PATHS, SecretPlace;
    forall p | p in SECRET_PATHS && Touches(p, loc) ensures |loc| < |p| {
      if |p| <= |loc| {
        TouchesPrefix(p, loc, |p|);
        assert Names(p, loc[..|p|]);
        PlacesNamed(loc[..|p|]);
        assert false;
      }
    }
  }

  /** Redaction hides the secrets, all of them and nothing else. */
  lemma RedactionHides(t: Json)
    ensures SecretsHidden(t, RedactAll(t, SECRET_PATHS))
  {
    hide SECRET_PATHS, SecretPlace, RedactAll, At, Populated, Truthy, Good, Plain;
    SecretPathsAreGood();
    forall loc | SecretPlace(loc)
      ensures At(RedactAll(t, SECRET_PATHS), loc)
           == match At(t, loc)
              case None => None
              case Some(v) => if Populated(v) then Some(Str("__REDACTED__")) else Some(v)
    {
      PlacesNamed(loc);
      RedactAllAt(t, SECRET_PATHS, loc);
      if At(t, loc).Some? {
        PopulatedIs(At(t, loc).value);
      }
    }
    forall loc | Plain(loc) ensures ShapeAt(RedactAll(t, SECRET_PATHS), loc) == ShapeAt(t, loc) {
      PlainIsAbove(loc);
      RedactAllAt(t, SECRET_PATHS, loc);
    }
  }

  // ------------------------------------------------------------------- merge

  /** The field that tells the elements of a list apart. */
  ghost predicate Identifies(list: Loc, id: string) {
    || (list == [Key("sites")] && id == "id")
    || (|list| == 3 && list[0] == Key("sites") && list[2] == Key("proxmox") && id == "host")
    || (list == [Key("lldp"), Key("credentials")] && id == "name")
  }

  /** The first element of the list at `there` with the identity of the incoming element. */
  ghost predicate SameIdentity(inc: Json, cur: Json, loc: Loc, there: Loc, n: nat, id: string)
    requires n < |loc| && n < |there| && there[n].Index?
  {
    var w := At(inc, loc[..n + 1] + [Key(id)]);
    && w.Some? && w != Some(Null) && At(cur, there[..n + 1] + [Key(id)]) == w
    && forall j: nat | j < there[n].i :: At(cur, there[..n] + [Index(j)] + [Key(id)]) != w
  }

  ghost predicate SameStep(inc: Json, cur: Json, loc: Loc, there: Loc, n: nat)
    requires n < |loc| && n < |there|
  {
    if loc[n].Key? then there[n] == loc[n]
    else there[n].Index? && exists id | Identifies(loc[..n], id) :: SameIdentity(inc, cur, loc, there, n, id)
  }

  /** `there` is in `cur` what `loc` is in `inc`: dict steps keep their key, list steps the identity of the element. */
  ghost predicate SamePlace(inc: Json, cur: Json, loc: Loc, there: Loc) {
    |there| == |loc| && forall n | 0 <= n < |loc| :: SameStep(inc, cur, loc, there, n)
  }

  /** The lists with secrets in their elements. */
  ghost predicate SecretList(list: Loc) {
    || list == [Key("sites")]
    || list == [Key("lldp"), Key("credentials")] || list == [Key("lldp"), Key("fallback_creds")]
    || (|list| == 3 && list[0] == Key("sites") && list[2] == Key("proxmox"))
  }

  lemma ListIdentifies(p: Path, list: Loc, n: nat)
    requires p in SECRET_PATHS && n < |p| && p[n] == STAR && |list| == n
    requires forall i | 0 <= i < n :: Fits(p[i], list[i])
    ensures SecretList(list) && forall id :: ListKey(p[..n]) == Some(id) <==> Identifies(list, id)
  {
    if n == 1 {
      assert p[..1] == [p[0]] && list == [list[0]];
    } else if n == 2 {
      assert p[..2] == [p[0], p[1]] && list == [list[0], list[1]];
    } else {
      assert p[..3] == [p[0], p[1], p[2]] && list == [list[0], list[1], list[2]];
    }
  }

  lemma KeyIdentifies(p: Path, loc: Loc, n: nat, id: string)
    requires p in SECRET_PATHS && Names(p, loc) && n < |p| && loc[n].Index?
    ensures ListKey(p[..n]) == Some(id) <==> Identifies(loc[..n], id)
  {
    hide SECRET_PATHS, ListKey, Identifies, Touches;
    NamesStepwise(p, loc);
    assert Fits(p[n], loc[n]);
    ListIdentifies(p, loc[..n], n);
  }

  /** In each of these lists the elements have present and distinct identities. */
  ghost predicate Distinguished(t: Json) {
    forall list | SecretList(list) && At(t, list).Some? && At(t, list).value.Arr? && At(t, list).value.items != [] ::
      exists id | Identifies(list, id) :: Identified(At(t, list).value.items, id)
  }

  lemma {:induction false} KeyedBelow(t: Json, p: Path, loc: Loc, n: nat)
    requires Distinguished(t) && p in SECRET_PATHS && |loc| == n <= |p| && At(t, loc).Some?
    requires forall i | 0 <= i < n :: Fits(p[i], loc[i])
    ensures WellKeyed(At(t, loc).value, p[n..], p[..n])
    decreases |p| - n
  {
    hide SECRET_PATHS, ListKey, Identifies, SecretList, At, Identified;
    if n < |p| {
      var node := At(t, loc).value;
      assert p[n..][0] == p[n] && p[n..][1..] == p[n + 1..] && p[..n] + [p[n]] == p[..n + 1];
      forall s | Fits(p[n], s) && Child(node, s).Some?
        ensures WellKeyed(Child(node, s).value, p[n + 1..], p[..n + 1])
      {
        AtStep(t, loc, s);
        KeyedBelow(t, p, loc + [s], n + 1);
      }
      if p[n] == STAR {
        ListIdentifies(p, loc, n);
        StarKeyed(node, p[n + 1..], p[..n]);
      } else if node.Obj? && p[n] in node.fields {
        assert Child(node, Key(p[n])).Some?;
      }
    }
  }

  lemma StarKeyed(node: Json, rest: Path, prefix: Path)
    requires forall s | Child(node, s).Some? :: WellKeyed(Child(node, s).value, rest, prefix + [STAR])
    requires node.Arr? && node.items != [] ==> ListKey(prefix).Some? && Identified(node.items, ListKey(prefix).value)
    ensures WellKeyed(node, [STAR] + rest, prefix)
  {
    assert ([STAR] + rest)[1..] == rest;
    if node.Arr? {
      forall i | 0 <= i < |node.items| ensures WellKeyed(node.items[i], rest, prefix + [STAR]) {
        assert Child(node, Index(i)).Some?;
      }
    } else if node.Obj? {
      forall k | k in node.fields ensures WellKeyed(node.fields[k], rest, prefix + [STAR]) {
        assert Child(node, Key(k)).Some?;
      }
    }
  }

  /** Then every secret finds its own place again. */
  lemma DistinguishedIsKeyed(t: Json)
    requires Distinguished(t)
    ensures forall p | p in SECRET_PATHS :: WellKeyed(t, p, [])
  {
    hide SECRET_PATHS, Distinguished, WellKeyed;
    forall p | p in SECRET_PATHS ensures WellKeyed(t, p, []) {
      KeyedBelow(t, p, [], 0);
      assert p[0..] == p && p[..0] == [];
    }
  }

  /** The first element with that identity, or the length of the list if there is none. */
  lemma {:induction false} FirstMatchAt(xs: seq<Json>, key: string, wanted: Json) returns (i: nat)
    ensures i <= |xs|
    ensures forall j | 0 <= j < i :: !(xs[j].Obj? && Get(xs[j], key) == wanted)
    ensures if i < |xs| then xs[i].Obj? && Get(xs[i], key) == wanted && FirstMatch(xs, key, wanted) == xs[i]
            else FirstMatch(xs, key, wanted) == Null
    decreases |xs|
  {
    i := 0;
    if xs != [] && !(xs[0].Obj? && Get(xs[0], key) == wanted) {
      i := FirstMatchAt(xs[1..], key, wanted);
      forall j | 0 <= j < i + 1 ensures !(xs[j].Obj? && Get(xs[j], key) == wanted) {
        assert j > 0 ==> xs[j] == xs[1..][j - 1];
      }
      i := i + 1;
    }
  }

  lemma AtStep(t: Json, l: Loc, s: Step)
    ensures At(t, l + [s]) == match At(t, l) case None => None case Some(c) => Child(c, s)
  {
    AtAppend(t, l, [s]);
    if At(t, l).Some? {
      AtOne(At(t, l).value, s);
    }
  }

  /** The identity of a list element, and what `Get` makes of it. */
  lemma IdentityAt(t: Json, l: Loc, i: nat, key: string, w: Json)
    requires w != Null
    ensures At(t, l + [Index(i)] + [Key(key)]) == Some(w) <==>
            && At(t, l).Some? && At(t, l).value.Arr? && i < |At(t, l).value.items|
            && At(t, l).value.items[i].Obj? && Get(At(t, l).value.items[i], key) == w
  {
    AtStep(t, l + [Index(i)], Key(key));
    AtStep(t, l, Index(i));
  }

  /** What the merge finds across one step is at the place that is the same. */
  lemma CrossSound(inc: Json, cur: Json, p: Path, loc: Loc, there: Loc, n: nat)
    requires p in SECRET_PATHS && Names(p, loc) && n < |loc| == |there|
    requires At(inc, loc[..n + 1]).Some? && At(cur, there[..n + 1]).Some? && SameStep(inc, cur, loc, there, n)
    ensures At(cur, there[..n]).Some?
    ensures Across(At(inc, loc[..n + 1]).value, loc[n], At(cur, there[..n]).value, p[..n])
         == At(cur, there[..n + 1]).value
  {
    assert there[..n + 1] == there[..n] + [there[n]] && loc[..n + 1] == loc[..n] + [loc[n]];
    AtStep(cur, there[..n], there[n]);
    if loc[n].Index? {
      var id :| Identifies(loc[..n], id) && SameIdentity(inc, cur, loc, there, n, id);
      KeyIdentifies(p, loc, n, id);
      hide SECRET_PATHS, Names, Identifies;
      var w, list := At(inc, loc[..n + 1] + [Key(id)]).value, At(cur, there[..n]).value;
      IdentityAt(inc, loc[..n], loc[n].i, id, w);
      AtStep(inc, loc[..n], loc[n]);
      IdentityAt(cur, there[..n], there[n].i, id, w);
      var i := FirstMatchAt(list.items, id, w);
      if i < there[n].i {
        IdentityAt(cur, there[..n], i, id, w);
      }
    }
  }

  lemma OneLonger(l: Loc, s: Step)
    ensures (l + [s])[..|l|] == l && (l + [s])[..|l| + 1] == l + [s]
  {
  }

  lemma CrossFound(inc: Json, cur: Json, p: Path, loc: Loc, there: Loc, n: nat) returns (s: Step)
    requires p in SECRET_PATHS && Names(p, loc) && n < |loc| && |there| == n
    requires At(inc, loc[..n + 1]).Some? && At(cur, there).Some?
    requires Across(At(inc, loc[..n + 1]).value, loc[n], At(cur, there).value, p[..n]) != Null
    ensures SameStep(inc, cur, loc, there + [s], n)
    ensures At(cur, there + [s]) == Some(Across(At(inc, loc[..n + 1]).value, loc[n], At(cur, there).value, p[..n]))
  {
    s := loc[n];
    AtStep(cur, there, s);
    if loc[n].Index? {
      var id, c, list := ListKey(p[..n]).value, At(inc, loc[..n + 1]).value, At(cur, there).value;
      KeyIdentifies(p, loc, n, id);
      hide SECRET_PATHS, Names, Identifies;
      var w := Get(c, id);
      var i := FirstMatchAt(list.items, id, w);
      s := Index(i);
      var whole := there + [s];
      OneLonger(there, s);
      OneLonger(loc[..n], loc[n]);
      assert loc[..n + 1] == loc[..n] + [loc[n]];
      AtStep(cur, there, s);
      AtStep(inc, loc[..n + 1], Key(id));
      IdentityAt(cur, there, i, id, w);
      forall j: nat | j < i ensures At(cur, there + [Index(j)] + [Key(id)]) != Some(w) {
        IdentityAt(cur, there, j, id, w);
      }
      assert SameIdentity(inc, cur, loc, whole, n, id);
    }
  }

  lemma {:induction false} WayExists(t: Json, loc: Loc, n: nat)
    requires At(t, loc).Some? && n <= |loc|
    ensures At(t, loc[..n]).Some?
  {
    AtAppend(t, loc[..n], loc[n..]);
    assert loc[..n] + loc[n..] == loc;
  }

  /** The value the merge looks at is the one at the same place. */
  lemma {:induction false} SourceSound(inc: Json, cur: Json, p: Path, loc: Loc, there: Loc, n: nat)
    requires p in SECRET_PATHS && Names(p, loc) && n <= |loc| && SamePlace(inc, cur, loc, there)
    requires At(inc, loc).Some? && At(cur, there).Some?
    ensures At(inc, loc[..n]).Some? && At(cur, there[..n]).Some?
    ensures Source(At(inc, loc[..n]).value, At(cur, there[..n]).value, p[n..], p[..n], loc[n..])
         == At(cur, there).value
    decreases |loc| - n
  {
    hide SECRET_PATHS, SameStep, Across, ListKey;
    WayExists(inc, loc, n);
    WayExists(cur, there, n);
    if n == |loc| {
      assert there[..n] == there;
    } else {
      WayExists(inc, loc, n + 1);
      WayExists(cur, there, n + 1);
      CrossSound(inc, cur, p, loc, there, n);
      SourceSound(inc, cur, p, loc, there, n + 1);
      SourceStep(inc, At(cur, there[..n]).value, p, loc, n);
    }
  }

  lemma SourceStep(inc: Json, d: Json, p: Path, loc: Loc, n: nat)
    requires n < |loc| == |p| && At(inc, loc[..n + 1]).Some?
    ensures At(inc, loc[..n]).Some?
    ensures var c := At(inc, loc[..n + 1]).value;
            Source(At(inc, loc[..n]).value, d, p[n..], p[..n], loc[n..]) ==
            Source(c, Across(c, loc[n], d, p[..n]), p[n + 1..], p[..n + 1], loc[n + 1..])
  {
    hide Across;
    assert loc[..n + 1] == loc[..n] + [loc[n]] && p[..n + 1] == p[..n] + [p[n]];
    AtStep(inc, loc[..n], loc[n]);
    assert loc[n..][0] == loc[n] && loc[n..][1..] == loc[n + 1..];
    assert p[n..][0] == p[n] && p[n..][1..] == p[n + 1..];
  }

  lemma {:induction false} SourceFound(inc: Json, cur: Json, p: Path, loc: Loc, there: Loc, n: nat)
    returns (whole: Loc)
    requires p in SECRET_PATHS && Names(p, loc) && n <= |loc| && |there| == n && At(inc, loc).Some?
    requires At(inc, loc[..n]).Some? && At(cur, there).Some?
    requires forall m | 0 <= m < n :: SameStep(inc, cur, loc, there, m)
    requires Source(At(inc, loc[..n]).value, At(cur, there).value, p[n..], p[..n], loc[n..]) != Null
    ensures SamePlace(inc, cur, loc, whole)
    ensures At(cur, whole)
         == Some(Source(At(inc, loc[..n]).value, At(cur, there).value, p[n..], p[..n], loc[n..]))
    decreases |loc| - n
  {
    hide SECRET_PATHS, SameStep, Across, ListKey;
    whole := there;
    if n < |loc| {
      WayExists(inc, loc, n + 1);
      var c, d := At(inc, loc[..n + 1]).value, At(cur, there).value;
      SourceStep(inc, d, p, loc, n);
      if Across(c, loc[n], d, p[..n]) == Null {
        SourceOfNull(c, p[n + 1..], p[..n + 1], loc[n + 1..]);
        assert false;
      }
      var s := CrossFound(inc, cur, p, loc, there, n);
      forall m | 0 <= m < n ensures SameStep(inc, cur, loc, there + [s], m) {
        StepsGrow(inc, cur, loc, there, s, m);
      }
      whole := SourceFound(inc, cur, p, loc, there + [s], n + 1);
    }
  }

  lemma StepsGrow(inc: Json, cur: Json, loc: Loc, there: Loc, s: Step, m: nat)
    requires m < |there| && m < |loc| && SameStep(inc, cur, loc, there, m)
    ensures SameStep(inc, cur, loc, there + [s], m)
  {
    assert (there + [s])[..m] == there[..m] && (there + [s])[..m + 1] == there[..m + 1];
    if loc[m].Index? {
      var id :| Identifies(loc[..m], id) && SameIdentity(inc, cur, loc, there, m, id);
      assert SameIdentity(inc, cur, loc, there + [s], m, id);
    }
  }

  lemma {:induction false} SourceOfNull(c: Json, path: Path, prefix: Path, loc: Loc)
    requires |path| == |loc|
    ensures Source(c, Null, path, prefix, loc) == Null
    decreases |path|
  {
    if loc != [] && Child(c, loc[0]).Some? {
      SourceOfNull(Child(c, loc[0]).value, path[1..], prefix + [path[0]], loc[1..]);
    }
  }

  /**
   Each redacted secret of `inc` has become the populated value at the same place of `cur`,
   or, if there is none, is empty and on the list; nothing else changed or is listed.
   */
  ghost predicate SecretsFilled(inc: Json, cur: Json, out: Json, blanked: set<Loc>) {
    && (forall loc | SecretPlace(loc) ::
          if At(inc, loc) == Some(Str("__REDACTED__")) then FilledFrom(inc, cur, out, loc, loc in blanked)
          else At(out, loc) == At(inc, loc) && loc !in blanked)
    && (forall loc | loc in blanked :: SecretPlace(loc))
    && (forall loc | Plain(loc) :: ShapeAt(out, loc) == ShapeAt(inc, loc))
  }

  ghost predicate FilledFrom(inc: Json, cur: Json, out: Json, loc: Loc, blank: bool) {
    if exists there :: HasAt(inc, cur, loc, there) then
      !blank && exists there | HasAt(inc, cur, loc, there) :: At(out, loc) == At(cur, there)
    else blank && At(out, loc) == Some(Str(""))
  }

  /** There is a populated value at the same place. */
  ghost predicate HasAt(inc: Json, cur: Json, loc: Loc, there: Loc) {
    SamePlace(inc, cur, loc, there) && At(cur, there).Some? && Populated(At(cur, there).value)
  }

  lemma SourceIs(inc: Json, cur: Json, p: Path, loc: Loc)
    requires p in SECRET_PATHS && Names(p, loc) && At(inc, loc).Some?
    ensures forall there | HasAt(inc, cur, loc, there) :: At(cur, there) == Some(Source(inc, cur, p, [], loc))
    ensures Populated(Source(inc, cur, p, [], loc)) <==> exists there :: HasAt(inc, cur, loc, there)
  {
    hide SECRET_PATHS, SameStep, Populated;
    assert loc[..0] == [] && loc[0..] == loc && p[..0] == [] && p[0..] == p;
    NullIsEmpty();
    forall there | HasAt(inc, cur, loc, there) ensures At(cur, there) == Some(Source(inc, cur, p, [], loc)) {
      SourceSound(inc, cur, p, loc, there, 0);
      assert there[..0] == [];
    }
    if Populated(Source(inc, cur, p, [], loc)) {
      var there := SourceFound(inc, cur, p, loc, [], 0);
      assert HasAt(inc, cur, loc, there);
    }
  }

  lemma NullIsEmpty()
    ensures !Populated(Null)
  {
  }

  lemma OneFilled(inc: Json, cur: Json, loc: Loc)
    requires SecretPlace(loc)
    ensures var out, blanked := MergeAll(inc, cur, SECRET_PATHS), UnresolvedAll(inc, cur, SECRET_PATHS);
            if At(inc, loc) == Some(Str("__REDACTED__")) then FilledFrom(inc, cur, out, loc, loc in blanked)
            else At(out, loc) == At(inc, loc) && loc !in blanked
  {
    hide SECRET_PATHS, SecretPlace, MergeAll, UnresolvedAll, At, HasAt, Source, Populated, Truthy, Good, Touches;
    SecretPathsAreGood();
    PlacesNamed(loc);
    var p :| p in SECRET_PATHS && Names(p, loc);
    MergeAllLeaf(inc, cur, SECRET_PATHS, p, loc);
    UnresolvedAllAt(inc, cur, SECRET_PATHS, p, loc);
    if At(inc, loc) == Some(Str("__REDACTED__")) {
      SourceIs(inc, cur, p, loc);
      PopulatedIs(Source(inc, cur, p, [], loc));
    }
  }

  /** The merge fills each secret from the same place, and reports those it leaves empty. */
  lemma MergeFills(inc: Json, cur: Json)
    ensures SecretsFilled(inc, cur, MergeAll(inc, cur, SECRET_PATHS), UnresolvedAll(inc, cur, SECRET_PATHS))
  {
    hide SECRET_PATHS, SecretPlace, MergeAll, UnresolvedAll, At, FilledFrom, Good, Plain;
    SecretPathsAreGood();
    forall loc | SecretPlace(loc)
      ensures var out, blanked := MergeAll(inc, cur, SECRET_PATHS), UnresolvedAll(inc, cur, SECRET_PATHS);
              if At(inc, loc) == Some(Str("__REDACTED__")) then FilledFrom(inc, cur, out, loc, loc in blanked)
              else At(out, loc) == At(inc, loc) && loc !in blanked
    {
      OneFilled(inc, cur, loc);
    }
    GoodEndings(SECRET_PATHS);
    forall loc | loc in UnresolvedAll(inc, cur, SECRET_PATHS) ensures SecretPlace(loc) {
      UnresolvedAllNamed(inc, cur, SECRET_PATHS, loc);
      PlacesNamed(loc);
    }
    forall loc | Plain(loc) ensures ShapeAt(MergeAll(inc, cur, SECRET_PATHS), loc) == ShapeAt(inc, loc) {
      PlainIsAbove(loc);
      MergeAllAbove(inc, cur, SECRET_PATHS, loc);
    }
  }

  lemma GoodEndings(paths: seq<Path>)
    requires Good(paths)
    ensures forall i | 0 <= i < |paths| :: EndsInField(paths[i])
  {
  }

  // --------------------------------------------------------------- reordering

  function Keeps(n: nat): seq<Shuffle> {
    seq(n, i => Keep)
  }

  lemma SitesSpared(order: seq<nat>, n: nat)
    ensures SparesAll(Fields(map["sites" := Items(order, Keeps(n))]), SECRET_PATHS)
  {
    SecretPathsAreGood();
    GoodEndings(SECRET_PATHS);
    var sh := Fields(map["sites" := Items(order, Keeps(n))]);
    forall i | 0 <= i < |SECRET_PATHS| ensures Spares(sh, SECRET_PATHS[i], []) {
      var p := SECRET_PATHS[i];
      if p[0] == "sites" {
        assert p[1..] != [] && p[1..][0] == STAR;
        assert Spares(Items(order, Keeps(n)), p[1..], ["sites"]);
      }
    }
  }

  lemma SitesApplied(config: map<string, Json>, xs: seq<Json>, order: seq<nat>)
    requires "sites" in config && config["sites"] == Arr(xs) && |order| == |xs| && Permutation(order)
    ensures Apply(Fields(map["sites" := Items(order, Keeps(|xs|))]), Obj(config))
         == Obj(config["sites" := Arr(seq(|xs|, i requires 0 <= i < |xs| => xs[order[i]]))])
  {
    var sh, ys := Items(order, Keeps(|xs|)), seq(|xs|, i requires 0 <= i < |xs| => xs[order[i]]);
    assert Apply(sh, Arr(xs)) == Arr(ys) by {
      assert Apply(sh, Arr(xs)).items == ys;
    }
    assert Apply(Fields(map["sites" := sh]), Obj(config)).fields == config["sites" := Arr(ys)];
  }

  /** Sites exported in another order are imported in that order, each with its own secrets. */
  lemma SitesReordered(config: map<string, Json>, xs: seq<Json>, order: seq<nat>, cur: Json)
    requires "sites" in config && config["sites"] == Arr(xs) && |order| == |xs|
    requires forall i | 0 <= i < |xs| :: order[i] < |xs|
    requires forall i, j | 0 <= i < j < |xs| :: order[i] != order[j]
    ensures var ys := seq(|xs|, i requires 0 <= i < |xs| => xs[order[i]]);
            var m := MergeAll(Obj(config), cur, SECRET_PATHS);
            var n := MergeAll(Obj(config["sites" := Arr(ys)]), cur, SECRET_PATHS);
            && m.Obj? && "sites" in m.fields && m.fields["sites"].Arr? && |m.fields["sites"].items| == |xs|
            && var merged := m.fields["sites"].items;
               n == Obj(m.fields["sites" := Arr(seq(|xs|, i requires 0 <= i < |xs| => merged[order[i]]))])
  {
    hide SECRET_PATHS, MergeAll, Apply, UnresolvedAll, SecretPlace;
    var m := MergeAll(Obj(config), cur, SECRET_PATHS);
    MergeFills(Obj(config), cur);
    SitesArePlain();
    assert ShapeAt(m, []) == ShapeAt(Obj(config), []);
    AtOne(m, Key("sites"));
    AtOne(Obj(config), Key("sites"));
    assert ShapeAt(m, [Key("sites")]) == ShapeAt(Obj(config), [Key("sites")]);
    SitesSpared(order, |xs|);
    IncomingReordered(Fields(map["sites" := Items(order, Keeps(|xs|))]), Obj(config), cur, SECRET_PATHS);
    SitesApplied(config, xs, order);
    SitesApplied(m.fields, m.fields["sites"].items, order);
  }

  lemma SitesArePlain()
    ensures Plain([]) && Plain([Key("sites")])
  {
    assert [Key("sites")][..0] == [] && [Key("sites")][..1] == [Key("sites")];
  }
}
