/**
 Which driver and credential are tried against a switch, in which order, and how often
 (lldp.py:311-474, lldp/registry.py:25-57).
 */
module LldpAttempts {
  import opened Prelude
  import opened Networks
  import opened LldpNeighbors

  const AUTO_ORDER: seq<Driver> := [Mikrotik, Cisco, Arista, Aruba, Unifi, Snmp]

  /** A credential profile; `driver` is None for "auto". */
  datatype Cred = Cred(name: string, driver: Option<Driver>, username: string, password: string, community: string)

  datatype Attempt = Attempt(driver: Driver, cred: Option<Cred>)

  /** What reaches the wire: two attempts with one key are the same login. */
  datatype Key = Key(driver: Driver, username: string, password: string, community: string)

  function KeyOf(a: Attempt): Key {
    match a.cred
    case None => Key(a.driver, "", "", "")
    case Some(c) => Key(a.driver, c.username, c.password, c.community)
  }

  // ---------------------------------------------------------------- candidates

  /** lldp.py:407-421. A known vendor leaves one SSH driver at most. */
  method DriversFor(cred: Cred, hint: Option<SshDriver>) returns (out: seq<Driver>)
    ensures out == Offered(cred, hint)
  {
    if cred.driver.Some? {
      return [cred.driver.value];
    }
    var order := SshOrder(hint);
    out := [];
    for k := 0 to |order|
      invariant out == if cred.username == "" then [] else Ssh(order[..k])
    {
      assert order[..k + 1][..k] == order[..k];
      if IsSsh(order[k]) && cred.username != "" {
        out := out + [order[k]];
      }
    }
    assert order[..|order|] == order;
    if cred.community != "" {
      out := out + [Snmp];
    }
  }

  function Ssh(order: seq<Driver>): seq<Driver> {
    if order == [] then []
    else Ssh(order[..|order| - 1]) + if IsSsh(order[|order| - 1]) then [order[|order| - 1]] else []
  }

  lemma {:induction false} SshKeeps(order: seq<Driver>)
    ensures forall d :: d in Ssh(order) <==> d in order && IsSsh(d)
    decreases |order|
  {
    if order != [] {
      var n := |order| - 1;
      SshKeeps(order[..n]);
      assert order == order[..n] + [order[n]];
    }
  }

  function SshOrder(hint: Option<SshDriver>): seq<Driver> {
    if hint.Some? then [hint.value] else AUTO_ORDER
  }

  function Offered(cred: Cred, hint: Option<SshDriver>): seq<Driver> {
    if cred.driver.Some? then [cred.driver.value]
    else
      (if cred.username == "" then []
       else Ssh(SshOrder(hint)))
      + (if cred.community != "" then [Snmp] else [])
  }

  function With(drivers: seq<Driver>, cred: Cred): seq<Attempt> {
    seq(|drivers|, i requires 0 <= i < |drivers| => Attempt(drivers[i], Some(cred)))
  }

  function OfProfiles(profiles: seq<Cred>, hint: Option<SshDriver>): seq<Attempt> {
    if profiles == [] then []
    else
      var last := profiles[|profiles| - 1];
      OfProfiles(profiles[..|profiles| - 1], hint) + With(Offered(last, hint), last)
  }

  /** The first profile of that name, else the credential stored with the device. */
  function Named(profiles: seq<Cred>, name: string, secret: Option<Cred>): Option<Cred> {
    if profiles == [] then secret
    else if profiles[0].name == name then Some(profiles[0])
    else Named(profiles[1..], name, secret)
  }

  /** A remembered driver with the name of the profile that went with it. */
  datatype Combo = Combo(driver: Driver, cred: string)

  /** Everything worth a try, in order of preference. */
  function Candidates(cached: Option<Combo>, secret: Option<Cred>, profiles: seq<Cred>,
                      hint: Option<SshDriver>): seq<Attempt> {
    (if cached.Some? then [Attempt(cached.value.driver, Named(profiles, cached.value.cred, secret))] else [])
    + (if secret.Some? then With(Offered(secret.value, hint), secret.value) else [])
    + OfProfiles(profiles, hint)
  }

  // ------------------------------------------------------------- no repetition

  function Keys(attempts: seq<Attempt>): set<Key> {
    set k | 0 <= k < |attempts| :: KeyOf(attempts[k])
  }

  /** The candidates with a known driver, each login once. */
  function Deduped(c: seq<Attempt>): seq<Attempt> {
    if c == [] then []
    else
      var before, last := Deduped(c[..|c| - 1]), c[|c| - 1];
      if !last.driver.Unknown? && KeyOf(last) !in Keys(before) then before + [last] else before
  }

  /** Candidate `k` has a known driver and is the first with its login. */
  predicate IsFirst(c: seq<Attempt>, k: nat) {
    k < |c| && !c[k].driver.Unknown? && forall i | 0 <= i < k :: KeyOf(c[i]) != KeyOf(c[k])
  }

  /** `at` lists, in ascending order, which candidates were kept. */
  ghost predicate Kept(c: seq<Attempt>, kept: seq<Attempt>, at: seq<nat>) {
    && |at| == |kept|
    && (forall i | 0 <= i < |at| :: IsFirst(c, at[i]) && kept[i] == c[at[i]])
    && (forall i, j | 0 <= i < j < |at| :: at[i] < at[j])
    && (forall k: nat | IsFirst(c, k) :: k in at)
  }

  lemma {:induction false} FirstLike(c: seq<Attempt>, i: nat) returns (k: nat)
    requires i < |c| && !c[i].driver.Unknown?
    ensures k <= i && IsFirst(c, k) && KeyOf(c[k]) == KeyOf(c[i])
    decreases i
  {
    k := i;
    if !IsFirst(c, i) {
      var j: nat :| j < i && KeyOf(c[j]) == KeyOf(c[i]);
      k := FirstLike(c, j);
    }
  }

  /**
   The attempts are exactly the first candidates of each login with a known driver, in
   the order of the candidates.
   */
  lemma {:induction false} DedupedKeepsFirsts(c: seq<Attempt>) returns (at: seq<nat>)
    ensures Kept(c, Deduped(c), at)
    decreases |c|
  {
    hide KeyOf, Kept;
    if c == [] {
      at := NothingKept();
      return;
    }
    var n := |c| - 1;
    at := DedupedKeepsFirsts(c[..n]);
    KeptOneMore(c, Deduped(c[..n]), at);
    at := FirstDecides(c, Deduped(c[..n]), at);
  }

  lemma NothingKept() returns (at: seq<nat>)
    ensures Kept([], [], at)
  {
    at := [];
  }

  /** One candidate more is kept exactly if it is the first with its login. */
  lemma KeptOneMore(c: seq<Attempt>, before: seq<Attempt>, at: seq<nat>)
    requires c != [] && Kept(c[..|c| - 1], before, at)
    ensures if IsFirst(c, |c| - 1) then Kept(c, before + [c[|c| - 1]], at + [|c| - 1]) else Kept(c, before, at)
  {
    hide KeyOf;
    var n := |c| - 1;
    assert forall k: nat | k < n :: IsFirst(c, k) <==> IsFirst(c[..n], k);
    assert forall k: nat | IsFirst(c, k) :: k <= n;
    assert forall i | 0 <= i < |at| :: at[i] < n;
    hide IsFirst;
    assert forall i | 0 <= i < |at| :: (at + [n])[i] == at[i] && (before + [c[n]])[i] == before[i];
    forall k: nat | IsFirst(c, k) ensures k in at + [n] && (!IsFirst(c, n) ==> k in at) {
      assert k < n ==> IsFirst(c[..n], k);
    }
  }

  lemma FirstDecides(c: seq<Attempt>, before: seq<Attempt>, kept: seq<nat>) returns (at: seq<nat>)
    requires c != [] && before == Deduped(c[..|c| - 1]) && Kept(c[..|c| - 1], before, kept)
    requires if IsFirst(c, |c| - 1) then Kept(c, before + [c[|c| - 1]], kept + [|c| - 1]) else Kept(c, before, kept)
    ensures Kept(c, Deduped(c), at)
  {
    hide KeyOf;
    var n := |c| - 1;
    at := kept;
    if IsFirst(c, n) {
      at := kept + [n];
      forall i | 0 <= i < |before| ensures KeyOf(before[i]) != KeyOf(c[n]) {
        assert before[i] == (before + [c[n]])[i] == c[at[i]];
        assert at[i] < at[|before|] == n;
      }
    } else if !c[n].driver.Unknown? {
      var k := FirstLike(c, n);
      var i :| 0 <= i < |at| && at[i] == k;
      assert before[i] == c[k];
    }
  }

  /** No login is tried twice, and none with a driver that does not exist. */
  ghost predicate Distinct(attempts: seq<Attempt>) {
    && (forall i | 0 <= i < |attempts| :: !attempts[i].driver.Unknown?)
    && (forall i, j | 0 <= i < j < |attempts| :: KeyOf(attempts[i]) != KeyOf(attempts[j]))
  }

  lemma DedupedDistinct(c: seq<Attempt>)
    ensures Distinct(Deduped(c))
    ensures forall k | 0 <= k < |c| && !c[k].driver.Unknown? :: KeyOf(c[k]) in Keys(Deduped(c))
  {
    var at := DedupedKeepsFirsts(c);
    forall k | 0 <= k < |c| && !c[k].driver.Unknown? ensures KeyOf(c[k]) in Keys(Deduped(c)) {
      var f := FirstLike(c, k);
      var i :| 0 <= i < |at| && at[i] == f;
      assert Deduped(c)[i] == c[f];
    }
  }

  lemma DedupedAppend(c: seq<Attempt>, a: Attempt)
    ensures Deduped(c + [a])
         == if !a.driver.Unknown? && KeyOf(a) !in Keys(Deduped(c)) then Deduped(c) + [a] else Deduped(c)
  {
    assert (c + [a])[..|c|] == c;
  }

  /** The attempts under construction. */
  class AttemptList {
    var attempts: seq<Attempt>
    var seen: set<Key>
    ghost var candidates: seq<Attempt>

    ghost predicate Valid()
      reads this
    {
      attempts == Deduped(candidates) && seen == Keys(attempts)
    }

    constructor ()
      ensures Valid() && candidates == []
    {
      attempts, seen, candidates := [], {}, [];
    }

    /** lldp.py:389-400. */
    method Add(driver: Driver, cred: Option<Cred>)
      requires Valid()
      modifies this
      ensures Valid() && candidates == old(candidates) + [Attempt(driver, cred)]
    {
      var a := Attempt(driver, cred);
      DedupedAppend(candidates, a);
      candidates := candidates + [a];
      if !driver.Unknown? && KeyOf(a) !in seen {
        assert Keys(attempts + [a]) == Keys(attempts) + {KeyOf(a)} by {
          assert forall k | 0 <= k < |attempts| :: (attempts + [a])[k] == attempts[k];
          assert (attempts + [a])[|attempts|] == a;
        }
        seen := seen + {KeyOf(a)};
        attempts := attempts + [a];
      }
    }

    /** lldp.py:427-429. */
    method AddAll(cred: Cred, hint: Option<SshDriver>)
      requires Valid()
      modifies this
      ensures Valid() && candidates == old(candidates) + With(Offered(cred, hint), cred)
    {
      hide Deduped, Keys, Offered, KeyOf;
      var drivers := DriversFor(cred, hint);
      for k := 0 to |drivers|
        invariant Valid() && candidates == old(candidates) + With(drivers, cred)[..k]
      {
        Add(drivers[k], Some(cred));
      }
    }
  }

  /** lldp.py:423-433. */
  method BuildAttempts(cached: Option<Combo>, secret: Option<Cred>, profiles: seq<Cred>, hint: Option<SshDriver>)
    returns (attempts: seq<Attempt>)
    ensures attempts == Deduped(Candidates(cached, secret, profiles, hint))
    ensures Distinct(attempts) && RightList(attempts, cached, secret, profiles, hint)
  {
    hide Deduped, Keys, Named, Offered, With, RightList;
    var list := new AttemptList();
    if cached.Some? {
      list.Add(cached.value.driver, Named(profiles, cached.value.cred, secret));
    }
    if secret.Some? {
      list.AddAll(secret.value, hint);
    }
    ghost var first := list.candidates;
    assert first == (if cached.Some? then [Attempt(cached.value.driver, Named(profiles, cached.value.cred, secret))]
        else [])
                    + (if secret.Some? then With(Offered(secret.value, hint), secret.value) else []);
    for k := 0 to |profiles|
      invariant list.Valid() && list.candidates == first + OfProfiles(profiles[..k], hint)
    {
      assert profiles[..k + 1][..k] == profiles[..k];
      list.AddAll(profiles[k], hint);
    }
    assert profiles[..|profiles|] == profiles;
    attempts := list.attempts;
    DedupedDistinct(list.candidates);
    AttemptsAreRight(cached, secret, profiles, hint);
  }

  /**
   A profile that leaves the driver open offers the vendor's SSH driver and no other if the
   vendor is known, every SSH driver if not, and SNMP if it has a community.
   */
  lemma VendorRespected(cred: Cred, hint: Option<SshDriver>)
    requires cred.driver.None?
    ensures forall d | IsSsh(d) :: d in Offered(cred, hint) <==>
              cred.username != "" && (hint == None || hint == Some(d))
    ensures forall d | !IsSsh(d) :: d in Offered(cred, hint) <==> cred.community != "" && d == Snmp
  {
    SshKeeps(SshOrder(hint));
  }

  /** A combination that worked is the first to be tried the next time. */
  lemma RememberedFirst(a: Attempt, secret: Option<Cred>, profiles: seq<Cred>, hint: Option<SshDriver>)
    requires !a.driver.Unknown?
    ensures var attempts := Deduped(Candidates(Some(ComboOf(a)), secret, profiles, hint));
            && |attempts| > 0 && attempts[0].driver == a.driver
            && (forall k | 0 <= k < |profiles| && a.cred == Some(profiles[k])
                           && (forall i | 0 <= i < k :: profiles[i].name != profiles[k].name) :: attempts[0] == a)
  {
    var c := Candidates(Some(ComboOf(a)), secret, profiles, hint);
    var at := DedupedKeepsFirsts(c);
    assert IsFirst(c, 0);
    forall k | 0 <= k < |profiles| && a.cred == Some(profiles[k])
               && (forall i | 0 <= i < k :: profiles[i].name != profiles[k].name)
      ensures c[0] == a
    {
      NamedFinds(profiles, k, secret);
    }
  }

  lemma {:induction false} NamedFinds(profiles: seq<Cred>, k: nat, secret: Option<Cred>)
    requires k < |profiles| && forall i | 0 <= i < k :: profiles[i].name != profiles[k].name
    ensures Named(profiles, profiles[k].name, secret) == Some(profiles[k])
  {
    if k > 0 {
      NamedFinds(profiles[1..], k - 1, secret);
    }
  }

  // ------------------------------------------------- what is tried, by the fields

  /** The attempt logs in like this. */
  ghost predicate Sends(a: Attempt, k: Key) {
    && a.driver == k.driver
    && k.username == (if a.cred.Some? then a.cred.value.username else "")
    && k.password == (if a.cred.Some? then a.cred.value.password else "")
    && k.community == (if a.cred.Some? then a.cred.value.community else "")
  }

  lemma KeyIs(a: Attempt, k: Key)
    ensures Sends(a, k) <==> KeyOf(a) == k
  {
  }

  lemma KeysAre(attempts: seq<Attempt>, k: Key)
    ensures k in Keys(attempts) <==> exists a | a in attempts :: Sends(a, k)
  {
    if k in Keys(attempts) {
      var i :| 0 <= i < |attempts| && KeyOf(attempts[i]) == k;
      assert attempts[i] in attempts && Sends(attempts[i], k);
    }
    if a :| a in attempts && Sends(a, k) {
      var i :| 0 <= i < |attempts| && attempts[i] == a;
      assert KeyOf(attempts[i]) == k;
    }
  }

  /**
   A credential may be used with its own driver; one that leaves the driver open with SNMP
   if it has a community, and with an SSH driver if it has a user name and the vendor, as
   far as it is known, is that driver's.
   */
  ghost predicate MayUse(c: Cred, d: Driver, hint: Option<SshDriver>) {
    if c.driver.Some? then d == c.driver.value
    else if d == Snmp then c.community != ""
    else
      c.username != "" && d in {Mikrotik, Cisco, Arista, Aruba, Unifi} && (hint.None? || hint.value == d)
  }

  lemma OfferedIs(c: Cred, hint: Option<SshDriver>)
    ensures forall d :: d in Offered(c, hint) <==> MayUse(c, d, hint)
  {
    SshKeeps(SshOrder(hint));
  }

  /** The credential of the remembered combination: the first profile of its name, or else the stored one. */
  ghost predicate Recalled(combo: Combo, cred: Option<Cred>, secret: Option<Cred>, profiles: seq<Cred>) {
    if exists p | p in profiles :: p.name == combo.cred then
      exists k | 0 <= k < |profiles| ::
        && profiles[k].name == combo.cred && cred == Some(profiles[k])
        && forall i | 0 <= i < k :: profiles[i].name != combo.cred
    else cred == secret
  }

  lemma {:induction false} NamedIs(profiles: seq<Cred>, name: string, secret: Option<Cred>, combo: Combo)
    requires combo.cred == name
    ensures Recalled(combo, Named(profiles, name, secret), secret, profiles)
    decreases |profiles|
  {
    if profiles != [] {
      if profiles[0].name == name {
        assert profiles[0] in profiles;
      } else {
        NamedIs(profiles[1..], name, secret, combo);
        assert forall p :: p in profiles <==> p == profiles[0] || p in profiles[1..];
        if exists p | p in profiles :: p.name == name {
          var k :| 0 <= k < |profiles[1..]| && profiles[1..][k].name == name
                   && Named(profiles, name, secret) == Some(profiles[1..][k])
                   && forall i | 0 <= i < k :: profiles[1..][i].name != name;
          assert profiles[k + 1] == profiles[1..][k];
          forall i | 0 <= i < k + 1 ensures profiles[i].name != name {
            assert i > 0 ==> profiles[i] == profiles[1..][i - 1];
          }
        }
      }
    }
  }

  /** The credential is one of the profiles, or the one stored with the device. */
  ghost predicate AtHand(c: Cred, secret: Option<Cred>, profiles: seq<Cred>) {
    c in profiles || secret == Some(c)
  }

  /** Every login that a credential at hand allows is on the list. */
  ghost predicate LeavesNoneOut(list: seq<Attempt>, secret: Option<Cred>, profiles: seq<Cred>,
                                hint: Option<SshDriver>) {
    forall c, d | AtHand(c, secret, profiles) && MayUse(c, d, hint) && !d.Unknown? ::
      exists a | a in list :: Sends(a, Key(d, c.username, c.password, c.community))
  }

  /** The attempt is the remembered combination, or one that a credential at hand allows. */
  ghost predicate Stems(a: Attempt, cached: Option<Combo>, secret: Option<Cred>, profiles: seq<Cred>,
                        hint: Option<SshDriver>) {
    && !a.driver.Unknown?
    && (|| (cached.Some? && a.driver == cached.value.driver && Recalled(cached.value, a.cred, secret, profiles))
        || (a.cred.Some? && AtHand(a.cred.value, secret, profiles) && MayUse(a.cred.value, a.driver, hint)))
  }

  /**
   The list of logins for a host, by what it must hold: what was remembered comes first, no
   login that a credential allows is missing, nothing else is on it, and none is on it twice.
   */
  ghost predicate RightList(list: seq<Attempt>, cached: Option<Combo>, secret: Option<Cred>, profiles: seq<Cred>,
                            hint: Option<SshDriver>) {
    && (cached.Some? && !cached.value.driver.Unknown? ==>
          list != [] && list[0].driver == cached.value.driver
          && Recalled(cached.value, list[0].cred, secret, profiles))
    && LeavesNoneOut(list, secret, profiles, hint)
    && (forall a | a in list :: Stems(a, cached, secret, profiles, hint))
    && (forall i, j, k | 0 <= i < j < |list| :: !(Sends(list[i], k) && Sends(list[j], k)))
  }

  lemma WithHas(drivers: seq<Driver>, c: Cred)
    ensures forall a :: a in With(drivers, c) <==> a.cred == Some(c) && a.driver in drivers
  {
    forall a: Attempt | a.cred == Some(c) && a.driver in drivers ensures a in With(drivers, c) {
      var i :| 0 <= i < |drivers| && drivers[i] == a.driver;
      assert With(drivers, c)[i] == a;
    }
  }

  lemma {:induction false} ProfilesHave(profiles: seq<Cred>, hint: Option<SshDriver>, a: Attempt)
    ensures a in OfProfiles(profiles, hint) <==>
            a.cred.Some? && a.cred.value in profiles && MayUse(a.cred.value, a.driver, hint)
    decreases |profiles|
  {
    if profiles != [] {
      var n := |profiles| - 1;
      ProfilesHave(profiles[..n], hint, a);
      WithHas(Offered(profiles[n], hint), profiles[n]);
      OfferedIs(profiles[n], hint);
      assert forall p :: p in profiles <==> p in profiles[..n] || p == profiles[n];
    }
  }

  /** The candidates, by their fields. */
  lemma CandidatesHave(cached: Option<Combo>, secret: Option<Cred>, profiles: seq<Cred>, hint: Option<SshDriver>,
                       a: Attempt)
    ensures a in Candidates(cached, secret, profiles, hint) <==>
            || (cached.Some? && a == Attempt(cached.value.driver, Named(profiles, cached.value.cred, secret)))
            || (a.cred.Some? && AtHand(a.cred.value, secret, profiles) && MayUse(a.cred.value, a.driver, hint))
  {
    ProfilesHave(profiles, hint, a);
    if secret.Some? {
      WithHas(Offered(secret.value, hint), secret.value);
      OfferedIs(secret.value, hint);
    }
    hide With, Offered, OfProfiles, Named, MayUse;
  }

  lemma DedupedFrom(c: seq<Attempt>)
    ensures forall a | a in Deduped(c) :: a in c && !a.driver.Unknown?
    ensures c != [] && !c[0].driver.Unknown? ==> Deduped(c) != [] && Deduped(c)[0] == c[0]
  {
    hide KeyOf;
    var at := DedupedKeepsFirsts(c);
    if c != [] && !c[0].driver.Unknown? {
      assert IsFirst(c, 0);
      var i :| 0 <= i < |at| && at[i] == 0;
      assert at[0] <= at[i];
    }
  }

  /** What is tried is exactly what ought to be. */
  lemma AttemptsAreRight(cached: Option<Combo>, secret: Option<Cred>, profiles: seq<Cred>, hint: Option<SshDriver>)
    ensures RightList(Deduped(Candidates(cached, secret, profiles, hint)), cached, secret, profiles, hint)
  {
    hide Deduped, Candidates, MayUse, Recalled, KeyOf, Named, Keys, AtHand;
    var c := Candidates(cached, secret, profiles, hint);
    var list := Deduped(c);
    DedupedFrom(c);
    DedupedDistinct(c);
    if cached.Some? {
      NamedIs(profiles, cached.value.cred, secret, cached.value);
      FirstCandidate(cached.value, secret, profiles, hint);
    }
    forall a | a in list ensures Stems(a, cached, secret, profiles, hint) {
      CandidatesHave(cached, secret, profiles, hint, a);
    }
    forall x, d | AtHand(x, secret, profiles) && MayUse(x, d, hint) && !d.Unknown?
      ensures exists a | a in list :: Sends(a, Key(d, x.username, x.password, x.community))
    {
      var a, k := Attempt(d, Some(x)), Key(d, x.username, x.password, x.community);
      CandidatesHave(cached, secret, profiles, hint, a);
      var i :| 0 <= i < |c| && c[i] == a;
      KeyIs(a, k);
      KeysAre(list, k);
    }
    forall i, j, k | 0 <= i < j < |list| ensures !(Sends(list[i], k) && Sends(list[j], k)) {
      KeyIs(list[i], k);
      KeyIs(list[j], k);
    }
  }

  lemma FirstCandidate(combo: Combo, secret: Option<Cred>, profiles: seq<Cred>, hint: Option<SshDriver>)
    ensures var c := Candidates(Some(combo), secret, profiles, hint);
            c != [] && c[0] == Attempt(combo.driver, Named(profiles, combo.cred, secret))
  {
  }

  /** The stored credential is tried before any profile. */
  lemma StoredComesFirst(cached: Option<Combo>, secret: Option<Cred>, profiles: seq<Cred>, hint: Option<SshDriver>,
                         i: nat, j: nat)
    requires secret.Some? && secret.value !in profiles
    requires var list := Deduped(Candidates(cached, secret, profiles, hint));
             && i < |list| && j < |list| && list[j].cred == secret && list[i].cred != secret
             && (cached.None? || i > 0)
    ensures j < i
  {
    hide KeyOf, Deduped, Candidates;
    var c := Candidates(cached, secret, profiles, hint);
    var at := DedupedKeepsFirsts(c);
    assert i > 0 ==> at[0] < at[i];
    Segments(cached, secret, profiles, hint, at[i]);
    Segments(cached, secret, profiles, hint, at[j]);
  }

  /** The candidates of the stored credential lie between the remembered one and those of the profiles. */
  lemma Segments(cached: Option<Combo>, secret: Option<Cred>, profiles: seq<Cred>, hint: Option<SshDriver>, k: nat)
    requires secret.Some? && k < |Candidates(cached, secret, profiles, hint)|
    ensures var c := Candidates(cached, secret, profiles, hint);
            var n := |c| - |OfProfiles(profiles, hint)|;
            && (k < n && (cached.None? || k > 0) ==> c[k].cred == secret)
            && (k >= n ==> c[k].cred.Some? && c[k].cred.value in profiles)
  {
    hide Offered, OfProfiles, Named, MayUse;
    var c := Candidates(cached, secret, profiles, hint);
    var stored, rest := With(Offered(secret.value, hint), secret.value), OfProfiles(profiles, hint);
    var n, head := |c| - |rest|, if cached.Some? then 1 else 0;
    if k >= n {
      assert c[k] == rest[k - n];
      ProfilesHave(profiles, hint, c[k]);
    } else if k >= head {
      assert c[k] == stored[k - head];
      WithHas(Offered(secret.value, hint), secret.value);
    }
  }

  /** With the vendor unknown and nothing remembered, the drivers come in this order. */
  lemma AutoOrderIs(c: Cred)
    requires c.driver.None? && c.username != ""
    ensures Candidates(None, None, [c], None)
         == (var ssh := [Attempt(Mikrotik, Some(c)), Attempt(Cisco, Some(c)), Attempt(Arista, Some(c)),
                         Attempt(Aruba, Some(c)), Attempt(Unifi, Some(c))];
             if c.community != "" then ssh + [Attempt(Snmp, Some(c))] else ssh)
  {
    hide Candidates, Offered;
    AutoOffered(c);
    OnlyProfile(c);
  }

  lemma AutoOffered(c: Cred)
    requires c.driver.None? && c.username != ""
    ensures var ssh := [Mikrotik, Cisco, Arista, Aruba, Unifi];
            Offered(c, None) == if c.community != "" then ssh + [Snmp] else ssh
  {
    var o := AUTO_ORDER;
    assert o[..5] == [Mikrotik, Cisco, Arista, Aruba, Unifi] && o == o[..5] + [Snmp];
    assert Ssh(o[..0]) == [];
    assert Ssh(o[..1]) == [Mikrotik] by { assert o[..1][..0] == o[..0]; }
    assert Ssh(o[..2]) == [Mikrotik, Cisco] by { assert o[..2][..1] == o[..1]; }
    assert Ssh(o[..3]) == [Mikrotik, Cisco, Arista] by { assert o[..3][..2] == o[..2]; }
    assert Ssh(o[..4]) == [Mikrotik, Cisco, Arista, Aruba] by { assert o[..4][..3] == o[..3]; }
    assert Ssh(o[..5]) == [Mikrotik, Cisco, Arista, Aruba, Unifi] by { assert o[..5][..4] == o[..4]; }
    assert Ssh(o) == Ssh(o[..5]) by { assert o[..|o| - 1] == o[..5]; }
  }

  lemma OnlyProfile(c: Cred)
    ensures Candidates(None, None, [c], None) == With(Offered(c, None), c)
  {
    hide Offered, With;
    assert [c][..0] == [];
    assert OfProfiles([c][..0], None) == [];
    assert OfProfiles([c], None) == With(Offered(c, None), c);
  }

  // ------------------------------------------------------------------ the wire

  /** What a switch answers; a transport error is one no other login can cure. */
  datatype Answer = Neighbors(neighbors: seq<Neighbor>) | TransportError | OtherError

  /** One conversation with a host. */
  datatype Call = Collect(host: Host, key: Key, answer: Answer) | ReadMacs(host: Host, own: seq<OwnMac>)

  /** The switches out there. They answer what they like; every conversation is on record. */
  class Fabric {
    ghost var calls: seq<Call>

    constructor ()
      ensures calls == []
    {
      calls := [];
    }

    /** lldp/registry.py:62-79. */
    method CollectNeighbors(host: Host, a: Attempt) returns (answer: Answer)
      modifies this
      ensures calls == old(calls) + [Collect(host, KeyOf(a), answer)]
    {
      answer := *;
      calls := calls + [Collect(host, KeyOf(a), answer)];
    }

    /** lldp/registry.py:82-110. */
    method CollectLocalMacs(host: Host, a: Attempt) returns (own: seq<OwnMac>)
      modifies this
      ensures calls == old(calls) + [ReadMacs(host, own)]
    {
      own := *;
      calls := calls + [ReadMacs(host, own)];
    }
  }

  /** An answer that shows SSH to be unreachable. */
  predicate HitsWall(c: Call) {
    c.Collect? && IsSsh(c.key.driver) && c.answer.TransportError?
  }

  predicate Succeeds(c: Call) {
    c.Collect? && c.answer.Neighbors?
  }

  /** Login attempts on one host: few, distinct, none after a success, no SSH once SSH is unreachable. */
  ghost predicate Sparing(calls: seq<Call>, host: Host, cap: int) {
    && (forall k | 0 <= k < |calls| :: calls[k].Collect? && calls[k].host == host)
    && (calls == [] || |calls| <= cap)
    && (forall i, j | 0 <= i < j < |calls| ::
          && calls[i].key != calls[j].key && !Succeeds(calls[i])
          && !(HitsWall(calls[i]) && IsSsh(calls[j].key.driver)))
  }

  lemma OneMore(calls: seq<Call>, c: Call, host: Host, cap: int)
    requires Sparing(calls, host, cap) && |calls| < cap && c.Collect? && c.host == host
    requires forall k | 0 <= k < |calls| :: calls[k].key != c.key && !Succeeds(calls[k])
    requires IsSsh(c.key.driver) ==> !Walled(calls)
    ensures Sparing(calls + [c], host, cap)
    ensures Walled(calls + [c]) <==> HitsWall(c) || Walled(calls)
  {
    assert (calls + [c])[|calls|] == c;
    assert forall k | 0 <= k < |calls| :: (calls + [c])[k] == calls[k];
  }

  /** The login was tried, or it is an SSH one and SSH turned out to be unreachable. */
  predicate Considered(calls: seq<Call>, a: Attempt) {
    || (exists k | 0 <= k < |calls| :: calls[k].Collect? && calls[k].key == KeyOf(a))
    || (IsSsh(a.driver) && Walled(calls))
  }

  predicate Walled(calls: seq<Call>) {
    exists k | 0 <= k < |calls| :: HitsWall(calls[k])
  }

  /** The calls the first `n` attempts lead to: each is made in its turn unless it needs an SSH found unreachable. */
  ghost predicate Follows(calls: seq<Call>, attempts: seq<Attempt>, n: nat)
    requires n <= |attempts|
  {
    if n == 0 then calls == []
    else if IsSsh(attempts[n - 1].driver) && Walled(calls) && Follows(calls, attempts, n - 1) then true
    else
      && calls != []
      && calls[|calls| - 1].Collect? && calls[|calls| - 1].key == KeyOf(attempts[n - 1])
      && !(IsSsh(attempts[n - 1].driver) && Walled(calls[..|calls| - 1]))
      && Follows(calls[..|calls| - 1], attempts, n - 1)
  }

  /** How many attempts a host gets, the skipped ones included. */
  function Limit(attempts: seq<Attempt>, cap: int): (n: nat) {
    if cap < 0 then 0 else if cap < |attempts| then cap else |attempts|
  }

  /** Within the limit no login is forgotten. */
  lemma {:induction false} AllConsidered(calls: seq<Call>, attempts: seq<Attempt>, n: nat)
    requires n <= |attempts| && Follows(calls, attempts, n)
    ensures forall j | 0 <= j < n :: Considered(calls, attempts[j])
    decreases n
  {
    if n > 0 {
      if IsSsh(attempts[n - 1].driver) && Walled(calls) && Follows(calls, attempts, n - 1) {
        AllConsidered(calls, attempts, n - 1);
      } else {
        var before := calls[..|calls| - 1];
        AllConsidered(before, attempts, n - 1);
        assert forall k | 0 <= k < |before| :: calls[k] == before[k];
      }
    }
  }

  /** No login is sent that is not on the list. */
  lemma {:induction false} OnlyListed(calls: seq<Call>, attempts: seq<Attempt>, n: nat)
    requires n <= |attempts| && Follows(calls, attempts, n)
    ensures forall k | 0 <= k < |calls| :: calls[k].Collect? && calls[k].key in Keys(attempts)
    decreases n
  {
    if n > 0 {
      if IsSsh(attempts[n - 1].driver) && Walled(calls) && Follows(calls, attempts, n - 1) {
        OnlyListed(calls, attempts, n - 1);
      } else {
        var before := calls[..|calls| - 1];
        OnlyListed(before, attempts, n - 1);
        assert forall k | 0 <= k < |before| :: calls[k] == before[k];
      }
    }
  }

  /** The calls went down the list, and the last of them was this attempt. */
  ghost predicate Won(calls: seq<Call>, attempts: seq<Attempt>, cap: int, how: Attempt) {
    exists n: nat | 0 < n <= Limit(attempts, cap) :: how == attempts[n - 1] && Follows(calls, attempts, n)
  }

  datatype Polled = Polled(neighbors: seq<Neighbor>, how: Attempt)

  /** Where working combinations are remembered; neither reading nor writing may be possible. */
  class ComboCache {
    var working: map<Host, Combo>

    /** lldp.py:453-463. */
    method Recall(host: Host) returns (r: Option<Combo>)
      ensures r.Some? ==> host in working && r.value == working[host]
    {
      var ok: bool := *;
      r := if ok && host in working then Some(working[host]) else None;
    }

    /** lldp.py:465-474. */
    method Remember(host: Host, a: Attempt)
      modifies this
      ensures working == old(working) || working == old(working)[host := ComboOf(a)]
    {
      var ok: bool := *;
      if ok {
        working := working[host := ComboOf(a)];
      }
    }
  }

  function ComboOf(a: Attempt): Combo {
    Combo(a.driver, if a.cred.Some? then a.cred.value.name else "")
  }

  /** lldp.py:311-381. */
  method PollTarget(fabric: Fabric, cache: ComboCache, host: Host, attempts: seq<Attempt>, cap: int)
    returns (r: Option<Polled>, ghost made: seq<Call>)
    requires Distinct(attempts)
    modifies fabric, cache
    ensures fabric.calls == old(fabric.calls) + made
    ensures Sparing(made, host, cap)
    ensures r.Some? ==>
              && Won(made, attempts, cap, r.value.how) && made != []
              && made[|made| - 1] == Collect(host, KeyOf(r.value.how), Neighbors(r.value.neighbors))
    ensures r.None? ==>
              && (forall k | 0 <= k < |made| :: !Succeeds(made[k]))
              && Follows(made, attempts, Limit(attempts, cap))
    ensures cache.working == old(cache.working)
            || (r.Some? && cache.working == old(cache.working)[host := ComboOf(r.value.how)])
  {
    hide Sparing, Follows, Walled, Won;
    var sshUnreachable := false;
    made := [];
    NoCalls(attempts, host, cap);
    for k := 0 to |attempts|
      invariant fabric.calls == old(fabric.calls) + made && cache.working == old(cache.working)
      invariant |made| <= k && Sparing(made, host, cap)
      invariant forall i | 0 <= i < |made| :: !Succeeds(made[i])
      invariant sshUnreachable <==> Walled(made)
      invariant forall i, j | 0 <= i < |made| && k <= j < |attempts| ::
                  made[i].Collect? && made[i].key != KeyOf(attempts[j])
      invariant k <= Limit(attempts, cap) && Follows(made, attempts, k)
    {
      if k >= cap {
        break;
      }
      if sshUnreachable && IsSsh(attempts[k].driver) {
        FollowsSkip(made, attempts, k);
        continue;
      }
      var answer := fabric.CollectNeighbors(host, attempts[k]);
      ghost var c := Collect(host, KeyOf(attempts[k]), answer);
      OneMore(made, c, host, cap);
      FollowsCall(made, c, attempts, k);
      made := made + [c];
      if answer.Neighbors? {
        WonAt(made, attempts, cap, k + 1);
        cache.Remember(host, attempts[k]);
        return Some(Polled(answer.neighbors, attempts[k])), made;
      }
      if IsSsh(attempts[k].driver) && answer.TransportError? {
        sshUnreachable := true;
      }
    }
    r := None;
  }

  lemma NoCalls(attempts: seq<Attempt>, host: Host, cap: int)
    ensures Sparing([], host, cap) && Follows([], attempts, 0) && !Walled([])
  {
  }

  lemma FollowsSkip(calls: seq<Call>, attempts: seq<Attempt>, k: nat)
    requires k < |attempts| && Follows(calls, attempts, k) && IsSsh(attempts[k].driver) && Walled(calls)
    ensures Follows(calls, attempts, k + 1)
  {
  }

  lemma FollowsCall(calls: seq<Call>, c: Call, attempts: seq<Attempt>, k: nat)
    requires k < |attempts| && Follows(calls, attempts, k) && c.Collect? && c.key == KeyOf(attempts[k])
    requires !(IsSsh(attempts[k].driver) && Walled(calls))
    ensures Follows(calls + [c], attempts, k + 1)
  {
    assert (calls + [c])[..|calls|] == calls;
    hide Walled;
  }

  lemma WonAt(calls: seq<Call>, attempts: seq<Attempt>, cap: int, n: nat)
    requires 0 < n <= Limit(attempts, cap) && Follows(calls, attempts, n)
    ensures Won(calls, attempts, cap, attempts[n - 1])
  {
    hide Follows;
  }
}
