/**
 Export and import of a whole configuration (config_transfer.py:242-400).

 The cipher, the key derivation and their text encodings are a parameter; what the
 program needs of them is stated by `Correct` and, for tampering, by `Ideal`.
 */
module ConfigTransfer {
  import opened Prelude
  import opened ConfigTree
  import opened Redaction
  import opened RedactionLaws
  import opened SecretPlaces
  import opened Migration

  type SealKey = int

  datatype Kdf = Kdf(n: int, r: int, p: int, length: int)

  /** Associated data is the header tree itself: its canonical text is a function of it and back. */
  datatype Crypto = Crypto(
    derive: (string, string, Kdf) -> SealKey,
    seal: (SealKey, string, Json, Json) -> string,
    open: (SealKey, string, string, Json) -> Option<Json>)

  ghost predicate Correct(c: Crypto) {
    forall k, nonce, m, ad :: c.open(k, nonce, c.seal(k, nonce, m, ad), ad) == Some(m)
  }

  lemma SealOpens(c: Crypto, k: SealKey, nonce: string, m: Json, ad: Json)
    requires Correct(c)
    ensures c.open(k, nonce, c.seal(k, nonce, m, ad), ad) == Some(m)
  {
  }

  /** Only what was sealed opens, and a ciphertext determines everything it was sealed with. */
  ghost predicate Ideal(c: Crypto) {
    && (forall k, nonce, t, ad :: c.open(k, nonce, t, ad).Some? ==>
          t == c.seal(k, nonce, c.open(k, nonce, t, ad).value, ad))
    && (forall k, nonce, m, ad, k', nonce', m', ad' ::
          c.seal(k, nonce, m, ad) == c.seal(k', nonce', m', ad') ==>
          k == k' && nonce == nonce' && m == m' && ad == ad')
  }

  datatype TransferError =
    | ShortPassphrase
    | UnsupportedFormat
    | PassphraseRequired
    | BadPassphrase
    | NewerSchema
    | Migrating(error: ConfigError)
    | Malformed

  datatype Transfer<+T> = Done(value: T) | Refused(error: TransferError)

  const FORMAT: Json := Str("netbox-monitor-config")
  const FORMAT_VERSION: int := 1
  const MIN_PASSPHRASE: nat := 12
  const MAX_N: int := 0x100000
  const MAX_R: int := 32
  const MAX_P: int := 16
  const KEY_LEN: int := 32
  const EXPORT_KDF: Kdf := Kdf(0x8000, 8, 1, KEY_LEN)

  // --------------------------------------------------------------- export

  function Payload(config: Dict): Dict {
    (config - {"webui"})["schema_version" := Num(CURRENT)]
  }

  function Header(appVersion: string, createdAt: string, encrypted: bool): Dict {
    map["format" := FORMAT, "format_version" := Num(FORMAT_VERSION), "app_version" := Str(appVersion),
        "config_schema" := Num(CURRENT), "encrypted" := Bool(encrypted), "created_at" := Str(createdAt)]
  }

  function KdfTree(kdf: Kdf, salt: string): Json {
    Obj(map["name" := Str("scrypt"), "n" := Num(kdf.n), "r" := Num(kdf.r), "p" := Num(kdf.p),
            "length" := Num(kdf.length), "salt" := Str(salt)])
  }

  function CipherTree(nonce: string): Json {
    Obj(map["name" := Str("aes-256-gcm"), "nonce" := Str(nonce)])
  }

  function SealedHeader(header: Dict, salt: string, nonce: string): Dict {
    header["kdf" := KdfTree(EXPORT_KDF, salt)]["cipher" := CipherTree(nonce)]
  }

  /** config_transfer.py:242-246: everything but the ciphertext. */
  function CanonicalHeader(envelope: Dict): Json {
    Obj(envelope - {"ciphertext"})
  }

  /** config_transfer.py:278-322; salt and nonce are the fresh random values of the call. */
  function Export(config: Dict, passphrase: Option<string>, appVersion: string, createdAt: string,
                  salt: string, nonce: string, c: Crypto): Transfer<Dict>
  {
    if passphrase.Some? && |passphrase.value| < MIN_PASSPHRASE then Refused(ShortPassphrase)
    else
      var payload, header := Obj(Payload(config)), Header(appVersion, createdAt, passphrase.Some?);
      match passphrase
      case None => Done(header["config" := RedactAll(payload, SECRET_PATHS)])
      case Some(secret) =>
        var envelope := SealedHeader(header, salt, nonce);
        var text := c.seal(c.derive(secret, salt, EXPORT_KDF), nonce, payload, CanonicalHeader(envelope));
        Done(envelope["ciphertext" := Str(text)])
  }

  // --------------------------------------------------------------- import

  predicate PowerOfTwo(n: int) {
    n > 0 && (n == 1 || (n % 2 == 0 && PowerOfTwo(n / 2)))
  }

  /** config_transfer.py:253-266: the cost is bounded before any key is derived. */
  function CheckKdf(tree: Json, text: Text): Transfer<(Kdf, string)> {
    if Get(tree, "name") != Str("scrypt") then Refused(UnsupportedFormat)
    else
      match (AsInt(Get(tree, "n"), text), AsInt(Get(tree, "r"), text),
             AsInt(Get(tree, "p"), text), AsInt(Get(tree, "length"), text))
      case (Some(n), Some(r), Some(p), Some(length)) =>
        if !(0 < n <= MAX_N) || !PowerOfTwo(n) || !(0 < r <= MAX_R) || !(0 < p <= MAX_P) || length != KEY_LEN
           || !Get(tree, "salt").Str?
        then Refused(UnsupportedFormat)
        else Done((Kdf(n, r, p, length), Get(tree, "salt").s))
      case _ => Refused(UnsupportedFormat)
  }

  function Decrypt(envelope: Dict, passphrase: Option<string>, text: Text, c: Crypto): Transfer<Json> {
    if passphrase.None? || passphrase.value == "" then Refused(PassphraseRequired)
    else
      match CheckKdf(Lookup(envelope, "kdf", Null), text)
      case Refused(e) => Refused(e)
      case Done(kdf) =>
        var cipher := Lookup(envelope, "cipher", Null);
        if Get(cipher, "name") != Str("aes-256-gcm") || !Get(cipher, "nonce").Str?
           || !Lookup(envelope, "ciphertext", Null).Str?
        then Refused(UnsupportedFormat)
        else
          match c.open(c.derive(passphrase.value, kdf.1, kdf.0), Get(cipher, "nonce").s,
                       envelope["ciphertext"].s, CanonicalHeader(envelope))
          case None => Refused(BadPassphrase)
          case Some(raw) => if raw.Obj? then Done(raw) else Refused(Malformed)
  }

  datatype Imported = Imported(config: Dict, unresolved: set<Loc>)

  /** config_transfer.py:377-391: migrate first, then merge, then keep the target's own login. */
  function Adopt(raw: Dict, sourceSchema: int, current: Dict, text: Text): Transfer<Imported>
    requires "webui" in current
  {
    match AsInt(Lookup(raw, "schema_version", Num(sourceSchema)), text)
    case None => Refused(Malformed)
    case Some(payloadSchema) =>
      if payloadSchema != sourceSchema then Refused(UnsupportedFormat)
      else
        match Migrated(raw, CURRENT, MIGRATIONS(text), text)
        case Rejected(e) => Refused(Migrating(e))
        case Accepted(d) =>
          MergedIsDict(d, Obj(current), SECRET_PATHS);
          var merged := MergeAll(Obj(d), Obj(current), SECRET_PATHS).fields;
          Done(Imported(merged["webui" := current["webui"]], UnresolvedAll(Obj(d), Obj(current), SECRET_PATHS)))
  }

  lemma {:induction false} MergedIsDict(d: Dict, cur: Json, paths: seq<Path>)
    ensures MergeAll(Obj(d), cur, paths).Obj?
    decreases |paths|
  {
    if paths != [] {
      MergedIsDict(MergePath(Obj(d), cur, paths[0], []).fields, cur, paths[1..]);
    }
  }

  /** config_transfer.py:325-391. */
  function Import(envelope: Dict, passphrase: Option<string>, current: Dict, text: Text, c: Crypto): Transfer<Imported>
    requires "webui" in current
  {
    if Lookup(envelope, "format", Null) != FORMAT then Refused(UnsupportedFormat)
    else
      match (AsInt(Lookup(envelope, "format_version", Num(0)), text),
             AsInt(Lookup(envelope, "config_schema", Num(CURRENT)), text))
      case (Some(version), Some(schema)) =>
        if version > FORMAT_VERSION then Refused(UnsupportedFormat)
        else if schema > CURRENT then Refused(NewerSchema)
        else
          var raw := if Truthy(Lookup(envelope, "encrypted", Null)) then Decrypt(envelope, passphrase, text, c)
                     else if Lookup(envelope, "config", Null).Obj? then Done(envelope["config"])
                     else Refused(UnsupportedFormat);
          (match raw
           case Refused(e) => Refused(e)
           case Done(tree) => if tree.Obj? then Adopt(tree.fields, schema, current, text) else Refused(Malformed))
      case _ => Refused(Malformed)
  }

  // ----------------------------------------------------------------- laws

  /** The secrets of a configuration, and which of them read like the sentinel. */
  ghost predicate NoSentinel(config: Dict) {
    forall loc | Secret(SECRET_PATHS, loc) :: At(Obj(config), loc) != Some(REDACTED)
  }

  /** A payload of the current schema is adopted as it is, up to the merge. */
  lemma AdoptCurrent(payload: Dict, current: Dict, text: Text)
    requires "webui" in current
    requires Lookup(payload, "schema_version", Null) == Num(CURRENT)
    ensures MergeAll(Obj(payload), Obj(current), SECRET_PATHS).Obj?
    ensures Adopt(payload, CURRENT, current, text) ==
            Done(Imported(MergeAll(Obj(payload), Obj(current), SECRET_PATHS).fields["webui" := current["webui"]],
                          UnresolvedAll(Obj(payload), Obj(current), SECRET_PATHS)))
  {
    hide SECRET_PATHS, MergeAll, UnresolvedAll, RedactAll;
    assert payload["schema_version" := Num(CURRENT)] == payload;
    MergedIsDict(payload, Obj(current), SECRET_PATHS);
  }

  /** What is exported is the configuration without the web login, stamped with the current schema. */
  lemma PayloadIs(config: Dict)
    ensures "webui" !in Payload(config) && Lookup(Payload(config), "schema_version", Null) == Num(2)
    ensures forall k | k != "webui" && k != "schema_version" ::
              (k in Payload(config) <==> k in config) && Lookup(Payload(config), k, Null) == Lookup(config, k, Null)
  {
  }

  /** An envelope decrypts to what its ciphertext opens to, under the derived key, the nonce and all the rest. */
  lemma DecryptOpens(envelope: Dict, passphrase: Option<string>, text: Text, c: Crypto)
    requires Decrypt(envelope, passphrase, text, c).Done?
    ensures passphrase.Some? && passphrase.value != "" && CheckKdf(Lookup(envelope, "kdf", Null), text).Done?
    ensures var (kdf, salt) := CheckKdf(Lookup(envelope, "kdf", Null), text).value;
            var cipher := Lookup(envelope, "cipher", Null);
            && Get(cipher, "name") == Str("aes-256-gcm") && Get(cipher, "nonce").Str?
            && "ciphertext" in envelope && envelope["ciphertext"].Str?
            && c.open(c.derive(passphrase.value, salt, kdf), Get(cipher, "nonce").s, envelope["ciphertext"].s,
                      Obj(envelope - {"ciphertext"}))
               == Some(Decrypt(envelope, passphrase, text, c).value)
  {
    hide CheckKdf;
  }

  /** What is refused, and why, before anything is adopted. */
  lemma ImportRefuses(envelope: Dict, passphrase: Option<string>, current: Dict, text: Text, c: Crypto)
    requires "webui" in current
    ensures var r := Import(envelope, passphrase, current, text, c);
            && (Lookup(envelope, "format", Null) != Str("netbox-monitor-config") ==> r == Refused(UnsupportedFormat))
            && (r.Done? ==>
                  && "format" in envelope && envelope["format"] == Str("netbox-monitor-config")
                  && (exists v :: AsInt(Lookup(envelope, "format_version", Num(0)), text) == Some(v) && v <= 1)
                  && (exists v :: AsInt(Lookup(envelope, "config_schema", Num(2)), text) == Some(v) && v <= 2)
                  && (Populated(Lookup(envelope, "encrypted", Null)) ==> passphrase.Some? && passphrase.value != ""))
  {
    hide Adopt, CheckKdf;
    PopulatedIs(Lookup(envelope, "encrypted", Null));
    hide Populated, Truthy;
  }

  /** A short passphrase seals nothing. */
  lemma ShortPassphraseRefused(config: Dict, secret: string, appVersion: string, createdAt: string, salt: string,
                               nonce: string, c: Crypto)
    ensures Export(config, Some(secret), appVersion, createdAt, salt, nonce, c).Refused? <==> |secret| < 12
  {
    hide Header, SealedHeader, CanonicalHeader, Payload;
  }

  /** A payload of schema 1 is migrated first; then it is merged like any other. */
  lemma AdoptLegacy(raw: Dict, current: Dict, text: Text)
    requires "webui" in current && Lookup(raw, "schema_version", Null) in {Null, Num(1)} && "sites" !in raw
    requires "schema_version" in raw ==> raw["schema_version"] == Num(1)
    ensures match (MigrateLegacy(raw, text), Adopt(raw, 1, current, text))
            case (Rejected(e), r) => r == Refused(Migrating(e))
            case (Accepted(d), r) =>
              && r.Done? && "webui" in r.value.config && r.value.config["webui"] == current["webui"]
              && exists out: Dict :: && r.value.config == out["webui" := current["webui"]]
                                     && SecretsFilled(Obj(d["schema_version" := Num(2)]), Obj(current), Obj(out),
                                                      r.value.unresolved)
  {
    hide SECRET_PATHS, MergeAll, UnresolvedAll, SecretsFilled, MigrateLegacy;
    MigrationDecided(raw, text);
    if MigrateLegacy(raw, text).Accepted? {
      var d := MigrateLegacy(raw, text).value["schema_version" := Num(2)];
      MergeFills(Obj(d), Obj(current));
      MergedIsDict(d, Obj(current), SECRET_PATHS);
      var out := MergeAll(Obj(d), Obj(current), SECRET_PATHS).fields;
      assert Adopt(raw, 1, current, text).value.config == out["webui" := current["webui"]];
    }
  }

  /** The schema an envelope names must be that of its payload. */
  lemma SchemasMatch(raw: Dict, sourceSchema: int, current: Dict, text: Text)
    requires "webui" in current && "schema_version" in raw && AsInt(raw["schema_version"], text) != Some(sourceSchema)
    ensures Adopt(raw, sourceSchema, current, text).Refused?
  {
    hide SECRET_PATHS, MergeAll, UnresolvedAll;
  }

  lemma HeaderFields(appVersion: string, createdAt: string, encrypted: bool)
    ensures var h := Header(appVersion, createdAt, encrypted);
            && Lookup(h, "format", Null) == FORMAT && Lookup(h, "format_version", Null) == Num(FORMAT_VERSION)
            && Lookup(h, "config_schema", Null) == Num(CURRENT) && Lookup(h, "encrypted", Null) == Bool(encrypted)
            && "ciphertext" !in h
  {
  }

  lemma ExportKdfAccepted(salt: string, text: Text)
    ensures CheckKdf(KdfTree(EXPORT_KDF, salt), text) == Done((EXPORT_KDF, salt))
  {
    hide PowerOfTwo, Pow2;
    PowerOfTwoDoubles(15);
  }

  lemma Doubled(e: nat)
    ensures Pow2(0) == 1 && Pow2(e + 1) == 2 * Pow2(e)
  {
  }

  lemma {:induction false} PowerOfTwoIs(n: int)
    ensures PowerOfTwo(n) <==> exists e: nat :: n == Pow2(e)
    decreases n
  {
    hide Pow2;
    Doubled(0);
    if n > 1 && n % 2 == 0 {
      PowerOfTwoIs(n / 2);
      if e: nat :| n / 2 == Pow2(e) {
        Doubled(e);
        assert n == Pow2(e + 1);
      }
    }
    if e: nat :| n == Pow2(e) {
      if e > 0 {
        Doubled(e - 1);
        assert n / 2 == Pow2(e - 1) && n > 1 && n % 2 == 0;
      }
    }
  }

  /** The parameters of an envelope are accepted exactly within these bounds, and taken as they are. */
  lemma KdfBounds(tree: Json, text: Text)
    ensures CheckKdf(tree, text).Done? <==>
            && Get(tree, "name") == Str("scrypt") && Get(tree, "salt").Str?
            && AsInt(Get(tree, "length"), text) == Some(32)
            && (exists n, r, p | AsInt(Get(tree, "n"), text) == Some(n) && AsInt(Get(tree, "r"), text) == Some(r)
                                 && AsInt(Get(tree, "p"), text) == Some(p) ::
                  1 <= n <= 1048576 && (exists e: nat :: n == Pow2(e)) && 1 <= r <= 32 && 1 <= p <= 16)
    ensures CheckKdf(tree, text).Done? ==>
              var (kdf, salt) := CheckKdf(tree, text).value;
              && AsInt(Get(tree, "n"), text) == Some(kdf.n) && AsInt(Get(tree, "r"), text) == Some(kdf.r)
              && AsInt(Get(tree, "p"), text) == Some(kdf.p) && kdf.length == 32 && Get(tree, "salt") == Str(salt)
  {
    hide PowerOfTwo, Pow2;
    if AsInt(Get(tree, "n"), text).Some? {
      PowerOfTwoIs(AsInt(Get(tree, "n"), text).value);
    }
  }

  lemma CipherFields(nonce: string)
    ensures Get(CipherTree(nonce), "name") == Str("aes-256-gcm") && Get(CipherTree(nonce), "nonce") == Str(nonce)
  {
  }

  /** What an encrypted export holds; its canonical header is the one that was sealed. */
  lemma SealedFields(header: Dict, salt: string, nonce: string, ciphertext: Json)
    requires "ciphertext" !in header
    ensures var e := SealedHeader(header, salt, nonce)["ciphertext" := ciphertext];
            && CanonicalHeader(e) == CanonicalHeader(SealedHeader(header, salt, nonce))
            && Lookup(e, "kdf", Null) == KdfTree(EXPORT_KDF, salt) && Lookup(e, "cipher", Null) == CipherTree(nonce)
            && Lookup(e, "ciphertext", Null) == ciphertext
            && (forall k | k !in {"kdf", "cipher", "ciphertext"} :: Lookup(e, k, Null) == Lookup(header, k, Null))
            && (forall k | k !in {"kdf", "cipher", "ciphertext"} :: k in e <==> k in header)
  {
    var e := SealedHeader(header, salt, nonce)["ciphertext" := ciphertext];
    assert e - {"ciphertext"} == SealedHeader(header, salt, nonce) - {"ciphertext"};
  }

  /** An encrypted export opens exactly under the key and header it was sealed with. */
  lemma ExportDecrypts(config: Dict, secret: string, appVersion: string, createdAt: string, salt: string, nonce: string,
                       other: string, text: Text, c: Crypto)
    requires |secret| >= MIN_PASSPHRASE && other != ""
    ensures var header := Header(appVersion, createdAt, true);
            var exported := Export(config, Some(secret), appVersion, createdAt, salt, nonce, c);
            var sealed := CanonicalHeader(SealedHeader(header, salt, nonce));
            var ciphertext := c.seal(c.derive(secret, salt, EXPORT_KDF), nonce, Obj(Payload(config)), sealed);
            && exported == Done(SealedHeader(header, salt, nonce)["ciphertext" := Str(ciphertext)])
            && Decrypt(exported.value, Some(other), text, c) ==
               match c.open(c.derive(other, salt, EXPORT_KDF), nonce, ciphertext, sealed)
               case None => Refused(BadPassphrase)
               case Some(raw) => if raw.Obj? then Done(raw) else Refused(Malformed)
  {
    hide Header, KdfTree, CipherTree, CheckKdf, SealedHeader, CanonicalHeader;
    var header := Header(appVersion, createdAt, true);
    HeaderFields(appVersion, createdAt, true);
    var sealed := CanonicalHeader(SealedHeader(header, salt, nonce));
    SealedFields(header, salt, nonce,
                 Str(c.seal(c.derive(secret, salt, EXPORT_KDF), nonce, Obj(Payload(config)), sealed)));
    ExportKdfAccepted(salt, text);
    CipherFields(nonce);
  }

  /** An envelope with this build's header is imported through its decrypted payload. */
  lemma EnvelopeAdopted(envelope: Dict, passphrase: Option<string>, current: Dict, text: Text, c: Crypto)
    requires "webui" in current
    requires Lookup(envelope, "format", Null) == FORMAT
              && Lookup(envelope, "format_version", Null) == Num(FORMAT_VERSION)
    requires Lookup(envelope, "config_schema", Null) == Num(CURRENT)
    requires Lookup(envelope, "encrypted", Null) == Bool(true)
    ensures Import(envelope, passphrase, current, text, c) ==
            match Decrypt(envelope, passphrase, text, c)
            case Refused(e) => Refused(e)
            case Done(raw) => if raw.Obj? then Adopt(raw.fields, CURRENT, current, text) else Refused(Malformed)
  {
    hide Adopt, Decrypt;
  }

  /** Under the right passphrase an encrypted export is imported as the payload it was made from. */
  lemma SealedImport(config: Dict, secret: string, appVersion: string, createdAt: string,
                     salt: string, nonce: string, current: Dict, text: Text, c: Crypto)
    requires Correct(c) && |secret| >= MIN_PASSPHRASE && "webui" in current
    ensures var exported := Export(config, Some(secret), appVersion, createdAt, salt, nonce, c);
            exported.Done? &&
            Import(exported.value, Some(secret), current, text, c) == Adopt(Payload(config), CURRENT, current, text)
  {
    hide Header, SealedHeader, CanonicalHeader, Decrypt, Export, Import, Adopt, Payload;
    ExportDecrypts(config, secret, appVersion, createdAt, salt, nonce, secret, text, c);
    HeaderFields(appVersion, createdAt, true);
    var header := Header(appVersion, createdAt, true);
    var sealed := CanonicalHeader(SealedHeader(header, salt, nonce));
    var ciphertext := c.seal(c.derive(secret, salt, EXPORT_KDF), nonce, Obj(Payload(config)), sealed);
    SealedFields(header, salt, nonce, Str(ciphertext));
    EnvelopeAdopted(SealedHeader(header, salt, nonce)["ciphertext" := Str(ciphertext)], Some(secret), current, text, c);
    SealOpens(c, c.derive(secret, salt, EXPORT_KDF), nonce, Obj(Payload(config)), sealed);
  }

  lemma PowerOfTwoDoubles(e: nat)
    ensures PowerOfTwo(Pow2(e))
    ensures e == 15 ==> Pow2(e) == 0x8000
  {
    PowerOfTwoIs(Pow2(e));
    hide PowerOfTwo, Pow2;
    Pow2OfFive(0);
    Pow2OfFive(5);
    Pow2OfFive(10);
    Doubled(0);
  }

  lemma Pow2OfFive(e: nat)
    ensures Pow2(e + 5) == 32 * Pow2(e)
  {
    hide Pow2;
    Doubled(e);
    Doubled(e + 1);
    Doubled(e + 2);
    Doubled(e + 3);
    Doubled(e + 4);
  }

  /** Without a sentinel among its secrets a tree merges to itself. */
  lemma MergeNothing(t: Json, cur: Json, paths: seq<Path>)
    requires Good(paths)
    requires forall loc | Secret(paths, loc) :: At(t, loc) != Some(REDACTED)
    ensures MergeAll(t, cur, paths) == t && UnresolvedAll(t, cur, paths) == {}
  {
    var m := MergeAll(t, cur, paths);
    forall loc | Above(paths, loc) ensures ShapeAt(m, loc) == ShapeAt(t, loc) {
      MergeAllAbove(t, cur, paths, loc);
    }
    forall p, loc | p in paths && Names(p, loc)
      ensures At(m, loc) == At(t, loc) && loc !in UnresolvedAll(t, cur, paths)
    {
      assert Secret(paths, loc);
      MergeAllLeaf(t, cur, paths, p, loc);
      UnresolvedAllAt(t, cur, paths, p, loc);
    }
    SameTree(m, t, paths);
    forall loc ensures loc !in UnresolvedAll(t, cur, paths) {
      UnresolvedAllNamed(t, cur, paths, loc);
    }
  }

  const SECRET_TOP: set<string> := {"netbox", "sites", "lldp"}

  lemma SecretHeads(p: Path)
    requires p in SECRET_PATHS
    ensures p != [] && p[0] in SECRET_TOP
  {
  }

  /** The secrets lie under netbox, sites and lldp only. */
  lemma SecretTop(loc: Loc)
    requires Secret(SECRET_PATHS, loc)
    ensures loc != [] && loc[0].Key? && loc[0].name in SECRET_TOP
  {
    hide SECRET_PATHS;
    var p :| p in SECRET_PATHS && Names(p, loc);
    SecretHeads(p);
  }

  lemma AtTop(a: Dict, b: Dict, loc: Loc)
    requires loc != []
    requires Child(Obj(a), loc[0]) == Child(Obj(b), loc[0])
    ensures At(Obj(a), loc) == At(Obj(b), loc)
  {
  }

  lemma PayloadKeepsSecrets(config: Dict)
    requires NoSentinel(config)
    ensures NoSentinel(Payload(config))
  {
    hide SECRET_PATHS;
    forall loc | Secret(SECRET_PATHS, loc) ensures At(Obj(Payload(config)), loc) != Some(REDACTED) {
      SecretTop(loc);
      AtTop(Payload(config), config, loc);
    }
  }

  /**
   Importing an encrypted export gives the exported configuration; only the webui
   section is the target's, and nothing is left unresolved.
   */
  lemma EncryptedRoundTrip(config: Dict, secret: string, appVersion: string, createdAt: string,
                           salt: string, nonce: string, current: Dict, text: Text, c: Crypto)
    requires Correct(c) && |secret| >= MIN_PASSPHRASE && "webui" in current
    requires Lookup(config, "schema_version", Null) == Num(CURRENT) && NoSentinel(config)
    ensures var exported := Export(config, Some(secret), appVersion, createdAt, salt, nonce, c);
            exported.Done? &&
            Import(exported.value, Some(secret), current, text, c) ==
            Done(Imported(config["webui" := current["webui"]], {}))
  {
    hide SECRET_PATHS, MergeAll, UnresolvedAll, Export, Import, Adopt;
    SealedImport(config, secret, appVersion, createdAt, salt, nonce, current, text, c);
    var payload := Payload(config);
    PayloadKeepsSecrets(config);
    SecretPathsAreGood();
    MergeNothing(Obj(payload), Obj(current), SECRET_PATHS);
    AdoptCurrent(payload, current, text);
    assert payload["webui" := current["webui"]] == config["webui" := current["webui"]];
  }

  /** Whatever else an envelope says, it opens only if its header is the one that was sealed. */
  lemma OpensOnlySealed(envelope: Dict, passphrase: Option<string>, text: Text, c: Crypto,
                        key: SealKey, nonce: string, payload: Json, header: Json)
    requires Ideal(c)
    requires Lookup(envelope, "ciphertext", Null) == Str(c.seal(key, nonce, payload, header))
    requires Decrypt(envelope, passphrase, text, c).Done?
    ensures CanonicalHeader(envelope) == header && Decrypt(envelope, passphrase, text, c) == Done(payload)
  {
    var kdf := CheckKdf(Lookup(envelope, "kdf", Null), text).value;
    var k, n := c.derive(passphrase.value, kdf.1, kdf.0), Get(Lookup(envelope, "cipher", Null), "nonce").s;
    var t, ad := envelope["ciphertext"].s, CanonicalHeader(envelope);
    var raw := c.open(k, n, t, ad).value;
    assert c.seal(k, n, raw, ad) == t == c.seal(key, nonce, payload, header);
  }

  lemma CanonicalIs()
    ensures forall d: Dict, e: Dict ::
              CanonicalHeader(d) == CanonicalHeader(e) <==> d - {"ciphertext"} == e - {"ciphertext"}
  {
  }

  /**
   Moving a ciphertext under any other header (app version, schema, key derivation
   parameters, nonce) makes the import fail, under every passphrase.
   */
  lemma TamperingRefused(config: Dict, secret: string, appVersion: string, createdAt: string, salt: string,
                         nonce: string,
                         envelope: Dict, passphrase: Option<string>, current: Dict, text: Text, c: Crypto)
    requires Ideal(c) && |secret| >= MIN_PASSPHRASE && "webui" in current
    requires var exported := Export(config, Some(secret), appVersion, createdAt, salt, nonce, c).value;
             && Lookup(envelope, "ciphertext", Null) == Lookup(exported, "ciphertext", Null)
             && envelope - {"ciphertext"} != exported - {"ciphertext"}
    requires Truthy(Lookup(envelope, "encrypted", Null))
    ensures Import(envelope, passphrase, current, text, c).Refused?
  {
    CanonicalIs();
    hide Header, SealedHeader, CanonicalHeader, Decrypt, Payload, Adopt;
    ExportDecrypts(config, secret, appVersion, createdAt, salt, nonce, secret, text, c);
    HeaderFields(appVersion, createdAt, true);
    var header := Header(appVersion, createdAt, true);
    var sealed := CanonicalHeader(SealedHeader(header, salt, nonce));
    var key, payload := c.derive(secret, salt, EXPORT_KDF), Obj(Payload(config));
    SealedFields(header, salt, nonce, Str(c.seal(key, nonce, payload, sealed)));
    if Decrypt(envelope, passphrase, text, c).Done? {
      OpensOnlySealed(envelope, passphrase, text, c, key, nonce, payload, sealed);
    }
  }

  /** A passphrase that derives another key is refused, like a damaged file. */
  lemma WrongPassphraseRefused(config: Dict, secret: string, appVersion: string, createdAt: string, salt: string,
                               nonce: string, wrong: string, current: Dict, text: Text, c: Crypto)
    requires Ideal(c) && |secret| >= MIN_PASSPHRASE && wrong != "" && "webui" in current
    requires c.derive(wrong, salt, EXPORT_KDF) != c.derive(secret, salt, EXPORT_KDF)
    ensures var exported := Export(config, Some(secret), appVersion, createdAt, salt, nonce, c).value;
            Import(exported, Some(wrong), current, text, c) == Refused(BadPassphrase)
  {
    hide Header, SealedHeader, CanonicalHeader, Decrypt, Payload, Adopt, Export, Import;
    ExportDecrypts(config, secret, appVersion, createdAt, salt, nonce, wrong, text, c);
    HeaderFields(appVersion, createdAt, true);
    var header := Header(appVersion, createdAt, true);
    var sealed := CanonicalHeader(SealedHeader(header, salt, nonce));
    var k, k' := c.derive(secret, salt, EXPORT_KDF), c.derive(wrong, salt, EXPORT_KDF);
    var payload := Obj(Payload(config));
    var t := c.seal(k, nonce, payload, sealed);
    SealedFields(header, salt, nonce, Str(t));
    EnvelopeAdopted(SealedHeader(header, salt, nonce)["ciphertext" := Str(t)], Some(wrong), current, text, c);
    assert forall m :: c.seal(k', nonce, m, sealed) != t;
  }

  lemma RedactedIsDict(d: Dict, paths: seq<Path>)
    ensures RedactAll(Obj(d), paths).Obj?
    decreases |paths|
  {
    if paths != [] {
      RedactedIsDict(RedactPath(Obj(d), paths[0]).fields, paths[1..]);
    }
  }

  /** A redacted export holds no populated secret and no web login, and everything else as it was. */
  lemma RedactedExport(config: Dict, appVersion: string, createdAt: string, c: Crypto)
    ensures var exported := Export(config, None, appVersion, createdAt, "", "", c);
            && exported.Done? && "config" in exported.value && exported.value["config"].Obj?
            && "webui" !in exported.value["config"].fields
            && exists payload: Dict :: && SecretsHidden(Obj(payload), exported.value["config"])
                 && payload == (config - {"webui"})["schema_version" := Num(2)]
  {
    hide SECRET_PATHS, RedactAll, SecretsHidden;
    var payload := Payload(config);
    RedactionHides(Obj(payload));
    RedactedIsDict(payload, SECRET_PATHS);
    TopKeys(payload);
  }

  lemma TopKeys(d: Dict)
    ensures RedactAll(Obj(d), SECRET_PATHS).Obj? && RedactAll(Obj(d), SECRET_PATHS).fields.Keys == d.Keys
  {
    hide SECRET_PATHS, RedactAll, SecretPlace;
    SecretPathsAreGood();
    RedactionHides(Obj(d));
    RootIsPlain();
    assert ShapeAt(RedactAll(Obj(d), SECRET_PATHS), []) == ShapeAt(Obj(d), []);
  }

  lemma RootIsPlain()
    ensures Plain([])
  {
  }

  /** A redacted export is merged as a payload of the current schema, at any target. */
  lemma RedactedImport(config: Dict, appVersion: string, createdAt: string, passphrase: Option<string>,
                       current: Dict, text: Text, c: Crypto)
    requires "webui" in current
    ensures RedactAll(Obj(Payload(config)), SECRET_PATHS).Obj?
    ensures var redacted := RedactAll(Obj(Payload(config)), SECRET_PATHS);
            var exported := Export(config, None, appVersion, createdAt, "", "", c);
            && exported.Done?
            && MergeAll(redacted, Obj(current), SECRET_PATHS).Obj?
            && Import(exported.value, passphrase, current, text, c) ==
               Done(Imported(MergeAll(redacted, Obj(current), SECRET_PATHS).fields["webui" := current["webui"]],
                             UnresolvedAll(redacted, Obj(current), SECRET_PATHS)))
  {
    hide SECRET_PATHS, MergeAll, UnresolvedAll, RedactAll;
    var payload := Payload(config);
    RedactedIsDict(payload, SECRET_PATHS);
    var redacted := RedactAll(Obj(payload), SECRET_PATHS).fields;
    TopKept(payload, "schema_version");
    AdoptCurrent(redacted, current, text);
  }

  /** A top-level key off the secret paths survives redaction. */
  lemma TopKept(d: Dict, k: string)
    requires k !in SECRET_TOP
    ensures RedactAll(Obj(d), SECRET_PATHS).Obj?
    ensures Lookup(RedactAll(Obj(d), SECRET_PATHS).fields, k, Null) == Lookup(d, k, Null)
  {
    hide SECRET_PATHS, RedactAll;
    RedactedIsDict(d, SECRET_PATHS);
    SecretPathsAreGood();
    forall p | p in SECRET_PATHS ensures !Touches(p, [Key(k)]) {
      SecretHeads(p);
    }
    RedactAllAt(Obj(d), SECRET_PATHS, [Key(k)]);
    assert [Key(k)][1..] == [];
    assert At(Obj(d), [Key(k)]) == Child(Obj(d), Key(k));
    assert At(RedactAll(Obj(d), SECRET_PATHS), [Key(k)]) == Child(RedactAll(Obj(d), SECRET_PATHS), Key(k));
  }

  /** Imported anywhere, a redacted export keeps every field that is neither secret nor webui. */
  lemma RedactedKeepsTheRest(config: Dict, appVersion: string, createdAt: string, passphrase: Option<string>,
                             current: Dict, text: Text, c: Crypto, loc: Loc)
    requires "webui" in current
    requires loc != [] && loc[0] != Key("webui") && Off(SECRET_PATHS, loc)
    ensures var exported := Export(config, None, appVersion, createdAt, "", "", c).value;
            var imported := Import(exported, passphrase, current, text, c);
            imported.Done? && At(Obj(imported.value.config), loc)
                              == At(Obj(config["schema_version" := Num(2)]), loc)
  {
    hide SECRET_PATHS, MergeAll, UnresolvedAll, RedactAll, Import, Export, Touches, Payload;
    RedactedImport(config, appVersion, createdAt, passphrase, current, text, c);
    SecretPathsAreGood();
    var payload := Obj(Payload(config));
    var redacted := RedactAll(payload, SECRET_PATHS);
    RedactAllAt(payload, SECRET_PATHS, loc);
    MergeAllOff(redacted, Obj(current), SECRET_PATHS, loc);
    var merged := MergeAll(redacted, Obj(current), SECRET_PATHS).fields;
    AtTop(merged["webui" := current["webui"]], merged, loc);
    PayloadTop(config, loc);
  }

  lemma PayloadTop(config: Dict, loc: Loc)
    requires loc != [] && loc[0] != Key("webui")
    ensures At(Obj(Payload(config)), loc) == At(Obj(config["schema_version" := Num(2)]), loc)
  {
    AtTop(Payload(config), config["schema_version" := Num(2)], loc);
  }

  /** Imported where it came from, a redacted export restores the configuration exactly. */
  lemma RedactedRoundTrip(config: Dict, appVersion: string, createdAt: string, passphrase: Option<string>,
                          text: Text, c: Crypto)
    requires "webui" in config && Lookup(config, "schema_version", Null) == Num(CURRENT)
    requires Distinguished(Obj(config))
    ensures var exported := Export(config, None, appVersion, createdAt, "", "", c).value;
            Import(exported, passphrase, config, text, c) == Done(Imported(config, {}))
  {
    hide SECRET_PATHS, MergeAll, UnresolvedAll, RedactAll, Import, Export;
    RedactedImport(config, appVersion, createdAt, passphrase, config, text, c);
    SecretPathsAreGood();
    DistinguishedIsKeyed(Obj(config));
    var payload := Payload(config);
    forall p | p in SECRET_PATHS ensures WellKeyed(Obj(payload), p, []) && p != [] && p[0] in SECRET_TOP {
      SecretHeads(p);
    }
    RoundTrip(Obj(payload), SECRET_PATHS);
    MergeAllTop(RedactAll(Obj(payload), SECRET_PATHS), config, payload, SECRET_PATHS);
    assert payload["webui" := config["webui"]] == config;
  }

  /** The merge looks at the current tree only under the top-level keys of the secret paths. */
  lemma {:induction false} MergeAllTop(inc: Json, a: Dict, b: Dict, paths: seq<Path>)
    requires forall i | 0 <= i < |paths| :: paths[i] != [] && paths[i][0] in SECRET_TOP
    requires forall k | k in SECRET_TOP :: Get(Obj(a), k) == Get(Obj(b), k)
    ensures MergeAll(inc, Obj(a), paths) == MergeAll(inc, Obj(b), paths)
    ensures UnresolvedAll(inc, Obj(a), paths) == UnresolvedAll(inc, Obj(b), paths)
    decreases |paths|
  {
    if paths != [] {
      assert MergePath(inc, Obj(a), paths[0], []) == MergePath(inc, Obj(b), paths[0], []);
      MergeAllTop(MergePath(inc, Obj(a), paths[0], []), a, b, paths[1..]);
    }
  }
}
