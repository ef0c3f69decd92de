/**
 Schema migration of a serialized configuration (config.py:246-320).
 */
module Migration {
  import opened Prelude
  import opened ConfigTree

  type Dict = map<string, Json>

  datatype ConfigError =
    | InvalidSchemaVersion
    | SchemaTooNew(found: int)
    | NoMigration(from: int)
    | MalformedConfig

  datatype Result<+T> = Accepted(value: T) | Rejected(error: ConfigError)

  /** String conversions whose details no property here depends on. */
  datatype Text = Text(parseInt: string -> Option<int>, slugify: string -> string)

  const CURRENT: int := 2

  function Lookup(d: Dict, k: string, default: Json): Json {
    if k in d then d[k] else default
  }

  /** Python's `int(value)`. */
  function AsInt(t: Json, text: Text): Option<int> {
    match t
    case Num(n) => Some(n)
    case Bool(b) => Some(if b then 1 else 0)
    case Str(s) => text.parseInt(s)
    case _ => None
  }

  /** config.py:290-303. */
  function DetectSchema(raw: Dict, text: Text): Result<int> {
    var version := Lookup(raw, "schema_version", Null);
    if version != Null then
      match AsInt(version, text)
      case Some(n) => Accepted(n)
      case None => Rejected(InvalidSchemaVersion)
    else Accepted(if "sites" in raw then 2 else 1)
  }

  // ------------------------------------------------------------- the chain

  type Migrations = map<int, Dict -> Result<Dict>>

  function Chain(raw: Dict, version: int, current: int, steps: Migrations): Result<Dict>
    decreases current - version
  {
    if version >= current then Accepted(raw)
    else if version !in steps then Rejected(NoMigration(version))
    else
      match steps[version](raw)
      case Rejected(e) => Rejected(e)
      case Accepted(next) => Chain(next, version + 1, current, steps)
  }

  function Migrated(raw: Dict, current: int, steps: Migrations, text: Text): Result<Dict> {
    match DetectSchema(raw, text)
    case Rejected(e) => Rejected(e)
    case Accepted(version) =>
      if version > current then Rejected(SchemaTooNew(version))
      else if version < 1 then Rejected(InvalidSchemaVersion)
      else
        match Chain(raw, version, current, steps)
        case Rejected(e) => Rejected(e)
        case Accepted(d) => Accepted(d["schema_version" := Num(current)])
  }

  /** config.py:306-320: the loop over the table, in place. */
  class RawConfig {
    var entries: Dict

    constructor (raw: Dict)
      ensures entries == raw
    {
      entries := raw;
    }

    method MigrateToCurrent(current: int, steps: Migrations, text: Text) returns (failure: Option<ConfigError>)
      modifies this
      ensures match Migrated(old(entries), current, steps, text)
              case Accepted(d) => failure == None && entries == d
              case Rejected(e) => failure == Some(e)
    {
      var detected := DetectSchema(entries, text);
      if detected.Rejected? {
        return Some(detected.error);
      }
      var version := detected.value;
      if version > current {
        return Some(SchemaTooNew(version));
      }
      if version < 1 {
        return Some(InvalidSchemaVersion);
      }
      while version < current
        invariant version <= current
        invariant Chain(entries, version, current, steps) == Chain(old(entries), detected.value, current, steps)
      {
        if version !in steps {
          return Some(NoMigration(version));
        }
        var next := steps[version](entries);
        if next.Rejected? {
          return Some(next.error);
        }
        entries := next.value;
        version := version + 1;
      }
      entries := entries["schema_version" := Num(current)];
      failure := None;
    }
  }

  /** Every version from 1 up to the current one has a step that does not raise. */
  ghost predicate Complete(steps: Migrations, current: int) {
    && (forall v | 1 <= v < current :: v in steps)
    && (forall v, raw | 1 <= v < current :: steps[v](raw).Accepted?)
  }

  lemma {:induction false} ChainSucceeds(raw: Dict, version: int, current: int, steps: Migrations)
    requires Complete(steps, current) && 1 <= version
    ensures Chain(raw, version, current, steps).Accepted?
    decreases current - version
  {
    if version < current {
      ChainSucceeds(steps[version](raw).value, version + 1, current, steps);
    }
  }

  /** With a complete table, migration fails only on a version outside 1..current. */
  lemma MigrationSucceedsIff(raw: Dict, current: int, steps: Migrations, text: Text)
    requires Complete(steps, current)
    ensures Migrated(raw, current, steps, text).Accepted? <==>
            DetectSchema(raw, text).Accepted? && 1 <= DetectSchema(raw, text).value <= current
  {
    var d := DetectSchema(raw, text);
    if d.Accepted? && 1 <= d.value <= current {
      ChainSucceeds(raw, d.value, current, steps);
    }
  }

  /** Migration stamps the current version, and a second migration changes nothing. */
  lemma MigrationIdempotent(raw: Dict, current: int, steps: Migrations, text: Text)
    requires 1 <= current && Migrated(raw, current, steps, text).Accepted?
    ensures var d := Migrated(raw, current, steps, text).value;
            && Lookup(d, "schema_version", Null) == Num(current)
            && Migrated(d, current, steps, text) == Accepted(d)
  {
    var d := Migrated(raw, current, steps, text).value;
    assert d["schema_version" := Num(current)] == d;
  }

  // ------------------------------------------------------------ the v1 step

  /** `raw.get(k) or {}`, which must be a dict for the `.get` that follows. */
  function SubDict(raw: Dict, k: string): Result<Dict> {
    var v := Lookup(raw, k, Null);
    if !Truthy(v) then Accepted(map[]) else if v.Obj? then Accepted(v.fields) else Rejected(MalformedConfig)
  }

  const SCOPE_KEYS: set<string> := {"include_prefixes", "exclude_prefixes"}

  function LegacySite(raw: Dict, name: string, discovery: Dict, text: Text): Dict {
    var site: Dict := map[
      "id" := Str(text.slugify(name)),
      "name" := Str(name),
      "netbox_site" := Str(text.slugify(name)),
      "netbox_site_name" := Str(name),
      "discovery" := Obj(map[
        "enabled" := Lookup(discovery, "enabled", Bool(true)),
        "include_prefixes" := Lookup(discovery, "include_prefixes", Arr([])),
        "exclude_prefixes" := Lookup(discovery, "exclude_prefixes", Arr([]))])];
    var site := if Truthy(Lookup(raw, "technitium", Null)) then site["technitium" := raw["technitium"]] else site;
    if Truthy(Lookup(raw, "proxmox", Null)) then site["proxmox" := raw["proxmox"]] else site
  }

  /** What `pop` leaves of the top level: a key goes only when its value moved to the site. */
  function LegacyRest(raw: Dict): Dict {
    var moved := set k | k in {"technitium", "proxmox"} && Truthy(Lookup(raw, k, Null));
    var rest := raw - moved;
    var v := Lookup(raw, "discovery", Null);
    if Truthy(v) && v.Obj? then rest["discovery" := Obj(v.fields - SCOPE_KEYS)] else rest
  }

  /** config.py:251-282. */
  function MigrateLegacy(raw: Dict, text: Text): Result<Dict> {
    if "sites" in raw then Accepted(raw)
    else if "technitium" !in raw && "proxmox" !in raw then Accepted(raw["sites" := Arr([])])
    else
      match SubDict(raw, "netbox")
      case Rejected(e) => Rejected(e)
      case Accepted(netbox) =>
        match SubDict(raw, "discovery")
        case Rejected(e) => Rejected(e)
        case Accepted(discovery) =>
          var name := Lookup(netbox, "default_site", Str("Home"));
          if !name.Str? then Rejected(MalformedConfig)
          else Accepted(LegacyRest(raw)["sites" := Arr([Obj(LegacySite(raw, name.s, discovery, text))])])
  }

  function MIGRATIONS(text: Text): Migrations {
    map[1 := raw => MigrateLegacy(raw, text)]
  }

  /** Every site is handed over as it was; the v1 step never touches existing sites. */
  lemma SitesUntouched(raw: Dict, text: Text)
    requires "sites" in raw && Migrated(raw, CURRENT, MIGRATIONS(text), text).Accepted?
    ensures Migrated(raw, CURRENT, MIGRATIONS(text), text).value == raw["schema_version" := Num(CURRENT)]
  {
    var steps := MIGRATIONS(text);
    var v := DetectSchema(raw, text).value;
    if v == 1 {
      assert Chain(raw, 1, CURRENT, steps) == Chain(raw, 2, CURRENT, steps);
    }
  }

  /**
   What becomes of any document: by its stated version, or, without one, by whether it has
   sites.
   */
  lemma MigrationDecided(raw: Dict, text: Text)
    ensures var r := Migrated(raw, CURRENT, MIGRATIONS(text), text);
            var stated := Lookup(raw, "schema_version", Null);
            var first := if stated != Null then AsInt(stated, text) else if "sites" in raw then Some(2) else Some(1);
            match first
            case None => r == Rejected(InvalidSchemaVersion)
            case Some(v) =>
              if v > 2 then r == Rejected(SchemaTooNew(v))
              else if v < 1 then r == Rejected(InvalidSchemaVersion)
              else if v == 2 then r == Accepted(raw["schema_version" := Num(2)])
              else
                match MigrateLegacy(raw, text)
                case Rejected(e) => r == Rejected(e)
                case Accepted(d) => r == Accepted(d["schema_version" := Num(2)])
  {
    hide MigrateLegacy;
    var steps := MIGRATIONS(text);
    assert steps[1](raw) == MigrateLegacy(raw, text);
    if steps[1](raw).Accepted? {
      assert Chain(steps[1](raw).value, 2, CURRENT, steps) == Accepted(steps[1](raw).value);
    }
  }

  /** A v1 document without anything site-specific only gets an empty list of sites. */
  lemma LegacyWithoutSite(raw: Dict, text: Text)
    requires "sites" !in raw && "technitium" !in raw && "proxmox" !in raw
    ensures MigrateLegacy(raw, text) == Accepted(raw["sites" := Arr([])])
  {
  }

  /** A v1 layout that migrates. */
  predicate Legacy(raw: Dict, text: Text) {
    "sites" !in raw && ("technitium" in raw || "proxmox" in raw) && MigrateLegacy(raw, text).Accepted?
  }

  /** An absent or empty section counts as an empty one; anything else must be a dict, and the name text. */
  lemma LegacyMigrates(raw: Dict, text: Text)
    ensures Legacy(raw, text) <==>
            && "sites" !in raw && ("technitium" in raw || "proxmox" in raw)
            && (Get(Obj(raw), "netbox").Obj? || !Populated(Get(Obj(raw), "netbox")))
            && (Get(Obj(raw), "discovery").Obj? || !Populated(Get(Obj(raw), "discovery")))
            && (Get(Obj(raw), "netbox").Obj? && "default_site" in raw["netbox"].fields ==>
                  raw["netbox"].fields["default_site"].Str?)
  {
    PopulatedIs(Get(Obj(raw), "netbox"));
    PopulatedIs(Get(Obj(raw), "discovery"));
    EmptyHasNone(raw, "netbox");
    hide Truthy, Populated, LegacySite, LegacyRest;
  }

  /** Python counts True as 1 and False as 0, and takes no number from lists, dicts or None. */
  lemma AsIntIs(n: int, text: Text)
    ensures AsInt(Num(n), text) == Some(n) && AsInt(Bool(true), text) == Some(1) && AsInt(Bool(false), text) == Some(0)
    ensures forall v: Json | v.Null? || v.Arr? || v.Obj? :: AsInt(v, text) == None
  {
  }

  /** The one site a v1 layout becomes. */
  function NewSite(raw: Dict, text: Text): (site: Json)
    requires Legacy(raw, text)
    ensures MigrateLegacy(raw, text).value["sites"] == Arr([site])
  {
    MigrateLegacy(raw, text).value["sites"].items[0]
  }

  /** A populated technitium or proxmox value moves to the site unchanged; an empty one stays behind. */
  lemma LegacyMoved(raw: Dict, text: Text, k: string)
    requires Legacy(raw, text) && k in {"technitium", "proxmox"}
    ensures var d, site := MigrateLegacy(raw, text).value, NewSite(raw, text);
            if Truthy(Lookup(raw, k, Null)) then Get(site, k) == raw[k] && k !in d
            else site.Obj? && k !in site.fields && Lookup(d, k, Null) == Lookup(raw, k, Null)
  {
  }

  /** The site is named after the default site, "Home" if there is none, and stays enabled unless it was not. */
  lemma LegacyNamed(raw: Dict, text: Text)
    requires Legacy(raw, text)
    ensures var site := NewSite(raw, text);
            var given, was := Get(Get(Obj(raw), "netbox"), "default_site"), Get(Obj(raw), "discovery");
            var hasName := Get(Obj(raw), "netbox").Obj? && "default_site" in raw["netbox"].fields;
            && (hasName ==> given.Str?)
            && var name := if hasName then given.s else "Home";
               && Get(site, "id") == Str(text.slugify(name)) && Get(site, "netbox_site") == Str(text.slugify(name))
               && Get(site, "name") == Str(name) && Get(site, "netbox_site_name") == Str(name)
               && Get(Get(site, "discovery"), "enabled")
                  == (if was.Obj? && "enabled" in was.fields then was.fields["enabled"] else Bool(true))
  {
    EmptyHasNone(raw, "netbox");
    EmptyHasNone(raw, "discovery");
    SiteMade(raw, text);
    var netbox, discovery := SubDict(raw, "netbox").value, SubDict(raw, "discovery").value;
    SiteSays(raw, Lookup(netbox, "default_site", Str("Home")).s, discovery, text);
    hide Truthy, LegacySite, MigrateLegacy;
  }

  lemma SiteMade(raw: Dict, text: Text)
    requires Legacy(raw, text)
    ensures SubDict(raw, "netbox").Accepted? && SubDict(raw, "discovery").Accepted?
    ensures Lookup(SubDict(raw, "netbox").value, "default_site", Str("Home")).Str?
    ensures NewSite(raw, text)
         == Obj(LegacySite(raw, Lookup(SubDict(raw, "netbox").value, "default_site", Str("Home")).s,
                           SubDict(raw, "discovery").value, text))
  {
    hide LegacyRest, LegacySite, SubDict;
  }

  lemma SiteSays(raw: Dict, name: string, discovery: Dict, text: Text)
    ensures var site := Obj(LegacySite(raw, name, discovery, text));
            && Get(site, "id") == Str(text.slugify(name)) && Get(site, "netbox_site") == Str(text.slugify(name))
            && Get(site, "name") == Str(name) && Get(site, "netbox_site_name") == Str(name)
            && Get(Get(site, "discovery"), "enabled") == Lookup(discovery, "enabled", Bool(true))
  {
    hide Truthy;
  }

  lemma EmptyHasNone(raw: Dict, k: string)
    ensures k in raw && raw[k].Obj? && !Truthy(raw[k]) ==> raw[k].fields == map[]
  {
  }

  /** Both prefix lists move to the site; every other discovery setting stays global. */
  lemma LegacyPrefixes(raw: Dict, text: Text, k: string)
    requires Legacy(raw, text)
    ensures var d, site := Obj(MigrateLegacy(raw, text).value), NewSite(raw, text);
            var was := Get(Obj(raw), "discovery");
            if k in SCOPE_KEYS then
              && Get(Get(site, "discovery"), k) == (if was.Obj? && k in was.fields then was.fields[k] else Arr([]))
              && Get(Get(d, "discovery"), k) == Null
            else Get(Get(d, "discovery"), k) == Get(was, k)
  {
    var was := Get(Obj(raw), "discovery");
    assert was.Obj? && !Truthy(was) ==> was.fields == map[];
    assert !Truthy(was) ==> LegacyRest(raw).Keys <= raw.Keys;
  }

  /** Nothing else at the top level changes. */
  lemma LegacyRestKept(raw: Dict, text: Text, k: string)
    requires Legacy(raw, text) && k !in {"sites", "technitium", "proxmox", "discovery"}
    ensures var d := MigrateLegacy(raw, text).value;
            (k in d <==> k in raw) && Lookup(d, k, Null) == Lookup(raw, k, Null)
  {
  }
}
