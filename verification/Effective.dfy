/** What loading and building give, said of the document, the defaults and the setting themselves. */
module Effective {
  import opened Json
  import opened Merge
  import opened Document
  import opened Capacity
  import opened Pipeline

  // ----- loading -----

  /** A file holding the mapping `doc`; an empty or missing file holds the empty one. */
  predicate Holds(file: File, doc: Fields) {
    file == Parsed(Obj(doc)) || ((file == Parsed(Null) || file == Absent) && doc == map[])
  }

  /** Outside `backends`, the loaded configuration is the document laid over the defaults, whether or not
    * the document declares backends. */
  lemma LoadedElsewhere(defaults: Fields, file: File, doc: Fields, m: Merged, path: Path)
    requires DefaultsOk(defaults) && Holds(file, doc) && LoadDocument(defaults, file) == Ok(m)
    requires path != [] && path[0] != "backends"
    ensures PathOutcome(At(Obj(defaults), path), At(Obj(doc), path), At(Obj(m.cfg), path))
  {
    var rest := doc - {"backends"};
    PathLaw(Obj(defaults), Obj(rest), path);
    assert At(Obj(rest), path) == At(Obj(doc), path);
    assert At(Obj(m.cfg), path) == At(Overlay(Obj(defaults), Obj(rest)), path);
  }

  /** A document without `backends` keeps the built-in registry and takes nothing away. */
  lemma RegistryWithoutDeclaration(defaults: Fields, file: File, doc: Fields, m: Merged)
    requires DefaultsOk(defaults) && Holds(file, doc) && LoadDocument(defaults, file) == Ok(m) && "backends" !in doc
    ensures "backends" in m.cfg && m.cfg["backends"] == defaults["backends"] && m.removed == {}
  {
  }

  /** A file loads exactly when it is missing, or a mapping whose `backends`, if any, is a mapping of mappings
    * with boolean `enabled` flags. */
  lemma LoadsIff(defaults: Fields, file: File)
    requires DefaultsOk(defaults)
    ensures LoadDocument(defaults, file).Ok? <==>
      || file == Absent || file == Parsed(Null)
      || (file.Parsed? && file.doc.Obj? &&
           ("backends" in file.doc.fields ==>
             && file.doc.fields["backends"].Obj?
             && forall id | id in file.doc.fields["backends"].fields ::
                  var entry := file.doc.fields["backends"].fields[id];
                  entry.Obj? && ("enabled" in entry.fields ==> entry.fields["enabled"].Bool?)))
  {
    if file.Parsed? && file.doc.Obj? && "backends" in file.doc.fields && file.doc.fields["backends"].Obj? {
      EntriesReadIff(defaults["backends"].fields, file.doc.fields["backends"].fields);
    }
  }

  /** Why a file is refused: all the entries at fault are told, each by what is wrong with it. */
  lemma RefusedWith(defaults: Fields, w: World, e: Failure)
    requires DefaultsOk(defaults) && (e.Unreadable? || e.BadDocument?)
    ensures var file := w.file;
      Build(defaults, w) == Err(e) <==>
      || (file == Unparsable && e == Unreadable)
      || (file.Parsed? && file.doc != Null && !file.doc.Obj? && e == BadDocument({NotAMapping}))
      || (file.Parsed? && file.doc.Obj? && "backends" in file.doc.fields && !file.doc.fields["backends"].Obj?
          && e == BadDocument({BackendsNotAMapping}))
      || (exists declared :: Declares(file, declared) && Faults(declared) != {} && e == BadDocument(Faults(declared)))
  {
    var file := w.file;
    if file.Parsed? && file.doc.Obj? && "backends" in file.doc.fields && file.doc.fields["backends"].Obj? {
      var declared := file.doc.fields["backends"].fields;
      assert Declares(file, declared);
      ProblemsAre(defaults["backends"].fields, declared);
    }
  }

  function Faults(declared: Fields): set<Document.Problem> {
    (set id | id in declared && !declared[id].Obj? :: EntryNotAMapping(id)) +
    (set id | id in declared && declared[id].Obj? && "enabled" in declared[id].fields
              && !declared[id].fields["enabled"].Bool? :: EnabledNotBoolean(id))
  }

  lemma ProblemsAre(builtin: Fields, declared: Fields)
    ensures Problems(builtin, declared) == Faults(declared)
  {
    forall id | id in declared
      ensures ReadEntry(builtin, id, declared[id]).Rejected? ==>
        ReadEntry(builtin, id, declared[id]).problem in Faults(declared)
    {
    }
  }

  lemma EntriesReadIff(builtin: Fields, declared: Fields)
    ensures Problems(builtin, declared) == {} <==>
      forall id | id in declared ::
        declared[id].Obj? && ("enabled" in declared[id].fields ==> declared[id].fields["enabled"].Bool?)
  {
    forall id | id in declared
      ensures ReadEntry(builtin, id, declared[id]).Rejected? <==>
        !(declared[id].Obj? && ("enabled" in declared[id].fields ==> declared[id].fields["enabled"].Bool?))
    {
    }
    if Problems(builtin, declared) == {} {
      forall id | id in declared ensures !ReadEntry(builtin, id, declared[id]).Rejected? {
        NothingRejected(builtin, declared, id);
      }
    }
  }

  // ----- sections of a build -----

  /** No remaining write goes into the section `key`. */
  predicate LeavesAlone(edits: seq<OutsideEdit>, key: string) {
    forall k | 0 <= k < |edits| :: (edits[k].path + [edits[k].key])[0] != key
  }

  predicate SameSection(a: Fields, b: Fields, key: string) {
    if key in a then key in b && a[key] == b[key] else key !in b
  }

  lemma {:induction false} EditsKeepASection(cfg: Fields, edits: seq<OutsideEdit>, key: string)
    requires Edited(cfg, edits).Some? && LeavesAlone(edits, key)
    ensures SameSection(cfg, Edited(cfg, edits).value, key)
  {
    if edits != [] {
      var n := |edits| - 1;
      assert forall k | 0 <= k < n :: edits[..n][k] == edits[k];
      EditsKeepASection(cfg, edits[..n], key);
      var e := edits[n];
      assert (e.path + [e.key])[0] == if e.path == [] then e.key else e.path[0];
    }
  }

  lemma SectionPaths(a: Fields, b: Fields, path: Path)
    requires path != [] && SameSection(a, b, path[0])
    ensures At(Obj(a), path) == At(Obj(b), path)
  {
  }

  /** Up to the remaining writes, a section other than the registry and discovery is as it was loaded. */
  lemma PreparedSection(m: Merged, site: Site, key: string)
    requires ApplyEnv(DisableOrphans(m.cfg), site.env).Some? && key != "backends" && key != "discovery"
    ensures SameSection(m.cfg, Prepared(m, site), key)
  {
    var orphaned := DisableOrphans(m.cfg);
    EnvKeepsEverythingElse(orphaned, site.env);
    PathsKeepEverythingElse(ApplyEnv(orphaned, site.env).value, site.home);
    assert orphaned.Keys == m.cfg.Keys;
  }

  /** In a section no later stage writes, admission among them, a built configuration is the document laid
    * over the defaults. */
  lemma BuiltElsewhere(defaults: Fields, w: World, doc: Fields, cfg: Fields, path: Path)
    requires DefaultsOk(defaults) && Holds(w.file, doc) && Build(defaults, w) == Ok(cfg)
    requires path != [] && path[0] != "backends" && path[0] != "discovery"
    requires path[0] == "pooling" || forall p :: LeavesAlone(w.site.elsewhere(p), path[0])
    ensures PathOutcome(At(Obj(defaults), path), At(Obj(doc), path), At(Obj(cfg), path))
  {
    var m := BuildStages(defaults, w, cfg);
    LoadedElsewhere(defaults, w.file, doc, m, path);
    PreparedSection(m, w.site, path[0]);
    var now := Prepared(m, w.site);
    var edits := w.site.elsewhere(now);
    if path[0] == "pooling" {
      assert LeavesAlone(edits, "pooling");
    }
    EditsKeepASection(now, edits, path[0]);
    SectionPaths(m.cfg, now, path);
    SectionPaths(now, cfg, path);
  }

  // ----- the registry of a build -----

  /** What the document declares under `backends`. */
  predicate Declares(file: File, declared: Fields) {
    && file.Parsed? && file.doc.Obj? && "backends" in file.doc.fields
    && file.doc.fields["backends"] == Obj(declared)
  }

  function BuiltinOf(defaults: Fields, id: string): Value
    requires DefaultsOk(defaults)
  {
    if id in defaults["backends"].fields then defaults["backends"].fields[id] else Obj(map[])
  }

  /** Fields of an entry that the variables or path expansion rewrite. */
  predicate Rewritten(id: string, env: Env, field: string) {
    || field == "credentials_path"
    || (id == "nvidia" && ((field == "url" && env.target != "") || (field == "api_key_env" && env.keyEnv != "")))
  }

  lemma EnvField(f: Fields, env: Env, field: string)
    ensures field == "url" && env.target != "" ==> field in WithEnv(f, env) && WithEnv(f, env)[field] == Str(env.target)
    ensures field == "api_key_env" && env.keyEnv != "" ==>
      field in WithEnv(f, env) && WithEnv(f, env)[field] == Str(env.keyEnv)
    ensures !(field == "url" && env.target != "") && !(field == "api_key_env" && env.keyEnv != "") ==>
      SameSection(f, WithEnv(f, env), field)
  {
  }

  lemma ExpandedField(home: Home, v: Value, field: string)
    requires v.Obj? && field != "credentials_path"
    ensures ExpandEntry(home, v).Obj? && SameSection(v.fields, ExpandEntry(home, v).fields, field)
  {
  }

  /** Below an active entry, every path that nothing rewrites shows the declared entry laid over its default. */
  lemma BuiltRegistry(defaults: Fields, w: World, declared: Fields, cfg: Fields, id: string, path: Path)
    requires DefaultsOk(defaults) && Declares(w.file, declared) && Build(defaults, w) == Ok(cfg)
    requires "backends" in cfg && cfg["backends"].Obj? && id in cfg["backends"].fields
    requires path != [] && !Rewritten(id, w.site.env, path[0])
    ensures id in declared
    ensures PathOutcome(At(BuiltinOf(defaults, id), path), At(declared[id], path), At(cfg["backends"].fields[id], path))
  {
    RegistryIsWhatWasDeclared(defaults, w, cfg);
    assert id in BackendIds(cfg);
    EntryIs(defaults, w, declared, cfg, id);
    var merged := Overlay(BuiltinOf(defaults, id), declared[id]);
    PathLaw(BuiltinOf(defaults, id), declared[id], path);
    EnvField(merged.fields, w.site.env, path[0]);
    var plain := Plain(defaults["backends"].fields, id, declared[id], w.site.env);
    ExpandedField(w.site.home, plain, path[0]);
    SectionPaths(merged.fields, plain.fields, path);
    SectionPaths(plain.fields, cfg["backends"].fields[id].fields, path);
  }

  /** An active entry is a mapping declared over a mapping. */
  lemma EntryIs(defaults: Fields, w: World, declared: Fields, cfg: Fields, id: string)
    requires DefaultsOk(defaults) && Declares(w.file, declared) && Build(defaults, w) == Ok(cfg)
    requires id in BackendIds(cfg)
    ensures id in declared && declared[id].Obj? && BuiltinOf(defaults, id).Obj?
    ensures cfg["backends"].fields[id]
         == ExpandEntry(w.site.home, Plain(defaults["backends"].fields, id, declared[id], w.site.env))
  {
    RegistryIsWhatWasDeclared(defaults, w, cfg);
    var m := BuildStages(defaults, w, cfg);
    LoadsIff(defaults, w.file);
  }

  /** The active ids are the declared ones whose entry is not switched off. */
  lemma ActiveIdsAre(defaults: Fields, w: World, declared: Fields, cfg: Fields, id: string)
    requires DefaultsOk(defaults) && Declares(w.file, declared) && Build(defaults, w) == Ok(cfg)
    ensures "backends" in cfg && cfg["backends"].Obj?
    ensures id in cfg["backends"].fields <==>
      id in declared && At(declared[id], ["enabled"]) != Found(Bool(false))
  {
    RegistryIsWhatWasDeclared(defaults, w, cfg);
    var m := BuildStages(defaults, w, cfg);
    LoadedRegistry(defaults, w.file, m);
    LoadsIff(defaults, w.file);
    assert "backends" in Prepared(m, w.site) && Prepared(m, w.site)["backends"].Obj?;
    if id in declared && "enabled" in declared[id].fields {
      var flag := declared[id].fields["enabled"];
      assert ["enabled"][1..] == [];
      assert At(declared[id], ["enabled"]) == At(flag, []) == Found(flag);
    }
  }

  /** The ids taken away are the built-in ones not declared and the declared ones switched off. */
  lemma WithdrawnAre(defaults: Fields, file: File, declared: Fields, m: Merged, id: string)
    requires DefaultsOk(defaults) && Declares(file, declared) && LoadDocument(defaults, file) == Ok(m)
    ensures id in m.removed <==>
      || (id in defaults["backends"].fields && id !in declared)
      || (id in declared && At(declared[id], ["enabled"]) == Found(Bool(false)))
  {
    LoadsIff(defaults, file);
    if id in declared {
      OneStep(declared[id], "enabled");
    }
  }

  /** A credentials path under the home directory is resolved there; any other value shows as merged. */
  lemma BuiltCredentials(defaults: Fields, w: World, declared: Fields, cfg: Fields, id: string) returns (merged: Lookup)
    requires DefaultsOk(defaults) && Declares(w.file, declared) && Build(defaults, w) == Ok(cfg)
    requires "backends" in cfg && cfg["backends"].Obj? && id in cfg["backends"].fields
    ensures id in declared
    ensures var path := ["credentials_path"];
      PathOutcome(At(BuiltinOf(defaults, id), path), At(declared[id], path), merged)
    ensures var shown := At(cfg["backends"].fields[id], ["credentials_path"]);
      && (forall rest :: merged == Found(Str("~/" + rest)) ==> shown == Found(Str(w.site.home(rest))))
      && ((forall rest :: merged != Found(Str("~/" + rest))) ==> shown == merged)
  {
    assert id in BackendIds(cfg);
    EntryIs(defaults, w, declared, cfg, id);
    var base, path := BuiltinOf(defaults, id), ["credentials_path"];
    var over := Overlay(base, declared[id]);
    PathLaw(base, declared[id], path);
    merged := At(over, path);
    var plain := Plain(defaults["backends"].fields, id, declared[id], w.site.env);
    EnvField(over.fields, w.site.env, "credentials_path");
    SectionPaths(over.fields, plain.fields, path);
    CredentialsOf(w.site.home, plain);
  }

  lemma CredentialsOf(home: Home, v: Value)
    requires v.Obj?
    ensures var merged, shown := At(v, ["credentials_path"]), At(ExpandEntry(home, v), ["credentials_path"]);
      && (forall rest :: merged == Found(Str("~/" + rest)) ==> shown == Found(Str(home(rest))))
      && ((forall rest :: merged != Found(Str("~/" + rest))) ==> shown == merged)
  {
    var key := "credentials_path";
    assert [key][1..] == [];
    if key in v.fields {
      assert At(v, [key]) == At(v.fields[key], []) == Found(v.fields[key]);
      if v.fields[key].Str? {
        var s := v.fields[key].s;
        if "~/" <= s {
          assert s == "~/" + s[2..];
        }
        forall rest | s == "~/" + rest ensures s[2..] == rest {
        }
        var e := ExpandEntry(home, v);
        assert At(e, [key]) == At(e.fields[key], []) == Found(e.fields[key]);
      }
    }
  }

  /** A variable that is set ends up in the `nvidia` entry. */
  lemma BuiltNvidia(defaults: Fields, w: World, cfg: Fields, field: string, value: string)
    requires DefaultsOk(defaults) && Build(defaults, w) == Ok(cfg) && value != ""
    requires (field == "url" && value == w.site.env.target) || (field == "api_key_env" && value == w.site.env.keyEnv)
    ensures At(Obj(cfg), ["backends", "nvidia", field]) == Found(Str(value))
  {
    var m := BuildStages(defaults, w, cfg);
    var before := DisableOrphans(m.cfg);
    NvidiaField(before, w.site, field, value);
    PathsKeepEverythingElse(ApplyEnv(before, w.site.env).value, w.site.home);
    FieldOfNvidia(cfg, field);
  }

  lemma NvidiaField(before: Fields, site: Site, field: string, value: string)
    requires ApplyEnv(before, site.env).Some? && value != ""
    requires (field == "url" && value == site.env.target) || (field == "api_key_env" && value == site.env.keyEnv)
    ensures var after := ExpandPaths(ApplyEnv(before, site.env).value, site.home);
      && "backends" in after && after["backends"].Obj? && "nvidia" in after["backends"].fields
      && after["backends"].fields["nvidia"].Obj? && field in after["backends"].fields["nvidia"].fields
      && after["backends"].fields["nvidia"].fields[field] == Str(value)
  {
    var after := ApplyEnv(before, site.env).value;
    var f := Section(before, "backends", "nvidia").value.fields;
    EnvField(f, site.env, field);
    var entry := Obj(WithEnv(f, site.env));
    assert after["backends"].fields["nvidia"] == entry;
    ExpandedField(site.home, entry, field);
    PathsKeepEverythingElse(after, site.home);
    assert "nvidia" in BackendIds(after);
  }

  lemma FieldOfNvidia(cfg: Fields, field: string)
    requires "backends" in cfg && cfg["backends"].Obj? && "nvidia" in cfg["backends"].fields
    requires cfg["backends"].fields["nvidia"].Obj? && field in cfg["backends"].fields["nvidia"].fields
    ensures At(Obj(cfg), ["backends", "nvidia", field]) == Found(cfg["backends"].fields["nvidia"].fields[field])
  {
    var path := ["backends", "nvidia", field];
    assert path[1..] == ["nvidia", field] && path[1..][1..] == [field] && path[1..][1..][1..] == [];
    assert At(Obj(cfg), path) == At(cfg["backends"], path[1..]) == At(cfg["backends"].fields["nvidia"], path[1..][1..]);
    assert At(cfg["backends"].fields["nvidia"], [field]) == At(cfg["backends"].fields["nvidia"].fields[field], []);
  }

  /** A variable that is set stops the build exactly when no `nvidia` entry is left to hold it. */
  lemma NvidiaRemovedIff(defaults: Fields, w: World)
    requires DefaultsOk(defaults)
    ensures Build(defaults, w) == Err(NvidiaRemoved) <==>
      && LoadDocument(defaults, w.file).Ok?
      && (w.site.env.target != "" || w.site.env.keyEnv != "")
      && var registry := At(Obj(LoadDocument(defaults, w.file).value.cfg), ["backends", "nvidia"]);
        !(registry.Found? && registry.v.Obj?)
  {
    if LoadDocument(defaults, w.file).Ok? {
      var m := LoadDocument(defaults, w.file).value;
      var before := DisableOrphans(m.cfg);
      assert SameSection(m.cfg, before, "backends");
      assert ["backends", "nvidia"][1..] == ["nvidia"] && ["nvidia"][1..] == [];
    }
  }

  // ----- providers of a build -----

  /** A provider's settings are as loaded, except that a mapping without an active backend of its name
    * is switched off. */
  lemma BuiltProviders(defaults: Fields, w: World, cfg: Fields) returns (m: Merged)
    requires DefaultsOk(defaults) && Build(defaults, w) == Ok(cfg)
    ensures LoadDocument(defaults, w.file) == Ok(m)
    ensures var before, after := At(Obj(m.cfg), ["discovery", "providers"]), At(Obj(cfg), ["discovery", "providers"]);
      if before.Found? && before.v.Obj? then
        && "backends" in cfg && cfg["backends"].Obj?
        && after.Found? && after.v.Obj? && after.v.fields.Keys == before.v.fields.Keys
        && forall id | id in before.v.fields ::
             if id !in cfg["backends"].fields && before.v.fields[id].Obj?
             then after.v.fields[id] == Obj(before.v.fields[id].fields["enabled" := Bool(false)])
             else after.v.fields[id] == before.v.fields[id]
      else after.Found? <==> before.Found?
  {
    m := BuildStages(defaults, w, cfg);
    var orphaned := DisableOrphans(m.cfg);
    EnvKeepsEverythingElse(orphaned, w.site.env);
    PathsKeepEverythingElse(ApplyEnv(orphaned, w.site.env).value, w.site.home);
    TwoSteps(m.cfg, "discovery", "providers");
    TwoSteps(cfg, "discovery", "providers");
    assert Section(cfg, "discovery", "providers") == Section(orphaned, "discovery", "providers");
    assert BackendIds(cfg) == BackendIds(m.cfg);
    LoadedHasRegistry(defaults, w.file, m);
    assert "backends" in Prepared(m, w.site) && Prepared(m, w.site)["backends"].Obj?;
  }

  lemma LoadedHasRegistry(defaults: Fields, file: File, m: Merged)
    requires DefaultsOk(defaults) && LoadDocument(defaults, file) == Ok(m)
    ensures "backends" in m.cfg && m.cfg["backends"].Obj?
  {
    BackendsStay(defaults, file, m);
  }

  // ----- acceptance -----

  /** The key holds a whole number of at least `low`. */
  predicate WholeAtLeast(f: Fields, key: string, low: int) {
    key in f && f[key].Num? && f[key].n >= low as real && f[key].n == f[key].n.Floor as real
  }

  /** A declared backend, or `reg:` and an id of letters, digits, dots, underscores and hyphens;
    * and the backend it names was not taken away. */
  ghost predicate LegalMember(v: Value, routes: Routes) {
    && v.Str? && v.s != ""
    && (v.s in routes.declared || exists id :: v.s == "reg:" + id && PlainId(id))
    && (forall id :: v.s == "reg:" + id ==> id !in routes.removed)
    && (!("reg:" <= v.s) ==> v.s !in routes.removed)
  }

  predicate PlainId(id: string) {
    id != "" && forall c | c in id ::
      'a' <= c <= 'z' || 'A' <= c <= 'Z' || '0' <= c <= '9' || c == '.' || c == '_' || c == '-'
  }

  ghost predicate LegalDomain(id: string, v: Value, routes: Routes) {
    && v.Obj?
    && WholeAtLeast(v.fields, "max", 1) && WholeAtLeast(v.fields, "maxQueue", 0)
    && WholeAtLeast(v.fields, "queueTimeoutMs", 1)
    && "members" in v.fields && v.fields["members"].Arr?
    && Str(id) in v.fields["members"].items && forall m | m in v.fields["members"].items :: LegalMember(m, routes)
  }

  function Seat(domains: Fields, d: string, i: nat): Value {
    if d in domains && domains[d].Obj? && "members" in domains[d].fields && domains[d].fields["members"].Arr?
       && i < |domains[d].fields["members"].items|
    then domains[d].fields["members"].items[i] else Null
  }

  /** No string sits at two places of the lists. */
  ghost predicate NobodyTwice(domains: Fields) {
    forall d, e, i, j | (d != e || i != j) && Seat(domains, d, i).Str? :: Seat(domains, d, i) != Seat(domains, e, j)
  }

  ghost predicate Partition(domains: Fields, routes: Routes) {
    (forall d | d in domains :: LegalDomain(d, domains[d], routes)) && NobodyTwice(domains)
  }

  lemma WholeIff(f: Fields, key: string, low: int)
    ensures WholeAtLeast(f, key, low) <==> AtLeast(Field(Obj(f), key), low)
  {
  }

  lemma PrefixedIff(s: string)
    ensures "reg:" <= s <==> exists id :: s == "reg:" + id
    ensures forall id :: s == "reg:" + id ==> id == s[4..]
  {
    if "reg:" <= s {
      assert s == "reg:" + s[4..];
    }
  }

  lemma RegistryIdIff(s: string)
    ensures RegistryId(s) <==> exists id :: s == "reg:" + id && PlainId(id)
  {
    PrefixedIff(s);
    if "reg:" <= s {
      var id := s[4..];
      assert s == "reg:" + id;
      assert forall i | 4 <= i < |s| :: s[i] == id[i - 4];
      assert forall i | 0 <= i < |id| :: id[i] == s[i + 4];
      if RegistryId(s) {
        assert PlainId(id);
      }
      if PlainId(id) {
        forall i | 4 <= i < |s| ensures IdChar(s[i]) {
          assert id[i - 4] in id;
        }
      }
    }
  }

  lemma MemberIff(v: Value, routes: Routes)
    ensures LegalMember(v, routes) <==> MemberOk(v, routes)
  {
    if v.Str? {
      RegistryIdIff(v.s);
      PrefixedIff(v.s);
    }
  }

  lemma DomainIff(id: string, v: Value, routes: Routes)
    ensures LegalDomain(id, v, routes) <==> DomainOk(id, v, routes)
  {
    if v.Obj? {
      WholeIff(v.fields, "max", 1);
      WholeIff(v.fields, "maxQueue", 0);
      WholeIff(v.fields, "queueTimeoutMs", 1);
      forall i | 0 <= i < |Members(v)| ensures LegalMember(Members(v)[i], routes) <==> MemberOk(Members(v)[i], routes) {
        MemberIff(Members(v)[i], routes);
      }
    }
  }

  lemma SeatIsListed(domains: Fields, d: string, i: nat)
    requires d in domains && i < |Members(domains[d])|
    ensures Seat(domains, d, i) == Listed(domains, d, i)
  {
  }

  lemma TwiceIff(domains: Fields, routes: Routes)
    requires forall d | d in domains :: DomainOk(d, domains[d], routes)
    ensures NobodyTwice(domains) <==> Distinct(domains, Everything(domains))
  {
    var all := Everything(domains);
    if NobodyTwice(domains) {
      forall d, e, i, j | d in all && e in all && 0 <= i < all[d] && 0 <= j < all[e] && (d != e || i != j)
        ensures Listed(domains, d, i) != Listed(domains, e, j)
      {
        SeatIsListed(domains, d, i);
        SeatIsListed(domains, e, j);
        assert MemberOk(Members(domains[d])[i], routes);
      }
    }
    if Distinct(domains, all) {
      forall d, e, i: nat, j: nat | (d != e || i != j) && Seat(domains, d, i).Str?
        ensures Seat(domains, d, i) != Seat(domains, e, j)
      {
        assert d in all && i < all[d];
        if e in all && j < all[e] {
          SeatIsListed(domains, d, i);
          SeatIsListed(domains, e, j);
        }
      }
    }
  }

  /** Capacity validation accepts exactly the partitions. */
  lemma PartitionIff(domains: Fields, routes: Routes)
    ensures Partition(domains, routes) <==> WellFormed(domains, routes)
  {
    forall d | d in domains ensures LegalDomain(d, domains[d], routes) <==> DomainOk(d, domains[d], routes) {
      DomainIff(d, domains[d], routes);
    }
    if forall d | d in domains :: DomainOk(d, domains[d], routes) {
      TwiceIff(domains, routes);
    }
  }

  /** A candidate is accepted exactly when every provider says whether it is enabled, admission names active
    * backends only, the capacity domains are a partition, and the remaining checks agree. */
  lemma AcceptedIff(cfg: Fields, removed: set<string>, others: Fields -> bool)
    requires "backends" in cfg && cfg["backends"].Obj?
    ensures Accepted(cfg, removed, others) <==>
      var registry := cfg["backends"].fields.Keys;
      && others(cfg)
      && (match At(Obj(cfg), ["discovery", "providers"])
          case Found(Obj(p)) =>
            forall id | id in p :: At(p[id], ["enabled"]).Found? && At(p[id], ["enabled"]).v.Bool?
          case _ => true)
      && (match At(Obj(cfg), ["pooling", "per_backend"])
          case Found(Obj(p)) => forall id | id in p :: id in registry
          case _ => true)
      && (match At(Obj(cfg), ["pooling", "capacity_domains"])
          case Found(Obj(domains)) => Partition(domains, Routes(registry, removed))
          case Found(Null) => true
          case Found(_) => false
          case _ => true)
  {
    TwoSteps(cfg, "discovery", "providers");
    TwoSteps(cfg, "pooling", "per_backend");
    TwoSteps(cfg, "pooling", "capacity_domains");
    match Section(cfg, "discovery", "providers") {
      case Some(Obj(p)) =>
        forall id | id in p
          ensures Field(p[id], "enabled") == match At(p[id], ["enabled"]) case Found(v) => Some(v) case _ => None
        {
          OneStep(p[id], "enabled");
        }
      case _ =>
    }
    match Section(cfg, "pooling", "capacity_domains") {
      case Some(Obj(domains)) => PartitionIff(domains, Routes(cfg["backends"].fields.Keys, removed));
      case _ =>
    }
  }

  lemma OneStep(v: Value, key: string)
    ensures Field(v, key) == match At(v, [key]) case Found(w) => Some(w) case _ => None
  {
    assert [key][1..] == [];
    if v.Obj? && key in v.fields {
      assert At(v, [key]) == At(v.fields[key], []);
    }
  }

  lemma TwoSteps(cfg: Fields, outer: string, inner: string)
    ensures Section(cfg, outer, inner) == match At(Obj(cfg), [outer, inner]) case Found(w) => Some(w) case _ => None
  {
    assert [outer, inner][1..] == [inner];
    if outer in cfg {
      OneStep(cfg[outer], inner);
      assert At(Obj(cfg), [outer, inner]) == At(cfg[outer], [inner]);
    }
  }
}
