/** Building one effective configuration: defaults, document, orphan providers, environment, validation. */
module Pipeline {
  import opened Json
  import opened Merge
  import opened Objects
  import opened Document
  import opened Capacity

  /** `SKGATEWAY_TARGET` and `SKGATEWAY_NVIDIA_KEY_ENV`; the empty string is unset. */
  datatype Env = Env(target: string, keyEnv: string)

  datatype File = Absent | Unparsable | Parsed(doc: Value)

  /** `home` resolves a path beneath the home directory. */
  type Home = string -> string

  /** One value stored under a path of mappings. */
  datatype Edit = Edit(path: Path, key: string, value: Value)

  /** An edit away from what the results speak of: the registry, admission, and the table of providers. */
  predicate Elsewhere(e: Edit) {
    var at := e.path + [e.key];
    && at[0] != "backends" && at[0] != "pooling"
    && (at[0] == "discovery" ==> |at| > 1 && at[1] != "providers")
  }

  type OutsideEdit = e: Edit | Elsewhere(e) witness Edit([], "metrics", Null)

  /** The setting of a build. `elsewhere` yields what the remaining variables, path resolution
    * and normalisation write; `others` stands for the remaining checks. */
  datatype Site = Site(env: Env, home: Home, elsewhere: Fields -> seq<OutsideEdit>, others: Fields -> bool)

  /** Everything a build reads besides the defaults. */
  datatype World = World(file: File, site: Site)

  /** `Unwritable`: a write goes below something that is not a mapping, and throws. */
  datatype Failure = Unreadable | BadDocument(problems: set<Document.Problem>) | NvidiaRemoved | Unwritable | Invalid

  // ----- the stages -----

  function Section(cfg: Fields, outer: string, inner: string): Option<Value> {
    if outer in cfg then Field(cfg[outer], inner) else None
  }

  function BackendIds(cfg: Fields): set<string> {
    if "backends" in cfg && cfg["backends"].Obj? then cfg["backends"].fields.Keys else {}
  }

  /** Providers among `ids` that are mappings without a serving backend are switched off. */
  function SwitchOff(providers: Fields, ids: set<string>): Fields {
    map id | id in providers ::
      if id in ids && providers[id].Obj? then Obj(providers[id].fields["enabled" := Bool(false)]) else providers[id]
  }

  function WithProviders(cfg: Fields, ids: set<string>): Fields {
    match Section(cfg, "discovery", "providers")
    case Some(Obj(p)) =>
      cfg["discovery" := Obj(cfg["discovery"].fields["providers" := Obj(SwitchOff(p, ids))])]
    case _ => cfg
  }

  function DisableOrphans(cfg: Fields): Fields {
    match Section(cfg, "discovery", "providers")
    case Some(Obj(p)) => WithProviders(cfg, p.Keys - BackendIds(cfg))
    case _ => cfg
  }

  function WithEnv(f: Fields, env: Env): Fields {
    var f1 := if env.target != "" then f["url" := Str(env.target)] else f;
    if env.keyEnv != "" then f1["api_key_env" := Str(env.keyEnv)] else f1
  }

  function ApplyEnv(cfg: Fields, env: Env): Option<Fields> {
    if env.target == "" && env.keyEnv == "" then Some(cfg)
    else match Section(cfg, "backends", "nvidia")
      case Some(Obj(f)) => Some(cfg["backends" := Obj(cfg["backends"].fields["nvidia" := Obj(WithEnv(f, env))])])
      case _ => None
  }

  /** A leading `~/` is the home directory. */
  function Expand(home: Home, path: string): string {
    if "~/" <= path then home(path[2..]) else path
  }

  function ExpandEntry(home: Home, v: Value): Value {
    match Field(v, "credentials_path")
    case Some(Str(path)) => Obj(v.fields["credentials_path" := Str(Expand(home, path))])
    case _ => v
  }

  /** The registry once the entries `ids` have been gone through. */
  function ExpandSome(home: Home, registry: Fields, ids: set<string>): Fields {
    map id | id in registry :: if id in ids then ExpandEntry(home, registry[id]) else registry[id]
  }

  function WithRegistry(cfg: Fields, registry: Fields): Fields {
    cfg["backends" := Obj(registry)]
  }

  function ExpandPaths(cfg: Fields, home: Home): Fields {
    if "backends" in cfg && cfg["backends"].Obj?
    then WithRegistry(cfg, ExpandSome(home, cfg["backends"].fields, cfg["backends"].fields.Keys)) else cfg
  }

  function Edited(cfg: Fields, edits: seq<OutsideEdit>): Option<Fields> {
    if edits == [] then Some(cfg)
    else
      match Edited(cfg, edits[..|edits| - 1])
      case None => None
      case Some(now) =>
        var e := edits[|edits| - 1];
        if Leads(now, e.path) then Some(SetAt(now, e.path, e.key, e.value)) else None
  }

  predicate ProvidersOk(cfg: Fields) {
    match Section(cfg, "discovery", "providers")
    case Some(Obj(p)) => forall id | id in p :: Field(p[id], "enabled").Some? && Field(p[id], "enabled").value.Bool?
    case _ => true
  }

  predicate PerBackendOk(cfg: Fields) {
    match Section(cfg, "pooling", "per_backend")
    case Some(Obj(p)) => p.Keys <= BackendIds(cfg)
    case _ => true
  }

  ghost predicate CapacityOk(cfg: Fields, removed: set<string>) {
    match Section(cfg, "pooling", "capacity_domains")
    case None => true
    case Some(Null) => true
    case Some(Obj(domains)) => WellFormed(domains, Routes(BackendIds(cfg), removed))
    case _ => false
  }

  ghost predicate Accepted(cfg: Fields, removed: set<string>, others: Fields -> bool) {
    ProvidersOk(cfg) && PerBackendOk(cfg) && CapacityOk(cfg, removed) && others(cfg)
  }

  /** The shape of the compiled-in defaults. */
  predicate DefaultsOk(defaults: Fields) {
    && Writable(Obj(defaults))
    && "backends" in defaults && defaults["backends"].Obj?
    && forall id | id in defaults["backends"].fields :: defaults["backends"].fields[id].Obj?
  }

  function LoadDocument(defaults: Fields, file: File): Result<Merged, Failure>
    requires DefaultsOk(defaults)
  {
    match file
    case Absent => Ok(Merged(defaults, {}))
    case Unparsable => Err(Unreadable)
    case Parsed(doc) => MergeRoot(defaults, RootOf(doc))
  }

  function MergeRoot(defaults: Fields, doc: Value): Result<Merged, Failure>
    requires DefaultsOk(defaults)
  {
    match MergeDocument(defaults["backends"].fields, defaults, doc)
    case Ok(m) => Ok(m)
    case Err(p) => Err(BadDocument(p))
  }

  /** The configuration a build yields. It depends on the defaults and the world alone. */
  ghost function Build(defaults: Fields, w: World): Result<Fields, Failure>
    requires DefaultsOk(defaults)
  {
    match LoadDocument(defaults, w.file)
    case Err(e) => Err(e)
    case Ok(m) => Finish(m, w.site)
  }

  /** Everything after the document has been merged. */
  ghost function Finish(m: Merged, site: Site): Result<Fields, Failure> {
    if ApplyEnv(DisableOrphans(m.cfg), site.env).None? then Err(NvidiaRemoved)
    else Written(Prepared(m, site), m.removed, site)
  }

  /** The configuration after the document, the orphan rule, the variables and path expansion. */
  function Prepared(m: Merged, site: Site): Fields
    requires ApplyEnv(DisableOrphans(m.cfg), site.env).Some?
  {
    ExpandPaths(ApplyEnv(DisableOrphans(m.cfg), site.env).value, site.home)
  }

  ghost function Written(prepared: Fields, removed: set<string>, site: Site): Result<Fields, Failure> {
    match Edited(prepared, site.elsewhere(prepared))
    case None => Err(Unwritable)
    case Some(cfg) => if Accepted(cfg, removed, site.others) then Ok(cfg) else Err(Invalid)
  }

  // ----- what an accepted configuration guarantees -----

  /** The registry the document declares, if it declares one. */
  function Declared(file: File): Option<Fields> {
    match file
    case Parsed(Obj(doc)) => if "backends" in doc && doc["backends"].Obj? then Some(doc["backends"].fields) else None
    case _ => None
  }

  predicate SwitchedOff(entry: Value) {
    Field(entry, "enabled") == Some(Bool(false))
  }

  /** Built-in ids the document omits, and ids it switches off. */
  function Withdrawn(builtin: Fields, declared: Fields): set<string> {
    (builtin.Keys - declared.Keys) + set id | id in declared && SwitchedOff(declared[id])
  }

  /** The default of that name overlaid by the entry, with the variables that address it. */
  function Plain(builtin: Fields, id: string, entry: Value, env: Env): Value {
    var merged := Overlay(if id in builtin then builtin[id] else Obj(map[]), entry);
    if id == "nvidia" && merged.Obj? then Obj(WithEnv(merged.fields, env)) else merged
  }

  lemma EnvKeepsEverythingElse(cfg: Fields, env: Env)
    requires ApplyEnv(cfg, env).Some?
    ensures var after := ApplyEnv(cfg, env).value;
      && after.Keys == cfg.Keys && BackendIds(after) == BackendIds(cfg)
      && forall k | k in cfg && k != "backends" :: after[k] == cfg[k]
  {
  }

  /** Expanding paths touches nothing but `credentials_path` of registry entries. */
  lemma PathsKeepEverythingElse(cfg: Fields, home: Home)
    ensures var after := ExpandPaths(cfg, home);
      && after.Keys == cfg.Keys && BackendIds(after) == BackendIds(cfg)
      && (forall k | k in cfg && k != "backends" :: after[k] == cfg[k])
      && (forall id | id in BackendIds(cfg) ::
            after["backends"].fields[id] == ExpandEntry(home, cfg["backends"].fields[id]))
  {
  }

  /** An entry's credentials path that expansion changes. */
  predicate Expands(home: Home, v: Value) {
    match Field(v, "credentials_path")
    case Some(Str(path)) => Expand(home, path) != path
    case _ => false
  }

  lemma EntryIsKeptIff(home: Home, v: Value)
    ensures ExpandEntry(home, v) == v <==> !Expands(home, v)
  {
    if v.Obj? && "credentials_path" in v.fields {
      assert v.fields["credentials_path" := v.fields["credentials_path"]] == v.fields;
      if Expands(home, v) {
        assert ExpandEntry(home, v).fields["credentials_path"] != v.fields["credentials_path"];
      }
    }
  }

  /** The parts of a configuration the results speak of. */
  predicate SameCore(a: Fields, b: Fields) {
    && (if "backends" in a then "backends" in b && a["backends"] == b["backends"] else "backends" !in b)
    && (if "pooling" in a then "pooling" in b && a["pooling"] == b["pooling"] else "pooling" !in b)
    && Section(a, "discovery", "providers") == Section(b, "discovery", "providers")
  }

  lemma {:induction false} EditsKeepTheCore(cfg: Fields, edits: seq<OutsideEdit>)
    requires Edited(cfg, edits).Some?
    ensures SameCore(cfg, Edited(cfg, edits).value)
  {
    if edits != [] {
      var n := |edits| - 1;
      EditsKeepTheCore(cfg, edits[..n]);
      OneEditKeepsTheCore(Edited(cfg, edits[..n]).value, edits[n]);
    }
  }

  lemma OneEditKeepsTheCore(cfg: Fields, e: OutsideEdit)
    requires Leads(cfg, e.path)
    ensures SameCore(cfg, SetAt(cfg, e.path, e.key, e.value))
  {
    var at := e.path + [e.key];
    if e.path == [] {
      assert at[0] == e.key;
    } else {
      assert at[0] == e.path[0];
      assert |e.path| == 1 ==> at[1] == e.key;
      assert |e.path| > 1 ==> at[1] == e.path[1] == e.path[1..][0];
    }
  }

  lemma BuildStages(defaults: Fields, w: World, cfg: Fields) returns (m: Merged)
    requires DefaultsOk(defaults) && Build(defaults, w) == Ok(cfg)
    ensures LoadDocument(defaults, w.file) == Ok(m)
    ensures ApplyEnv(DisableOrphans(m.cfg), w.site.env).Some? && Accepted(cfg, m.removed, w.site.others)
    ensures Edited(Prepared(m, w.site), w.site.elsewhere(Prepared(m, w.site))) == Some(cfg)
    ensures SameCore(Prepared(m, w.site), cfg) && BackendIds(cfg) == BackendIds(Prepared(m, w.site))
  {
    EditsKeepTheCore(Prepared(LoadDocument(defaults, w.file).value, w.site),
      w.site.elsewhere(Prepared(LoadDocument(defaults, w.file).value, w.site)));
    m := LoadDocument(defaults, w.file).value;
  }

  /** Every provider still enabled has a backend to serve its models. */
  lemma EnabledProvidersAreServed(defaults: Fields, w: World, cfg: Fields, id: string)
    requires DefaultsOk(defaults) && Build(defaults, w) == Ok(cfg)
    requires Section(cfg, "discovery", "providers").Some? && Section(cfg, "discovery", "providers").value.Obj?
    requires var p := Section(cfg, "discovery", "providers").value.fields;
      id in p && Field(p[id], "enabled") == Some(Bool(true))
    ensures id in BackendIds(cfg)
  {
    var m := BuildStages(defaults, w, cfg);
    var before := DisableOrphans(m.cfg);
    EnvKeepsEverythingElse(before, w.site.env);
    PathsKeepEverythingElse(ApplyEnv(before, w.site.env).value, w.site.home);
    assert BackendIds(before) == BackendIds(m.cfg);
  }

  lemma LoadedRegistry(defaults: Fields, file: File, m: Merged)
    requires DefaultsOk(defaults) && LoadDocument(defaults, file) == Ok(m) && Declared(file).Some?
    ensures var declared, builtin := Declared(file).value, defaults["backends"].fields;
      && "backends" in m.cfg && m.cfg["backends"] == Obj(ActiveBackends(builtin, declared))
      && m.removed == RemovedIds(builtin, declared) && Problems(builtin, declared) == {}
    ensures forall id | id in defaults["backends"].fields :: Writable(defaults["backends"].fields[id])
  {
    assert Writable(defaults["backends"]);
  }

  lemma EnvOnRegistry(cfg: Fields, env: Env, after: Fields, id: string)
    requires ApplyEnv(cfg, env) == Some(after) && id in BackendIds(cfg)
    ensures "backends" in after && after["backends"].Obj? && id in after["backends"].fields
    ensures after["backends"].fields[id] ==
      var f := cfg["backends"].fields[id];
      if id == "nvidia" && f.Obj? then Obj(WithEnv(f.fields, env)) else f
  {
    if env.target == "" && env.keyEnv == "" && cfg["backends"].fields[id].Obj? {
      assert WithEnv(cfg["backends"].fields[id].fields, env) == cfg["backends"].fields[id].fields;
    }
  }

  /** The declared registry is the whole registry. */
  lemma RegistryIsWhatWasDeclared(defaults: Fields, w: World, cfg: Fields)
    requires DefaultsOk(defaults) && Build(defaults, w) == Ok(cfg) && Declared(w.file).Some?
    ensures var declared, builtin := Declared(w.file).value, defaults["backends"].fields;
      && BackendIds(cfg) == (set id | id in declared && !SwitchedOff(declared[id]))
      && (forall id | id in BackendIds(cfg) ::
            cfg["backends"].fields[id] == ExpandEntry(w.site.home, Plain(builtin, id, declared[id], w.site.env)))
      && BackendIds(cfg) !! Withdrawn(builtin, declared)
      && builtin.Keys <= BackendIds(cfg) + Withdrawn(builtin, declared)
  {
    var m := BuildStages(defaults, w, cfg);
    var declared, builtin := Declared(w.file).value, defaults["backends"].fields;
    LoadedRegistry(defaults, w.file, m);
    RegistryAfterMerge(builtin, declared);
    var before := DisableOrphans(m.cfg);
    assert before["backends"] == m.cfg["backends"];
    EnvKeepsEverythingElse(before, w.site.env);
    var applied := ApplyEnv(before, w.site.env).value;
    PathsKeepEverythingElse(applied, w.site.home);
    forall id | id in BackendIds(cfg)
      ensures cfg["backends"].fields[id] == ExpandEntry(w.site.home, Plain(builtin, id, declared[id], w.site.env))
    {
      EnvOnRegistry(before, w.site.env, applied, id);
    }
  }

  /** An active entry is its default overlaid by the declared one exactly when it has no
    * credentials path that expansion changes. */
  lemma EntryIsPlainIff(defaults: Fields, w: World, cfg: Fields, id: string)
    requires DefaultsOk(defaults) && Build(defaults, w) == Ok(cfg) && Declared(w.file).Some? && id in BackendIds(cfg)
    ensures id in Declared(w.file).value
    ensures var plain := Plain(defaults["backends"].fields, id, Declared(w.file).value[id], w.site.env);
      cfg["backends"].fields[id] == plain <==> !Expands(w.site.home, plain)
  {
    RegistryIsWhatWasDeclared(defaults, w, cfg);
    EntryIsKeptIff(w.site.home, Plain(defaults["backends"].fields, id, Declared(w.file).value[id], w.site.env));
  }

  lemma SomethingRejected(builtin: Fields, declared: Fields, id: string)
    requires id in declared && ReadEntry(builtin, id, declared[id]).Rejected?
    ensures Problems(builtin, declared) != {}
  {
    assert ReadEntry(builtin, id, declared[id]).problem in Problems(builtin, declared);
  }

  lemma NothingRejected(builtin: Fields, declared: Fields, id: string)
    requires Problems(builtin, declared) == {} && id in declared
    ensures !ReadEntry(builtin, id, declared[id]).Rejected?
    ensures ReadEntry(builtin, id, declared[id]).Disabled? <==> SwitchedOff(declared[id])
    ensures declared[id].Obj?
  {
    if ReadEntry(builtin, id, declared[id]).Rejected? {
      SomethingRejected(builtin, declared, id);
    }
  }

  /** What one declared entry comes to when nothing is rejected. */
  lemma EntryAfterMerge(builtin: Fields, declared: Fields, id: string)
    requires forall k | k in builtin :: builtin[k].Obj? && Writable(builtin[k])
    requires Problems(builtin, declared) == {} && id in declared
    ensures var e := ReadEntry(builtin, id, declared[id]);
      && declared[id].Obj?
      && (e.Active? <==> !SwitchedOff(declared[id])) && (e.Disabled? <==> SwitchedOff(declared[id]))
      && (e.Active? ==> Obj(e.fields) == Overlay(if id in builtin then builtin[id] else Obj(map[]), declared[id]))
  {
    NothingRejected(builtin, declared, id);
    if id in builtin {
      CloneIsFaithfulIff(builtin[id]);
      assert Inherited(builtin, id) == builtin[id].fields;
    }
  }

  lemma RegistryAfterMerge(builtin: Fields, declared: Fields)
    requires forall id | id in builtin :: builtin[id].Obj? && Writable(builtin[id])
    requires Problems(builtin, declared) == {}
    ensures var active := ActiveBackends(builtin, declared);
      && active.Keys == (set id | id in declared && !SwitchedOff(declared[id]))
      && (forall id | id in active ::
            declared[id].Obj? && active[id] == Overlay(if id in builtin then builtin[id] else Obj(map[]), declared[id]))
    ensures RemovedIds(builtin, declared) == Withdrawn(builtin, declared)
  {
    forall id | id in declared
      ensures var e := ReadEntry(builtin, id, declared[id]);
        && declared[id].Obj?
        && (e.Active? <==> !SwitchedOff(declared[id])) && (e.Disabled? <==> SwitchedOff(declared[id]))
        && (e.Active? ==> Obj(e.fields) == Overlay(if id in builtin then builtin[id] else Obj(map[]), declared[id]))
    {
      EntryAfterMerge(builtin, declared, id);
    }
  }

  /** No admission limit and no capacity domain refers to a backend that was taken away. */
  lemma NothingRefersToWithdrawn(defaults: Fields, w: World, cfg: Fields)
    requires DefaultsOk(defaults) && Build(defaults, w) == Ok(cfg) && Declared(w.file).Some?
    ensures var gone := Withdrawn(defaults["backends"].fields, Declared(w.file).value);
      && (match Section(cfg, "pooling", "per_backend") case Some(Obj(p)) => p.Keys !! gone case _ => true)
      && (match Section(cfg, "pooling", "capacity_domains")
          case Some(Obj(domains)) =>
            forall d, route | d in domains && Str(route) in Members(domains[d]) :: ConfiguredId(route) !in gone
          case _ => true)
  {
    var m := BuildStages(defaults, w, cfg);
    var declared, builtin := Declared(w.file).value, defaults["backends"].fields;
    RegistryIsWhatWasDeclared(defaults, w, cfg);
    LoadedRegistry(defaults, w.file, m);
    RegistryAfterMerge(builtin, declared);
    assert m.removed == Withdrawn(builtin, declared);
    match Section(cfg, "pooling", "capacity_domains")
    case Some(Obj(domains)) =>
      forall d, route | d in domains && Str(route) in Members(domains[d])
        ensures ConfiguredId(route) !in m.removed
      {
        AcceptedNameNoRemoved(domains[d], Routes(BackendIds(cfg), m.removed), d, route);
      }
    case _ =>
  }

  // ----- the same stages, in place -----

  /** The providers to switch off, or nothing when there is no provider table. */
  function OrphanIds(cfg: Fields): set<string> {
    match Section(cfg, "discovery", "providers")
    case Some(Obj(p)) => set id | id in p && id !in BackendIds(cfg) && p[id].Obj?
    case _ => {}
  }

  method FindOrphans(cfg: JsObject) returns (ids: set<string>)
    requires cfg.Valid() && Leads(cfg.View(), ["backends"])
    ensures ids == OrphanIds(cfg.View())
  {
    Shape(cfg, "discovery");
    Shape(cfg, "backends");
    if "discovery" !in cfg.fields || cfg.fields["discovery"].Leaf? {
      return {};
    }
    var discovery := cfg.fields["discovery"].o;
    Shape(discovery, "providers");
    if "providers" !in discovery.fields || discovery.fields["providers"].Leaf? {
      return {};
    }
    var providers, active := discovery.fields["providers"].o, cfg.fields["backends"].o.fields.Keys;
    ids := set id | id in providers.fields && id !in active && providers.fields[id].Node?;
    forall id | id in providers.fields
      ensures id in providers.View() && (providers.View()[id].Obj? <==> providers.fields[id].Node?)
    {
      Shape(providers, id);
    }
  }

  method DisableOrphansInPlace(cfg: JsObject)
    requires cfg.Valid() && Leads(cfg.View(), ["backends"])
    modifies cfg.repr
    ensures cfg.Valid() && cfg.repr == old(cfg.repr)
    ensures cfg.View() == DisableOrphans(old(cfg.View())) && Leads(cfg.View(), ["backends"])
  {
    ghost var before := cfg.View();
    var todo := FindOrphans(cfg);
    SwitchEnds(before);
    while todo != {}
      invariant cfg.Valid() && cfg.repr == old(cfg.repr) && todo <= OrphanIds(before)
      invariant cfg.View() == WithProviders(before, OrphanIds(before) - todo)
    {
      var id :| id in todo;
      SwitchOneOff(before, OrphanIds(before) - todo, id);
      assert OrphanIds(before) - todo + {id} == OrphanIds(before) - (todo - {id});
      SetPath(cfg, ["discovery", "providers", id], "enabled", Bool(false));
      todo := todo - {id};
    }
  }

  lemma SwitchEnds(cfg: Fields)
    ensures WithProviders(cfg, OrphanIds(cfg) - OrphanIds(cfg)) == cfg
    ensures WithProviders(cfg, OrphanIds(cfg) - {}) == DisableOrphans(cfg)
  {
    match Section(cfg, "discovery", "providers")
    case Some(Obj(p)) =>
      assert SwitchOff(p, OrphanIds(cfg) - OrphanIds(cfg)) == p;
      assert SwitchOff(p, OrphanIds(cfg) - {}) == SwitchOff(p, p.Keys - BackendIds(cfg));
      var d := cfg["discovery"].fields;
      assert d["providers" := Obj(p)] == d && cfg["discovery" := Obj(d)] == cfg;
    case _ =>
  }

  lemma SwitchOneOff(cfg: Fields, done: set<string>, id: string)
    requires id in OrphanIds(cfg) && id !in done
    ensures Leads(WithProviders(cfg, done), ["discovery", "providers", id])
    ensures SetAt(WithProviders(cfg, done), ["discovery", "providers", id], "enabled", Bool(false))
         == WithProviders(cfg, done + {id})
  {
    var p := cfg["discovery"].fields["providers"].fields;
    var now := WithProviders(cfg, done);
    var d := now["discovery"].fields;
    var q := d["providers"].fields;
    var e := p[id].fields["enabled" := Bool(false)];
    assert q[id := Obj(e)] == SwitchOff(p, done + {id});
    SetAtStep(q, id, [], "enabled", Bool(false));
    SetAtStep(d, "providers", [id], "enabled", Bool(false));
    SetAtStep(now, "discovery", ["providers", id], "enabled", Bool(false));
    assert [id] + [] == [id] && ["providers"] + [id] == ["providers", id];
    assert ["discovery"] + ["providers", id] == ["discovery", "providers", id];
    assert d["providers" := Obj(q[id := Obj(e)])] == cfg["discovery"].fields["providers" := Obj(q[id := Obj(e)])];
  }

  lemma SetAtStep(f: Fields, k: string, rest: Path, key: string, v: Value)
    requires k in f && f[k].Obj? && Leads(f[k].fields, rest)
    ensures Leads(f, [k] + rest)
    ensures SetAt(f, [k] + rest, key, v) == f[k := Obj(SetAt(f[k].fields, rest, key, v))]
  {
    assert ([k] + rest)[1..] == rest;
  }

  /** Returns false when the variables aim at a removed backend. */
  method ApplyEnvInPlace(cfg: JsObject, env: Env) returns (ok: bool)
    requires cfg.Valid() && Leads(cfg.View(), ["backends"])
    modifies cfg.repr
    ensures cfg.Valid() && cfg.repr == old(cfg.repr)
    ensures ok <==> ApplyEnv(old(cfg.View()), env).Some?
    ensures ok ==> cfg.View() == ApplyEnv(old(cfg.View()), env).value
  {
    ghost var before := cfg.View();
    if env.target == "" && env.keyEnv == "" {
      return true;
    }
    Shape(cfg, "backends");
    Shape(cfg.fields["backends"].o, "nvidia");
    var backends := cfg.fields["backends"].o;
    if "nvidia" !in backends.fields || backends.fields["nvidia"].Leaf? {
      return false;
    }
    ghost var f := before["backends"].fields["nvidia"].fields;
    NvidiaPath(before, f, "url", env.target);
    if env.target != "" {
      SetPath(cfg, ["backends", "nvidia"], "url", Str(env.target));
    }
    ghost var between := cfg.View();
    NvidiaPath(between, if env.target != "" then f["url" := Str(env.target)] else f, "api_key_env", env.keyEnv);
    if env.keyEnv != "" {
      SetPath(cfg, ["backends", "nvidia"], "api_key_env", Str(env.keyEnv));
    }
    ok := true;
  }

  function WithNvidia(cfg: Fields, f: Fields): Fields
    requires Leads(cfg, ["backends"])
  {
    cfg["backends" := Obj(cfg["backends"].fields["nvidia" := Obj(f)])]
  }

  lemma NvidiaPath(cfg: Fields, f: Fields, key: string, v: string)
    requires Section(cfg, "backends", "nvidia") == Some(Obj(f))
    ensures Leads(cfg, ["backends", "nvidia"]) && WithNvidia(cfg, f) == cfg
    ensures SetAt(cfg, ["backends", "nvidia"], key, Str(v)) == WithNvidia(cfg, f[key := Str(v)])
    ensures forall f1, f2 ::
      Leads(WithNvidia(cfg, f1), ["backends"]) && WithNvidia(WithNvidia(cfg, f1), f2) == WithNvidia(cfg, f2)
  {
    var b := cfg["backends"].fields;
    SetAtStep(b, "nvidia", [], key, Str(v));
    SetAtStep(cfg, "backends", ["nvidia"], key, Str(v));
    assert ["nvidia"] + [] == ["nvidia"] && ["backends"] + ["nvidia"] == ["backends", "nvidia"];
    assert b["nvidia" := Obj(f)] == b;
    forall f1, f2 ensures WithNvidia(WithNvidia(cfg, f1), f2) == WithNvidia(cfg, f2) {
      assert b["nvidia" := Obj(f1)]["nvidia" := Obj(f2)] == b["nvidia" := Obj(f2)];
    }
  }

  /** Expand the credentials path of one entry, if it has one. */
  method ExpandEntryInPlace(cfg: JsObject, id: string, home: Home)
    requires cfg.Valid() && Leads(cfg.View(), ["backends"]) && id in cfg.View()["backends"].fields
    modifies cfg.repr
    ensures cfg.Valid() && cfg.repr == old(cfg.repr)
    ensures var registry := old(cfg.View())["backends"].fields;
      cfg.View() == WithRegistry(old(cfg.View()), registry[id := ExpandEntry(home, registry[id])])
  {
    ghost var before := cfg.View();
    ghost var registry := before["backends"].fields;
    assert WithRegistry(before, registry[id := registry[id]]) == before by {
      assert registry[id := registry[id]] == registry;
    }
    Shape(cfg, "backends");
    var backends := cfg.fields["backends"].o;
    Shape(backends, id);
    if backends.fields[id].Node? {
      var backend := backends.fields[id].o;
      Shape(backend, "credentials_path");
      if "credentials_path" in backend.fields {
        var slot := backend.fields["credentials_path"];
        if slot.Leaf? && slot.v.Str? {
          var path := Str(Expand(home, slot.v.s));
          EntryPath(before, id, path);
          SetPath(cfg, ["backends", id], "credentials_path", path);
        }
      }
    }
  }

  lemma EntryPath(cfg: Fields, id: string, path: Value)
    requires Leads(cfg, ["backends"]) && id in cfg["backends"].fields && cfg["backends"].fields[id].Obj?
    ensures Leads(cfg, ["backends", id])
    ensures var registry := cfg["backends"].fields;
      SetAt(cfg, ["backends", id], "credentials_path", path)
      == WithRegistry(cfg, registry[id := Obj(registry[id].fields["credentials_path" := path])])
  {
    var registry := cfg["backends"].fields;
    SetAtStep(registry, id, [], "credentials_path", path);
    SetAtStep(cfg, "backends", [id], "credentials_path", path);
    assert [id] + [] == [id] && ["backends"] + [id] == ["backends", id];
  }

  /** Expand the credentials paths of the registry, entry by entry. */
  method ExpandPathsInPlace(cfg: JsObject, home: Home)
    requires cfg.Valid() && Leads(cfg.View(), ["backends"])
    modifies cfg.repr
    ensures cfg.Valid() && cfg.repr == old(cfg.repr)
    ensures cfg.View() == ExpandPaths(old(cfg.View()), home)
  {
    ghost var before := cfg.View();
    ghost var registry := before["backends"].fields;
    Shape(cfg, "backends");
    var todo := cfg.fields["backends"].o.fields.Keys;
    assert todo == registry.Keys;
    ExpandNone(before, home);
    while todo != {}
      invariant cfg.Valid() && cfg.repr == old(cfg.repr) && todo <= registry.Keys
      invariant cfg.View() == WithRegistry(before, ExpandSome(home, registry, registry.Keys - todo))
    {
      var id :| id in todo;
      ExpandOneMore(before, home, todo, id);
      ExpandEntryInPlace(cfg, id, home);
      todo := todo - {id};
    }
    assert registry.Keys - todo == registry.Keys;
  }

  lemma ExpandNone(cfg: Fields, home: Home)
    requires Leads(cfg, ["backends"])
    ensures var registry := cfg["backends"].fields;
      WithRegistry(cfg, ExpandSome(home, registry, registry.Keys - registry.Keys)) == cfg
  {
    var registry := cfg["backends"].fields;
    assert ExpandSome(home, registry, registry.Keys - registry.Keys) == registry;
  }

  lemma ExpandOneMore(cfg: Fields, home: Home, todo: set<string>, id: string)
    requires Leads(cfg, ["backends"]) && id in todo && todo <= cfg["backends"].fields.Keys
    ensures var registry := cfg["backends"].fields;
      var now := ExpandSome(home, registry, registry.Keys - todo);
      && Leads(WithRegistry(cfg, now), ["backends"]) && WithRegistry(cfg, now)["backends"].fields == now && id in now
      && WithRegistry(WithRegistry(cfg, now), now[id := ExpandEntry(home, now[id])])
         == WithRegistry(cfg, ExpandSome(home, registry, registry.Keys - (todo - {id})))
  {
    var registry := cfg["backends"].fields;
    var now := ExpandSome(home, registry, registry.Keys - todo);
    assert now[id := ExpandEntry(home, now[id])] == ExpandSome(home, registry, registry.Keys - (todo - {id}));
  }

  /** The checks that decide whether the candidate may become active. */
  method Validate(cfg: Fields, removed: set<string>, others: Fields -> bool) returns (ok: bool)
    ensures ok <==> Accepted(cfg, removed, others)
  {
    ok := ProvidersOk(cfg) && PerBackendOk(cfg) && others(cfg);
    match Section(cfg, "pooling", "capacity_domains")
    case None =>
    case Some(Null) =>
    case Some(Obj(domains)) =>
      var errs, _ := CheckDomains(domains, Routes(BackendIds(cfg), removed), []);
      ok := ok && errs == [];
    case Some(_) => ok := false;
  }

  /** What the loader finds at the configured path. */
  datatype OnDisk = Nothing | Garbled | Tree(doc: Slot) {
    ghost function Repr(): set<JsObject>
      reads if Tree? then doc.Root() else {}
    {
      if Tree? then doc.Repr() else {}
    }

    ghost predicate Valid()
      reads if Tree? then doc.Root() + doc.Repr() else {}
    {
      Tree? ==> doc.Valid()
    }

    ghost function View(): File
      requires Valid()
      reads if Tree? then doc.Root() + doc.Repr() else {}
    {
      match this
      case Nothing => Absent
      case Garbled => Unparsable
      case Tree(doc) => Parsed(doc.View())
    }
  }

  method CloneDefaults(defaults: JsObject) returns (base: JsObject)
    requires defaults.Valid() && DefaultsOk(defaults.View())
    ensures base.Valid() && fresh(base.repr) && base.View() == defaults.View()
  {
    CloneIsFaithfulIff(Obj(defaults.View()));
    base := DeepClone(defaults);
  }

  method LoadRoot(defaults: JsObject, doc: Slot) returns (base: JsObject, r: Result<set<string>, Failure>)
    requires defaults.Valid() && DefaultsOk(defaults.View())
    requires doc.Valid() && doc.Repr() !! defaults.repr
    ensures base.Valid() && forall x | x in base.repr :: x in doc.Repr() || fresh(x)
    ensures Loads(MergeRoot(old(defaults.View()), old(doc.View())), r, base.View())
  {
    base := CloneDefaults(defaults);
    var merged := MergeConfigDocument(defaults, base, doc);
    r := match merged
      case Ok(removed) => Ok(removed)
      case Err(p) => Err(BadDocument(p));
  }

  predicate Loads(want: Result<Merged, Failure>, got: Result<set<string>, Failure>, cfg: Fields) {
    match want
    case Ok(m) => got == Ok(m.removed) && cfg == m.cfg
    case Err(e) => got == Err(e)
  }

  /** Clone the defaults and lay the document, if there is one, over the clone. */
  method LoadInPlace(defaults: JsObject, file: OnDisk) returns (base: JsObject, r: Result<set<string>, Failure>)
    requires defaults.Valid() && DefaultsOk(defaults.View())
    requires file.Valid() && file.Repr() !! defaults.repr
    ensures base.Valid() && forall x | x in base.repr :: x in file.Repr() || fresh(x)
    ensures Loads(LoadDocument(old(defaults.View()), old(file.View())), r, base.View())
  {
    match file
    case Nothing =>
      base := CloneDefaults(defaults);
      r := Ok({});
    case Garbled =>
      base := CloneDefaults(defaults);
      r := Err(Unreadable);
    case Tree(parsed) =>
      base, r := LoadTree(defaults, parsed);
  }

  /** An empty file reads as an empty mapping. */
  function RootOf(v: Value): Value {
    if v.Null? then Obj(map[]) else v
  }

  method ReadRoot(parsed: Slot) returns (doc: Slot)
    requires parsed.Valid()
    ensures doc.Valid() && doc.View() == RootOf(parsed.View())
    ensures forall x | x in doc.Repr() :: x in parsed.Repr() || fresh(x)
  {
    doc := parsed;
    if parsed.Leaf? && parsed.v.Null? {
      var empty := new JsObject();
      doc := Node(empty);
    }
  }

  method LoadTree(defaults: JsObject, parsed: Slot) returns (base: JsObject, r: Result<set<string>, Failure>)
    requires defaults.Valid() && DefaultsOk(defaults.View())
    requires parsed.Valid() && parsed.Repr() !! defaults.repr
    ensures base.Valid() && forall x | x in base.repr :: x in parsed.Repr() || fresh(x)
    ensures Loads(MergeRoot(old(defaults.View()), RootOf(old(parsed.View()))), r, base.View())
  {
    var doc := ReadRoot(parsed);
    base, r := LoadRoot(defaults, doc);
  }

  /** Write elsewhere. Returns false when something in the way is not a mapping. */
  method EditInPlace(cfg: JsObject, edits: seq<OutsideEdit>) returns (ok: bool)
    requires cfg.Valid()
    modifies cfg.repr
    ensures cfg.Valid() && forall x | x in cfg.repr :: x in old(cfg.repr) || fresh(x)
    ensures Edited(old(cfg.View()), edits).Some? ==> ok && cfg.View() == Edited(old(cfg.View()), edits).value
    ensures ok ==> Edited(old(cfg.View()), edits).Some?
  {
    ghost var before := cfg.View();
    ok := true;
    for i := 0 to |edits|
      invariant cfg.Valid() && forall x | x in cfg.repr :: x in old(cfg.repr) || fresh(x)
      invariant ok && Edited(before, edits[..i]) == Some(cfg.View())
    {
      var e := edits[i];
      OneEditMore(before, edits, i);
      if !Leads(cfg.View(), e.path) {
        return false;
      }
      PlantAt(cfg, e.path, e.key, e.value);
    }
    assert edits[..|edits|] == edits;
  }

  lemma OneEditMore(cfg: Fields, edits: seq<OutsideEdit>, i: nat)
    requires i < |edits| && Edited(cfg, edits[..i]).Some?
    ensures var now, e := Edited(cfg, edits[..i]).value, edits[i];
      Edited(cfg, edits[..i + 1]) == if Leads(now, e.path) then Some(SetAt(now, e.path, e.key, e.value)) else None
    ensures !Leads(Edited(cfg, edits[..i]).value, edits[i].path) ==> Edited(cfg, edits).None?
  {
    assert edits[..i + 1][..i] == edits[..i];
    if !Leads(Edited(cfg, edits[..i]).value, edits[i].path) {
      NeverEdited(cfg, edits, i + 1);
    }
  }

  lemma {:induction false} NeverEdited(cfg: Fields, edits: seq<OutsideEdit>, i: nat)
    requires i <= |edits| && Edited(cfg, edits[..i]).None?
    ensures Edited(cfg, edits).None?
    decreases |edits|
  {
    if i == |edits| {
      assert edits[..i] == edits;
    } else {
      assert edits[..|edits| - 1][..i] == edits[..i];
      NeverEdited(cfg, edits[..|edits| - 1], i);
    }
  }

  /** The stages between the document and the remaining writes. */
  method PrepareInPlace(cfg: JsObject, ghost removed: set<string>, site: Site) returns (ok: bool)
    requires cfg.Valid() && Leads(cfg.View(), ["backends"])
    modifies cfg.repr
    ensures cfg.Valid() && cfg.repr == old(cfg.repr)
    ensures ok <==> ApplyEnv(DisableOrphans(old(cfg.View())), site.env).Some?
    ensures ok ==> cfg.View() == Prepared(Merged(old(cfg.View()), removed), site)
  {
    DisableOrphansInPlace(cfg);
    ok := ApplyEnvInPlace(cfg, site.env);
    if ok {
      ExpandPathsInPlace(cfg, site.home);
    }
  }

  /** The remaining writes, and the decision. */
  method WriteAndCheck(cfg: JsObject, removed: set<string>, site: Site) returns (failed: Option<Failure>)
    requires cfg.Valid()
    modifies cfg.repr
    ensures cfg.Valid() && forall x | x in cfg.repr :: x in old(cfg.repr) || fresh(x)
    ensures Written(old(cfg.View()), removed, site) == if failed.Some? then Err(failed.value) else Ok(cfg.View())
  {
    var written := EditInPlace(cfg, site.elsewhere(cfg.View()));
    if !written {
      return Some(Unwritable);
    }
    var valid := Validate(cfg.View(), removed, site.others);
    failed := if valid then None else Some(Invalid);
  }

  method FinishInPlace(cfg: JsObject, removed: set<string>, site: Site) returns (failed: Option<Failure>)
    requires cfg.Valid() && Leads(cfg.View(), ["backends"])
    modifies cfg.repr
    ensures cfg.Valid() && forall x | x in cfg.repr :: x in old(cfg.repr) || fresh(x)
    ensures Finish(Merged(old(cfg.View()), removed), site) == if failed.Some? then Err(failed.value) else Ok(cfg.View())
  {
    var prepared := PrepareInPlace(cfg, removed, site);
    if !prepared {
      return Some(NvidiaRemoved);
    }
    failed := WriteAndCheck(cfg, removed, site);
  }

  /** One build. Whatever happens, the defaults are left as they were. */
  method ReadAndBuild(defaults: JsObject, file: OnDisk, site: Site)
    returns (r: Result<JsObject, Failure>)
    requires defaults.Valid() && DefaultsOk(defaults.View())
    requires file.Valid() && file.Repr() !! defaults.repr
    modifies file.Repr()
    ensures Kept(defaults)
    ensures Built(Build(old(defaults.View()), World(old(file.View()), site)), r)
    ensures r.Ok? ==> forall x | x in r.value.repr :: x in old(file.Repr()) || fresh(x)
  {
    var base, merged := LoadInPlace(defaults, file);
    if merged.Err? {
      Framed(defaults);
      return Err(merged.error);
    }
    BackendsStay(defaults.View(), old(file.View()), Merged(base.View(), merged.value));
    var failed := FinishInPlace(base, merged.value, site);
    Framed(defaults);
    r := if failed.Some? then Err(failed.value) else Ok(base);
  }

  ghost predicate Built(want: Result<Fields, Failure>, got: Result<JsObject, Failure>)
    reads if got.Ok? then {got.value} + got.value.repr else {}
  {
    match want
    case Ok(cfg) => got.Ok? && got.value.Valid() && got.value.View() == cfg
    case Err(e) => got == Err(e)
  }

  lemma BackendsStay(defaults: Fields, file: File, m: Merged)
    requires DefaultsOk(defaults) && LoadDocument(defaults, file) == Ok(m)
    ensures Leads(m.cfg, ["backends"])
  {
  }
}
