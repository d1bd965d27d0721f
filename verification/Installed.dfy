/** What a deploy or rollback leaves and reports, said of its inputs and its tools' answers alone. */
module Installed {
  import opened Json
  import opened Deploy
  import opened DeployRuns

  // ----- names -----

  lemma NamesAre(i: string)
    ensures UnitName(Main, i) == "skgateway-" + i + ".service"
    ensures UnitName(Shadow, i) == "skgateway-shadow-" + i + ".service"
    ensures UnitName(Socket, i) == "skgateway-ingress-" + i + ".socket"
    ensures UnitName(Proxy, i) == "skgateway-ingress-" + i + ".service"
    ensures UnitName(Canary, i) == "skgateway-canary-" + i + ".service"
    ensures HealthName(i) == "canary-" + i + "-health"
  {
    NamedAs(Main, i, "skgateway-", ".service");
    NamedAs(Shadow, i, "skgateway-shadow-", ".service");
    NamedAs(Socket, i, "skgateway-ingress-", ".socket");
    NamedAs(Proxy, i, "skgateway-ingress-", ".service");
    NamedAs(Canary, i, "skgateway-canary-", ".service");
    Associate("canary-", i, "-health");
  }

  lemma NamedAs(k: Kind, i: string, prefix: string, suffix: string)
    requires prefix == "skgateway-" + Infix(k) && suffix == Suffix(k)
    ensures UnitName(k, i) == prefix + i + suffix
  {
    Named(Infix(k), i, suffix);
  }

  lemma Named(infix: string, i: string, suffix: string)
    ensures "skgateway-" + (infix + (i + suffix)) == ("skgateway-" + infix) + i + suffix
  {
    Associate(infix, i, suffix);
    Associate("skgateway-", infix + i, suffix);
    Associate("skgateway-", infix, i);
  }

  // ----- instance.env -----

  predicate On(env: EnvFile, key: Key) {
    key in env && env[key] == "1"
  }

  /** The value of a key, or "" when it is missing. */
  function Raw(env: EnvFile, key: Key): string {
    if key in env then env[key] else ""
  }

  function Or(s: string, default: string): string {
    if s == "" then default else s
  }

  predicate Complete(env: EnvFile) {
    && (On(env, SHADOW_ENABLED) ==> SHADOW_PORT in env)
    && (On(env, CANARY) ==> CANARY_LOCAL_PORT in env && CANARY_REMOTE_HOST in env && CANARY_REMOTE_PORT in env)
  }

  /** No secrets method is given, or it is `none`. */
  predicate InTheClear(env: EnvFile) {
    SECRETS_METHOD !in env || env[SECRETS_METHOD] == "none"
  }

  predicate SecretsReadable(env: EnvFile) {
    || InTheClear(env)
    || (env[SECRETS_METHOD] == "ansible-vault" && VAULT_PASSWORD_FILE in env)
    || env[SECRETS_METHOD] == "sops"
  }

  // ----- how far a deploy gets -----

  predicate NameChar(c: char) {
    'a' <= c <= 'z' || 'A' <= c <= 'Z' || '0' <= c <= '9' || c == '_' || c == '-'
  }

  /** Every check passes. */
  predicate Checked(req: Request, a: Answers) {
    && req.instance != "" && (forall i | 0 <= i < |req.instance| :: NameChar(req.instance[i]))
    && req.release != "" && req.repoDir != ""
    && a.instanceDir && a.repoClean && a.configFile && a.secretsFile.Some?
    && a.tagExists && a.mainExists && a.merged
    && a.env.Some?
    && var env := a.env.value;
      && PORT in env && RELEASE in env && (req.force || req.release == env[RELEASE])
      && CONFIG_SCHEMA in env && env[CONFIG_SCHEMA] != ""
      && (forall i | 0 <= i < |env[CONFIG_SCHEMA]| :: '0' <= env[CONFIG_SCHEMA][i] <= '9')
      && Number(env[CONFIG_SCHEMA]) >= 1
  }

  predicate Fetched(d: Disk, req: Request, a: Answers) {
    (req.release in d.checkouts && a.checkoutClean) || a.clone
  }

  /** The release and the secrets are in place, so the unit gets written. */
  predicate WritesUnit(d: Disk, req: Request, a: Answers) {
    && Checked(req, a) && req.execute && Fetched(d, req, a) && a.npm
    && SecretsReadable(a.env.value) && (InTheClear(a.env.value) || a.decrypted.Some?)
  }

  predicate Starts(a: Answers) {
    a.reload && (a.restart || a.enable)
  }

  predicate Answered(a: Answers) {
    exists k | 0 <= k < |a.health| :: a.health[k]
  }

  lemma CheckedIff(req: Request, a: Answers)
    ensures Checked(req, a) <==> Admitted(req, a)
  {
    if a.env.Some? {
      var env := a.env.value;
      if CONFIG_SCHEMA in env && env[CONFIG_SCHEMA] != ""
         && forall i | 0 <= i < |env[CONFIG_SCHEMA]| :: '0' <= env[CONFIG_SCHEMA][i] <= '9' {
        SchemaIsNumeric(env[CONFIG_SCHEMA]);
      }
      assert GetOr(env, CONFIG_SCHEMA, "0") == if CONFIG_SCHEMA in env then env[CONFIG_SCHEMA] else "0";
      assert !SchemaOk("0") by {
        assert forall i | 0 <= i < |"0"| :: "0"[i] == '0';
      }
    }
  }

  lemma CompleteIff(req: Request, env: EnvFile)
    ensures Complete(env) <==> AddonFiles(req, env).ok
  {
  }

  lemma SecretsIff(env: EnvFile)
    ensures SecretsReadable(env) <==> !SecretsUnusable(env)
    ensures InTheClear(env) <==> SecretsMethod(env) == Plain
    ensures SecretsMethod(env) == Sops <==> SECRETS_METHOD in env && env[SECRETS_METHOD] == "sops"
  {
  }

  /** The end of a deploy, from how far it gets. */
  lemma EndIs(d: Disk, req: Request, a: Answers)
    ensures var e := DeployEnd(d, req, a);
      && (e == Refused <==> !Checked(req, a) || (!req.execute && !Complete(a.env.value)))
      && (e == DryRun <==> Checked(req, a) && !req.execute && Complete(a.env.value))
      && (e == CloneFailed <==> Checked(req, a) && req.execute && !Fetched(d, req, a))
      && (e == NpmFailed <==> Checked(req, a) && req.execute && Fetched(d, req, a) && !a.npm)
      && (e == SecretsRefused <==>
            Checked(req, a) && req.execute && Fetched(d, req, a) && a.npm && !SecretsReadable(a.env.value))
      && (ReachesInstall(e) <==> WritesUnit(d, req, a))
  {
    CheckedIff(req, a);
    if a.env.Some? {
      CompleteIff(req, a.env.value);
      SecretsIff(a.env.value);
    }
  }

  lemma InstallEndIs(d: Disk, req: Request, a: Answers)
    requires WritesUnit(d, req, a)
    ensures var e, i := DeployEnd(d, req, a), req.instance;
      && (e == NotStarted <==> !Starts(a))
      && (e == AddonRefused <==> Starts(a) && !Complete(a.env.value))
      && (e == Deployed <==> Starts(a) && Complete(a.env.value) && Answered(a))
      && (e == UndoFailed <==>
            Starts(a) && Complete(a.env.value) && !Answered(a) && (i, Current) in d.records && !a.reloadBack)
      && (e == RolledBack <==>
            Starts(a) && Complete(a.env.value) && !Answered(a) && !((i, Current) in d.records && !a.reloadBack))
  {
    CheckedIff(req, a);
    CompleteIff(req, a.env.value);
    SecretsIff(a.env.value);
    assert Healthy(a) <==> Answered(a);
  }

  // ----- exits -----

  /** A deploy's exit status, by the first thing that fails. */
  lemma DeployExits(d: Disk, req: Request, a: Answers)
    ensures Exit(d, DeployCmd(req, a)) ==
      if !Checked(req, a) then 2
      else if !req.execute then if Complete(a.env.value) then 0 else 2
      else if !Fetched(d, req, a) || !a.npm then a.toolStatus
      else if !SecretsReadable(a.env.value) then 2
      else if !(InTheClear(a.env.value) || a.decrypted.Some?) || !Starts(a) then a.toolStatus
      else if !Complete(a.env.value) then 2
      else if Answered(a) then 0
      else if (req.instance, Current) in d.records && !a.reloadBack then a.toolStatus
      else 3
  {
    EndIs(d, req, a);
    if WritesUnit(d, req, a) {
      InstallEndIs(d, req, a);
    }
  }

  /** A rollback's exit status likewise. */
  lemma RollbackExits(d: Disk, i: string, execute: bool, a: Answers)
    ensures Exit(d, RollbackCmd(i, execute, a)) ==
      if i == "" || (exists k | 0 <= k < |i| :: !NameChar(i[k])) || (i, Previous) !in d.records then 2
      else if !execute then 0
      else if !a.reload || !a.restart then a.toolStatus
      else if (i, Current) !in d.records then 1
      else 0
  {
  }

  // ----- what is left on disk -----

  /** The text of the main unit a deploy writes. */
  function MainText(req: Request, env: EnvFile): string {
    req.text(MainUnit(req.instance, Raw(env, PORT), req.release, req.repoDir, Raw(env, NODE_OPTIONS)))
  }

  /** The main unit: untouched unless the deploy gets to write it; else of the requested release, unless an
    * unhealthy start with all optional files in place brought the recorded one back. */
  lemma MainUnitIs(d: Disk, req: Request, a: Answers)
    ensures var name, i, e := UnitName(Main, req.instance), req.instance, AfterDeploy(d, req, a);
      if !WritesUnit(d, req, a) then Same(name, d.units, e.units)
      else
        && name in e.units
        && e.units[name] ==
             if Starts(a) && Complete(a.env.value) && !Answered(a) && (i, Current) in d.records
             then d.records[(i, Current)].unit else MainText(req, a.env.value)
  {
    EndIs(d, req, a);
    if WritesUnit(d, req, a) {
      InstallEndIs(d, req, a);
      OwnUnitIsNoAddon(req, a.env.value);
    }
  }

  /** The records after putting `r` on record for instance `i`: the old current one is kept as previous. */
  ghost predicate Recorded(was: map<(string, Place), Record>, i: string, r: Record, now: map<(string, Place), Record>) {
    && (i, Current) in now && now[(i, Current)] == r
    && (if (i, Current) in was then (i, Previous) in now && now[(i, Previous)] == was[(i, Current)]
        else Same((i, Previous), was, now))
    && (forall j, s | j != i || s == SwapTmp :: Same((j, s), was, now))
  }

  lemma PromotedIs(was: map<(string, Place), Record>, i: string, r: Record)
    ensures Recorded(was, i, r, Promoted(was, i, r))
  {
  }

  /** The records: rewritten by a deploy that answers and nothing else, the old current one kept as previous. */
  lemma RecordsAre(d: Disk, req: Request, a: Answers)
    ensures var e := AfterDeploy(d, req, a);
      if WritesUnit(d, req, a) && Starts(a) && Complete(a.env.value) && Answered(a)
      then Recorded(d.records, req.instance, Record(req.release, MainText(req, a.env.value)), e.records)
      else e.records == d.records
  {
    EndIs(d, req, a);
    if WritesUnit(d, req, a) {
      InstallEndIs(d, req, a);
      PromotedIs(d.records, req.instance, Record(req.release, MainText(req, a.env.value)));
    }
  }

  /** The secrets file: the plaintext once the unit gets written, and whatever then fails; empty when `sops`
    * fails; otherwise as it was. */
  lemma SecretsAre(d: Disk, req: Request, a: Answers)
    ensures var i, e := req.instance, AfterDeploy(d, req, a);
      if WritesUnit(d, req, a) then
        e.secrets == d.secrets[i := if InTheClear(a.env.value) then a.secretsFile.value else a.decrypted.value]
      else if && Checked(req, a) && req.execute && Fetched(d, req, a) && a.npm
              && SECRETS_METHOD in a.env.value && a.env.value[SECRETS_METHOD] == "sops"
      then e.secrets == d.secrets[i := ""]
      else e.secrets == d.secrets
  {
    EndIs(d, req, a);
    if Checked(req, a) {
      SecretsIff(a.env.value);
      SecretsFor(d, req, a, DeployEnd(d, req, a));
    }
  }

  lemma SecretsFor(d: Disk, req: Request, a: Answers, e: End)
    requires a.env.Some? && a.secretsFile.Some?
    requires ReachesInstall(e) ==> InTheClear(a.env.value) || a.decrypted.Some?
    requires e == DecryptFailed ==> !InTheClear(a.env.value)
    ensures SecretsAfter(d, req, a, e) ==
      if ReachesInstall(e) then
        d.secrets[req.instance := if InTheClear(a.env.value) then a.secretsFile.value else a.decrypted.value]
      else if e == DecryptFailed && a.env.value[SECRETS_METHOD] == "sops" then d.secrets[req.instance := ""]
      else d.secrets
  {
    SecretsIff(a.env.value);
  }

  /** The checkouts: the requested tag is there after fetching it and gone after failing to. */
  lemma CheckoutsAre(d: Disk, req: Request, a: Answers)
    ensures var e := AfterDeploy(d, req, a);
      e.checkouts ==
        if !Checked(req, a) || !req.execute then d.checkouts
        else if Fetched(d, req, a) then d.checkouts + {req.release} else d.checkouts - {req.release}
  {
    EndIs(d, req, a);
  }

  /** What a rollback swaps. */
  lemma RollbackSwaps(d: Disk, i: string, a: Answers)
    requires a.toolStatus != 0 && Exit(d, RollbackCmd(i, true, a)) == 0
    ensures (i, Current) in d.records && (i, Previous) in d.records
    ensures var e, was := AfterRollback(d, i, true, a), d.records;
      && e.units == d.units[UnitName(Main, i) := was[(i, Previous)].unit]
      && (i, Current) in e.records && e.records[(i, Current)] == was[(i, Previous)]
      && (i, Previous) in e.records && e.records[(i, Previous)] == was[(i, Current)]
      && (forall j, s | j != i :: Same((j, s), was, e.records))
      && e.libexec == d.libexec && e.secrets == d.secrets && e.checkouts == d.checkouts
  {
  }

  // ----- optional files -----

  function ShadowText(req: Request, env: EnvFile): string {
    var config := Or(Raw(env, SHADOW_CONFIG), req.repoDir + "/" + req.instance + "/skgateway.shadow.yaml");
    req.text(ShadowUnit(req.instance, Raw(env, SHADOW_PORT), req.release, config))
  }

  function SocketText(req: Request, env: EnvFile): string {
    var port := Or(Raw(env, INGRESS_PORT), Raw(env, PORT));
    req.text(IngressSocket(req.instance, Or(Raw(env, TAILNET_INTERFACE), "tailscale0"), port))
  }

  function CanaryText(req: Request, env: EnvFile): string {
    req.text(CanaryUnit(req.instance, Or(Raw(env, CANARY_SSH_CONFIG), req.home + "/.ssh/config"),
      Raw(env, CANARY_LOCAL_PORT), Raw(env, CANARY_REMOTE_PORT), Raw(env, CANARY_REMOTE_HOST)))
  }

  /** The text of an optional unit, if its flag is on. */
  function OptionalText(k: Kind, req: Request, env: EnvFile): Option<string>
    requires k != Main
  {
    match k
    case Shadow => if On(env, SHADOW_ENABLED) then Some(ShadowText(req, env)) else None
    case Socket => if On(env, INGRESS_SOCKET) then Some(SocketText(req, env)) else None
    case Proxy => if On(env, INGRESS_SOCKET) then Some(req.text(IngressProxy(req.instance, Raw(env, PORT)))) else None
    case Canary => if On(env, CANARY) then Some(CanaryText(req, env)) else None
  }

  predicate Holds(files: map<string, string>, name: string, text: Option<string>) {
    if text.Some? then name in files && files[name] == text.value else name !in files
  }

  lemma GroupsAre(req: Request, env: EnvFile)
    requires Complete(env)
    ensures Holds(ShadowFiles(req, env).units, UnitName(Shadow, req.instance), OptionalText(Shadow, req, env))
    ensures Holds(CanaryFiles(req, env).units, UnitName(Canary, req.instance), OptionalText(Canary, req, env))
    ensures ShadowFiles(req, env).units.Keys <= {UnitName(Shadow, req.instance)}
    ensures CanaryFiles(req, env).units.Keys <= {UnitName(Canary, req.instance)}
  {
  }

  lemma IngressIs(req: Request, env: EnvFile)
    ensures Holds(IngressFiles(req, env).units, UnitName(Socket, req.instance), OptionalText(Socket, req, env))
    ensures Holds(IngressFiles(req, env).units, UnitName(Proxy, req.instance), OptionalText(Proxy, req, env))
    ensures IngressFiles(req, env).units.Keys <= {UnitName(Socket, req.instance), UnitName(Proxy, req.instance)}
  {
    NamesCollideIff(Socket, req.instance, Proxy, req.instance);
  }

  lemma AllGroups(req: Request, env: EnvFile)
    requires Complete(env)
    ensures AddonFiles(req, env).units
         == ShadowFiles(req, env).units + IngressFiles(req, env).units + CanaryFiles(req, env).units
  {
  }

  /** Each optional unit is among the files exactly when its flag is on, with its text. */
  lemma AddonIs(req: Request, env: EnvFile, k: Kind)
    requires Complete(env) && k != Main
    ensures Holds(AddonFiles(req, env).units, UnitName(k, req.instance), OptionalText(k, req, env))
  {
    var i := req.instance;
    GroupsAre(req, env);
    IngressIs(req, env);
    AllGroups(req, env);
    NamesCollideIff(k, i, Shadow, i);
    NamesCollideIff(k, i, Socket, i);
    NamesCollideIff(k, i, Proxy, i);
    NamesCollideIff(k, i, Canary, i);
  }

  /** The script gets as far as this optional unit: a required key that is missing stops it. */
  predicate Reached(k: Kind, env: EnvFile) {
    (On(env, SHADOW_ENABLED) ==> SHADOW_PORT in env) && (k == Canary ==> Complete(env))
  }

  lemma RefusedAddonIs(req: Request, env: EnvFile, k: Kind)
    requires !Complete(env) && k != Main
    ensures Holds(AddonFiles(req, env).units, UnitName(k, req.instance),
                  if Reached(k, env) then OptionalText(k, req, env) else None)
  {
    var i := req.instance;
    IngressIs(req, env);
    NamesCollideIff(k, i, Shadow, i);
    NamesCollideIff(k, i, Socket, i);
    NamesCollideIff(k, i, Proxy, i);
    assert AddonFiles(req, env).units ==
      if ShadowFiles(req, env).ok then ShadowFiles(req, env).units + IngressFiles(req, env).units else map[];
  }

  /** Once the unit has started, the optional units that are on and reached are on disk with their texts, and
    * the others as they were. */
  lemma OptionalUnitIs(d: Disk, req: Request, a: Answers, k: Kind)
    requires WritesUnit(d, req, a) && Starts(a) && k != Main
    ensures var e, name := AfterDeploy(d, req, a), UnitName(k, req.instance);
      var text := if Reached(k, a.env.value) then OptionalText(k, req, a.env.value) else None;
      if text.Some? then name in e.units && e.units[name] == text.value else Same(name, d.units, e.units)
  {
    EndIs(d, req, a);
    InstallEndIs(d, req, a);
    if Complete(a.env.value) {
      AddonIs(req, a.env.value, k);
    } else {
      RefusedAddonIs(req, a.env.value, k);
    }
    AddonLands(d, req, a, k, if Reached(k, a.env.value) then OptionalText(k, req, a.env.value) else None);
  }

  lemma AddonLands(d: Disk, req: Request, a: Answers, k: Kind, text: Option<string>)
    requires k != Main && a.env.Some? && DeployEnd(d, req, a) != NotStarted && ReachesInstall(DeployEnd(d, req, a))
    requires Holds(AddonFiles(req, a.env.value).units, UnitName(k, req.instance), text)
    ensures var e, name := AfterDeploy(d, req, a), UnitName(k, req.instance);
      if text.Some? then name in e.units && e.units[name] == text.value else Same(name, d.units, e.units)
  {
    assert UnitName(k, req.instance) != UnitName(Main, req.instance) by {
      assert |UnitName(k, req.instance)| > |UnitName(Main, req.instance)|;
    }
  }

  function ScriptsAfter(scripts: map<string, string>, req: Request, env: EnvFile): map<string, string> {
    if On(env, CANARY) then scripts[HealthName(req.instance) := req.text(CanaryHealth(Raw(env, CANARY_LOCAL_PORT)))]
    else scripts
  }

  lemma CanaryScriptIs(scripts: map<string, string>, req: Request, env: EnvFile)
    requires Complete(env)
    ensures scripts + AddonFiles(req, env).libexec == ScriptsAfter(scripts, req, env)
  {
    OnlyTheCanaryHasAScript(scripts, req, env);
    if !On(env, CANARY) {
      assert CanaryFiles(req, env).libexec == map[];
    }
  }

  /** The canary's health script likewise. */
  lemma HealthScriptIs(d: Disk, req: Request, a: Answers)
    requires WritesUnit(d, req, a) && Starts(a) && Complete(a.env.value)
    ensures AfterDeploy(d, req, a).libexec == ScriptsAfter(d.libexec, req, a.env.value)
  {
    EndIs(d, req, a);
    InstallEndIs(d, req, a);
    CanaryScriptIs(d.libexec, req, a.env.value);
  }

  // ----- over runs -----

  /** The deploy `c`, run in state `d`, put `r` on record for instance `i`. */
  predicate WroteRecord(d: Disk, c: Command, i: string, r: Record) {
    && c.DeployCmd? && c.req.instance == i && WritesUnit(d, c.req, c.a)
    && Starts(c.a) && Complete(c.a.env.value) && Answered(c.a)
    && r.release == c.req.release
    && var env := c.a.env.value;
      r.unit == c.req.text(MainUnit(i, env[PORT], r.release, c.req.repoDir, Raw(env, NODE_OPTIONS)))
  }

  predicate WroteRecordAt(cs: seq<Command>, k: int, i: string, r: Record) {
    0 <= k < |cs| && WroteRecord(Run(cs[..k]), cs[k], i, r)
  }

  /** Over every run, whatever its exits, each record's unit is the text for the release on record, with the
    * port and options of the deploy that wrote it. */
  lemma RecordedUnits(cs: seq<Command>, i: string, s: Place)
    requires (i, s) in Run(cs).records
    ensures exists k :: WroteRecordAt(cs, k, i, Run(cs).records[(i, s)])
  {
    RecordsAreDeployed(cs, i, s);
    var r := Run(cs).records[(i, s)];
    var k :| DeployedAt(cs, k, i, r);
    EndIs(Run(cs[..k]), cs[k].req, cs[k].a);
    InstallEndIs(Run(cs[..k]), cs[k].req, cs[k].a);
    assert WroteRecordAt(cs, k, i, r);
  }
}
