/** One host's deploy state, and the two commands that change it. */
module Deploy {
  import opened Json

  // ----- what is on disk -----

  /** Files the script renders, each with the settings that went into it. */
  datatype Rendered =
    | MainUnit(instance: string, port: string, release: string, repoDir: string, nodeOptions: string)
    | ShadowUnit(instance: string, port: string, release: string, config: string)
    | IngressSocket(instance: string, tailnet: string, port: string)
    | IngressProxy(instance: string, port: string)
    | CanaryUnit(instance: string, sshConfig: string, localPort: string, remotePort: string, remoteHost: string)
    | CanaryHealth(localPort: string)

  datatype Kind = Main | Shadow | Socket | Proxy | Canary

  function Infix(k: Kind): string {
    match k
    case Main => ""
    case Shadow => "shadow-"
    case Socket => "ingress-"
    case Proxy => "ingress-"
    case Canary => "canary-"
  }

  function Suffix(k: Kind): string {
    if k == Socket then ".socket" else ".service"
  }

  /** File name in the systemd user directory. */
  function UnitName(k: Kind, instance: string): string {
    "skgateway-" + (Infix(k) + (instance + Suffix(k)))
  }

  function HealthName(instance: string): string {
    "canary-" + (instance + "-health")
  }

  datatype Place = Current | Previous | SwapTmp

  /** One state directory: the release tag and a copy of the unit installed for it. */
  datatype Record = Record(release: string, unit: string)

  datatype Disk = Disk(
    units: map<string, string>,
    libexec: map<string, string>,
    secrets: map<string, string>,
    records: map<(string, Place), Record>,
    checkouts: set<string>)

  const EMPTY := Disk(map[], map[], map[], map[], {})

  // ----- what a command is given and what its tools answer -----

  /** The keys of `instance.env` the script reads. */
  datatype Key =
    | PORT | RELEASE | NODE_OPTIONS | CONFIG_SCHEMA | SECRETS_METHOD | VAULT_PASSWORD_FILE
    | SHADOW_ENABLED | SHADOW_PORT | SHADOW_CONFIG
    | INGRESS_SOCKET | TAILNET_INTERFACE | INGRESS_PORT
    | CANARY | CANARY_LOCAL_PORT | CANARY_REMOTE_HOST | CANARY_REMOTE_PORT | CANARY_SSH_CONFIG

  type EnvFile = map<Key, string>

  datatype Method = Plain | Vault | Sops | Unknown

  function SecretsMethod(env: EnvFile): Method {
    var m := GetOr(env, SECRETS_METHOD, "none");
    if m == "none" then Plain else if m == "ansible-vault" then Vault else if m == "sops" then Sops else Unknown
  }

  predicate Flag(env: EnvFile, key: Key) {
    GetOr(env, key, "") == "1"
  }

  function GetOr(env: EnvFile, key: Key, default: string): string {
    if key in env then env[key] else default
  }

  function NonEmptyOr(env: EnvFile, key: Key, default: string): string {
    if GetOr(env, key, "") == "" then default else env[key]
  }

  /** `repoDir` is the absolute path of the configuration repository, however it was spelled;
    * `text` is what the script's templates render to. */
  datatype Request = Request(release: string, repoDir: string, instance: string, execute: bool, force: bool,
                             home: string, text: Rendered -> string)

  /** Answers of git, npm, the decryption tools, systemctl and the health endpoints. */
  datatype Answers = Answers(
    instanceDir: bool, repoClean: bool, env: Option<EnvFile>,
    tagExists: bool, mainExists: bool, merged: bool,
    configFile: bool, secretsFile: Option<string>,
    checkoutClean: bool, clone: bool, npm: bool, decrypted: Option<string>,
    reload: bool, restart: bool, enable: bool, health: seq<bool>, reloadBack: bool,
    toolStatus: nat)

  predicate NameOk(s: string) {
    s != "" && forall i | 0 <= i < |s| ::
      'a' <= s[i] <= 'z' || 'A' <= s[i] <= 'Z' || '0' <= s[i] <= '9' || s[i] == '_' || s[i] == '-'
  }

  /** A decimal number of at least the minimum schema, which is 1. */
  predicate SchemaOk(s: string) {
    s != "" && (forall i | 0 <= i < |s| :: '0' <= s[i] <= '9') && exists i | 0 <= i < |s| :: s[i] != '0'
  }

  /** The number decimal digits spell. */
  function Number(s: string): (n: nat)
    requires forall i | 0 <= i < |s| :: '0' <= s[i] <= '9'
  {
    if s == "" then 0 else 10 * Number(s[..|s| - 1]) + (s[|s| - 1] - '0') as nat
  }

  /** The digit test is the numeric comparison the script makes. */
  lemma {:induction false} SchemaIsNumeric(s: string)
    requires s != "" && forall i | 0 <= i < |s| :: '0' <= s[i] <= '9'
    ensures SchemaOk(s) <==> Number(s) >= 1
  {
    var n := |s| - 1;
    if n > 0 {
      SchemaIsNumeric(s[..n]);
    }
    assert forall i | 0 <= i < n :: s[..n][i] == s[i];
  }

  predicate EnvOk(env: EnvFile, req: Request) {
    && PORT in env && RELEASE in env
    && SchemaOk(GetOr(env, CONFIG_SCHEMA, "0"))
    && (req.release == env[RELEASE] || req.force)
  }

  /** Every check made before anything is touched. */
  predicate Admitted(req: Request, a: Answers) {
    && NameOk(req.instance) && req.release != "" && req.repoDir != ""
    && a.instanceDir && a.repoClean && a.env.Some? && EnvOk(a.env.value, req)
    && a.tagExists && a.mainExists && a.merged
    && a.configFile && a.secretsFile.Some?
  }

  // ----- rendered files -----

  function NewUnit(req: Request, env: EnvFile): string {
    req.text(MainUnit(req.instance, GetOr(env, PORT, ""), req.release, req.repoDir, GetOr(env, NODE_OPTIONS, "")))
  }

  /** Optional files, in the order written; `ok` is false when a required key stops the script. */
  datatype Addons = Addons(units: map<string, string>, libexec: map<string, string>, ok: bool)

  function Then(first: Addons, second: Addons): Addons {
    if !first.ok then first else Addons(first.units + second.units, first.libexec + second.libexec, second.ok)
  }

  function ShadowFiles(req: Request, env: EnvFile): Addons {
    if !Flag(env, SHADOW_ENABLED) then Addons(map[], map[], true)
    else if SHADOW_PORT !in env then Addons(map[], map[], false)
    else
      var config := NonEmptyOr(env, SHADOW_CONFIG, req.repoDir + "/" + req.instance + "/skgateway.shadow.yaml");
      Addons(map[UnitName(Shadow, req.instance) :=
        req.text(ShadowUnit(req.instance, env[SHADOW_PORT], req.release, config))], map[], true)
  }

  function IngressFiles(req: Request, env: EnvFile): Addons {
    var i, port := req.instance, GetOr(env, PORT, "");
    if !Flag(env, INGRESS_SOCKET) then Addons(map[], map[], true)
    else Addons(
        map[UnitName(Socket, i) :=
          req.text(IngressSocket(i, NonEmptyOr(env, TAILNET_INTERFACE, "tailscale0"),
            NonEmptyOr(env, INGRESS_PORT, port)))]
        + map[UnitName(Proxy, i) := req.text(IngressProxy(i, port))], map[], true)
  }

  function CanaryFiles(req: Request, env: EnvFile): Addons {
    if !Flag(env, CANARY) then Addons(map[], map[], true)
    else if CANARY_LOCAL_PORT !in env || CANARY_REMOTE_HOST !in env || CANARY_REMOTE_PORT !in env
    then Addons(map[], map[], false)
    else Addons(
        map[UnitName(Canary, req.instance) :=
          req.text(CanaryUnit(req.instance, NonEmptyOr(env, CANARY_SSH_CONFIG, req.home + "/.ssh/config"),
            env[CANARY_LOCAL_PORT], env[CANARY_REMOTE_PORT], env[CANARY_REMOTE_HOST]))],
        map[HealthName(req.instance) := req.text(CanaryHealth(env[CANARY_LOCAL_PORT]))], true)
  }

  function AddonFiles(req: Request, env: EnvFile): Addons {
    Then(Then(ShadowFiles(req, env), IngressFiles(req, env)), CanaryFiles(req, env))
  }

  lemma Regroup<K, V>(u: map<K, V>, x: map<K, V>, y: map<K, V>)
    ensures (u + x) + y == u + (x + y)
  {
  }

  /** Writing the three groups one after another writes their union. */
  lemma Stacked(u: map<string, string>, l: map<string, string>, s: Addons, i: Addons, c: Addons)
    ensures var all := Then(Then(s, i), c);
      if !s.ok then all == s
      else if !i.ok then
        u + all.units == u + s.units + i.units && l + all.libexec == l + s.libexec + i.libexec && !all.ok
      else
        && u + all.units == u + s.units + i.units + c.units
        && l + all.libexec == l + s.libexec + i.libexec + c.libexec && all.ok == c.ok
  {
    Regroup(u, s.units, i.units);
    Regroup(u, s.units + i.units, c.units);
    Regroup(l, s.libexec, i.libexec);
    Regroup(l, s.libexec + i.libexec, c.libexec);
  }

  lemma OnlyTheCanaryHasAScript(l: map<string, string>, req: Request, env: EnvFile)
    ensures l + AddonFiles(req, env).libexec ==
      if ShadowFiles(req, env).ok then l + CanaryFiles(req, env).libexec else l
  {
    assert ShadowFiles(req, env).libexec == map[] && IngressFiles(req, env).libexec == map[] &&
      IngressFiles(req, env).ok;
    assert map[] + CanaryFiles(req, env).libexec == CanaryFiles(req, env).libexec;
    assert l + map[] == l;
  }

  /** None of an instance's optional files is its own main unit. */
  lemma OwnUnitIsNoAddon(req: Request, env: EnvFile)
    ensures UnitName(Main, req.instance) !in AddonFiles(req, env).units
  {
    var i := req.instance;
    assert |UnitName(Main, i)| < |UnitName(Shadow, i)| && |UnitName(Main, i)| < |UnitName(Socket, i)|;
    assert |UnitName(Main, i)| < |UnitName(Proxy, i)| && |UnitName(Main, i)| < |UnitName(Canary, i)|;
  }

  // ----- how a command ends, and what it leaves -----

  /** The point at which a deploy ends. */
  datatype End =
    | Refused                  // a check failed, nothing touched
    | DryRun
    | CloneFailed
    | NpmFailed
    | SecretsRefused           // unknown method, or no password file
    | DecryptFailed
    | NotStarted               // the unit is written, systemctl failed
    | AddonRefused             // the new unit is live
    | Deployed
    | UndoFailed               // unhealthy, and reloading the old unit failed
    | RolledBack

  function ExitCode(e: End, a: Answers): nat {
    match e
    case Refused => 2
    case DryRun => 0
    case SecretsRefused => 2
    case AddonRefused => 2
    case Deployed => 0
    case RolledBack => 3
    case _ => a.toolStatus
  }

  function Healthy(a: Answers): bool {
    true in a.health
  }

  predicate SecretsUnusable(env: EnvFile) {
    SecretsMethod(env) == Unknown || (SecretsMethod(env) == Vault && VAULT_PASSWORD_FILE !in env)
  }

  function DeployEnd(d: Disk, req: Request, a: Answers): End {
    if !Admitted(req, a) then Refused
    else
      var env := a.env.value;
      if !req.execute then (if AddonFiles(req, env).ok then DryRun else Refused)
      else if !(req.release in d.checkouts && a.checkoutClean) && !a.clone then CloneFailed
      else if !a.npm then NpmFailed
      else if SecretsUnusable(env) then SecretsRefused
      else if SecretsMethod(env) != Plain && a.decrypted.None? then DecryptFailed
      else InstallEnd(d, req, env, a)
  }

  /** Where a deploy ends once it has got as far as writing the unit. */
  function InstallEnd(d: Disk, req: Request, env: EnvFile, a: Answers): (e: End)
    ensures ReachesInstall(e)
  {
    if !a.reload || (!a.restart && !a.enable) then NotStarted
    else CompleteEnd((req.instance, Current) in d.records, AddonFiles(req, env).ok, a)
  }

  /** Where it ends once systemctl has started the unit. */
  function CompleteEnd(recorded: bool, whole: bool, a: Answers): (e: End)
    ensures ReachesInstall(e) && e != NotStarted
  {
    if !whole then AddonRefused
    else if Healthy(a) then Deployed
    else if recorded && !a.reloadBack then UndoFailed
    else RolledBack
  }

  /** The plaintext left in the instance's secrets file. */
  function SecretsAfter(d: Disk, req: Request, a: Answers, e: End): map<string, string> {
    if e in {Refused, DryRun, CloneFailed, NpmFailed, SecretsRefused} || a.env.None? then d.secrets
    else
      var how := SecretsMethod(a.env.value);
      if e == DecryptFailed then (if how == Sops then d.secrets[req.instance := ""] else d.secrets)
      else if how == Plain then d.secrets[req.instance := if a.secretsFile.Some? then a.secretsFile.value else ""]
      else d.secrets[req.instance := if a.decrypted.Some? then a.decrypted.value else ""]
  }

  function UnitsFrom(units: map<string, string>, records: map<(string, Place), Record>, req: Request, env: EnvFile,
                     e: End)
    : map<string, string>
  {
    var written := units[UnitName(Main, req.instance) := NewUnit(req, env)];
    if e == NotStarted then written
    else PutBack(written + AddonFiles(req, env).units, records, req.instance, e)
  }

  /** After a failed health check the recorded unit returns. */
  function PutBack(units: map<string, string>, records: map<(string, Place), Record>, i: string,
                   e: End): map<string, string> {
    if e in {UndoFailed, RolledBack} && (i, Current) in records
    then units[UnitName(Main, i) := records[(i, Current)].unit] else units
  }

  predicate ReachesInstall(e: End) {
    e in {NotStarted, AddonRefused, Deployed, UndoFailed, RolledBack}
  }

  /** What was current becomes previous. */
  function Promoted(records: map<(string, Place), Record>, i: string, r: Record): map<(string, Place), Record> {
    (if (i, Current) in records then records[(i, Previous) := records[(i, Current)]] else records)[(i, Current) := r]
  }

  function AfterDeploy(d: Disk, req: Request, a: Answers): Disk {
    var e := DeployEnd(d, req, a);
    var env := if a.env.Some? then a.env.value else map[];
    Disk(
      if ReachesInstall(e) then UnitsFrom(d.units, d.records, req, env, e) else d.units,
      if ReachesInstall(e) && e != NotStarted then d.libexec + AddonFiles(req, env).libexec else d.libexec,
      SecretsAfter(d, req, a, e),
      if e == Deployed then Promoted(d.records, req.instance, Record(req.release, NewUnit(req, env))) else d.records,
      if e in {Refused, DryRun} then d.checkouts
      else if e == CloneFailed then d.checkouts - {req.release}
      else d.checkouts + {req.release})
  }

  // ----- rollback -----

  datatype RollbackEnd = NothingToRestore | DryRollback | NotRestarted | SwapFailed | Swapped

  function RollbackEndOf(d: Disk, i: string, execute: bool, a: Answers): RollbackEnd {
    if !NameOk(i) || (i, Previous) !in d.records then NothingToRestore
    else if !execute then DryRollback
    else if !a.reload || !a.restart then NotRestarted
    else if (i, Current) !in d.records then SwapFailed
    else Swapped
  }

  function RollbackExit(e: RollbackEnd, a: Answers): nat {
    match e
    case NothingToRestore => 2
    case NotRestarted => a.toolStatus
    case SwapFailed => 1
    case _ => 0
  }

  function AfterRollback(d: Disk, i: string, execute: bool, a: Answers): Disk {
    match RollbackEndOf(d, i, execute, a)
    case NothingToRestore => d
    case DryRollback => d
    case NotRestarted => d.(units := d.units[UnitName(Main, i) := d.records[(i, Previous)].unit])
    case SwapFailed => d.(units := d.units[UnitName(Main, i) := d.records[(i, Previous)].unit],
      records := d.records - {(i, SwapTmp)})
    case Swapped =>
      d.(units := d.units[UnitName(Main, i) := d.records[(i, Previous)].unit],
         records := (d.records - {(i, SwapTmp)})[(i, Current) := d.records[(i, Previous)]]
           [(i, Previous) := d.records[(i, Current)]])
  }

  // ----- the script itself -----

  class Host {
    var units: map<string, string>
    var libexec: map<string, string>
    var secrets: map<string, string>
    var records: map<(string, Place), Record>
    var checkouts: set<string>

    function OnDisk(): Disk
      reads this
    {
      Disk(units, libexec, secrets, records, checkouts)
    }

    /** Poll both endpoints until they answer or the deadline passes. */
    method AwaitHealth(polls: seq<bool>) returns (healthy: bool)
      ensures healthy <==> true in polls
    {
      healthy := false;
      var i := 0;
      while i < |polls| && !healthy
        invariant i <= |polls| && (healthy <==> true in polls[..i])
      {
        healthy := polls[i];
        i := i + 1;
      }
    }

    method InstallUnit(execute: bool, name: string, content: string)
      modifies this`units
      ensures units == if execute then old(units) + map[name := content] else old(units)
    {
      if execute {
        units := units[name := content];
      }
    }

    method InstallShadow(req: Request, env: EnvFile) returns (ok: bool)
      modifies this`units
      ensures ok == ShadowFiles(req, env).ok
      ensures units == if req.execute then old(units) + ShadowFiles(req, env).units else old(units)
    {
      if Flag(env, SHADOW_ENABLED) {
        if SHADOW_PORT !in env {
          return false;
        }
        var config := NonEmptyOr(env, SHADOW_CONFIG, req.repoDir + "/" + req.instance + "/skgateway.shadow.yaml");
        InstallUnit(req.execute, UnitName(Shadow, req.instance),
          req.text(ShadowUnit(req.instance, env[SHADOW_PORT], req.release, config)));
      }
      ok := true;
    }

    method InstallIngress(req: Request, env: EnvFile)
      modifies this`units
      ensures units == if req.execute then old(units) + IngressFiles(req, env).units else old(units)
    {
      if Flag(env, INGRESS_SOCKET) {
        var i, port := req.instance, GetOr(env, PORT, "");
        var tailnet, ingressPort := NonEmptyOr(env, TAILNET_INTERFACE, "tailscale0"),
          NonEmptyOr(env, INGRESS_PORT, port);
        InstallUnit(req.execute, UnitName(Socket, i), req.text(IngressSocket(i, tailnet, ingressPort)));
        InstallUnit(req.execute, UnitName(Proxy, i), req.text(IngressProxy(i, port)));
      }
    }

    method InstallCanary(req: Request, env: EnvFile) returns (ok: bool)
      modifies this`units, this`libexec
      ensures ok == CanaryFiles(req, env).ok
      ensures units == if req.execute then old(units) + CanaryFiles(req, env).units else old(units)
      ensures libexec == if req.execute then old(libexec) + CanaryFiles(req, env).libexec else old(libexec)
    {
      if Flag(env, CANARY) {
        if CANARY_LOCAL_PORT !in env || CANARY_REMOTE_HOST !in env || CANARY_REMOTE_PORT !in env {
          return false;
        }
        var sshConfig := NonEmptyOr(env, CANARY_SSH_CONFIG, req.home + "/.ssh/config");
        if req.execute {
          libexec := libexec[HealthName(req.instance) := req.text(CanaryHealth(env[CANARY_LOCAL_PORT]))];
        }
        InstallUnit(req.execute, UnitName(Canary, req.instance),
          req.text(CanaryUnit(req.instance, sshConfig, env[CANARY_LOCAL_PORT], env[CANARY_REMOTE_PORT],
            env[CANARY_REMOTE_HOST])));
      }
      ok := true;
    }

    method InstallAddons(req: Request, env: EnvFile) returns (ok: bool)
      modifies this`units, this`libexec
      ensures ok == AddonFiles(req, env).ok
      ensures units == if req.execute then old(units) + AddonFiles(req, env).units else old(units)
      ensures libexec == if req.execute then old(libexec) + AddonFiles(req, env).libexec else old(libexec)
    {
      ghost var u, l := units, libexec;
      ghost var shadow, ingress, canary := ShadowFiles(req, env), IngressFiles(req, env), CanaryFiles(req, env);
      Stacked(u, l, shadow, ingress, canary);
      OnlyTheCanaryHasAScript(l, req, env);
      ok := InstallShadow(req, env);
      if ok {
        InstallIngress(req, env);
        ok := InstallCanary(req, env);
      }
    }

    /** Put the plaintext secrets in place. */
    method Decrypt(req: Request, env: EnvFile, a: Answers) returns (status: nat)
      requires a.secretsFile.Some?
      modifies this`secrets
      ensures var how := SecretsMethod(env);
        if SecretsUnusable(env) then status == 2 && secrets == old(secrets)
        else if how != Plain && a.decrypted.None? then
          status == a.toolStatus && secrets == if how == Sops then old(secrets)[req.instance := ""] else old(secrets)
        else
          var plaintext := if how == Plain then a.secretsFile.value else a.decrypted.value;
          status == 0 && secrets == old(secrets)[req.instance := plaintext]
    {
      match SecretsMethod(env) {
        case Plain =>
          secrets := secrets[req.instance := a.secretsFile.value];
          return 0;
        case Vault =>
          if VAULT_PASSWORD_FILE !in env {
            return 2;
          }
        case Sops =>
          // The redirection empties the file before the tool runs.
          secrets := secrets[req.instance := ""];
        case Unknown =>
          return 2;
      }
      if a.decrypted.None? {
        return a.toolStatus;
      }
      secrets := secrets[req.instance := a.decrypted.value];
      status := 0;
    }

    /** Check the release out unless a clean checkout is there, and install its dependencies. */
    method Fetch(tag: string, a: Answers) returns (status: nat)
      modifies this`checkouts
      ensures if !(tag in old(checkouts) && a.checkoutClean) && !a.clone
        then status == a.toolStatus && checkouts == old(checkouts) - {tag}
        else status == (if a.npm then 0 else a.toolStatus) && checkouts == old(checkouts) + {tag}
    {
      if !(tag in checkouts && a.checkoutClean) {
        checkouts := checkouts - {tag};
        if !a.clone {
          return a.toolStatus;
        }
        checkouts := checkouts + {tag};
      }
      if !a.npm {
        return a.toolStatus;
      }
      status := 0;
    }

    method Start(name: string, content: string, a: Answers) returns (status: nat)
      modifies this`units
      ensures units == old(units)[name := content]
      ensures status == if a.reload && (a.restart || a.enable) then 0 else a.toolStatus
    {
      units := units[name := content];
      if !a.reload {
        return a.toolStatus;
      }
      if !a.restart {
        if !a.enable {
          return a.toolStatus;
        }
      }
      status := 0;
    }

    /** Record a healthy deploy: what was current becomes previous. */
    method Promote(i: string, tag: string)
      requires UnitName(Main, i) in units
      modifies this`records
      ensures records == Promoted(old(records), i, Record(tag, units[UnitName(Main, i)]))
    {
      if (i, Current) in records {
        records := records - {(i, Previous)};
        records := (records - {(i, Current)})[(i, Previous) := records[(i, Current)]];
      }
      records := records[(i, Current) := Record(tag, units[UnitName(Main, i)])];
    }

    /** Put the recorded unit back after a failed health check. */
    method Undo(i: string, a: Answers) returns (status: nat)
      modifies this`units
      ensures (i, Current) in records ==> units == old(units)[UnitName(Main, i) := records[(i, Current)].unit]
      ensures (i, Current) !in records ==> units == old(units)
      ensures status == if (i, Current) in records && !a.reloadBack then a.toolStatus else 3
    {
      if (i, Current) in records {
        units := units[UnitName(Main, i) := records[(i, Current)].unit];
        if !a.reloadBack {
          return a.toolStatus;
        }
      }
      status := 3;
    }

    /** Wait for the new release to answer, then record it or undo it. */
    method Conclude(i: string, tag: string, a: Answers) returns (exit: nat)
      requires UnitName(Main, i) in units
      modifies this`units, this`records
      ensures exit ==
        if Healthy(a) then 0 else if (i, Current) in old(records) && !a.reloadBack then a.toolStatus else 3
      ensures records ==
        if Healthy(a) then Promoted(old(records), i, Record(tag, old(units)[UnitName(Main, i)])) else old(records)
      ensures units == if Healthy(a) || (i, Current) !in old(records) then old(units)
        else old(units)[UnitName(Main, i) := old(records)[(i, Current)].unit]
    {
      var healthy := AwaitHealth(a.health);
      if healthy {
        Promote(i, tag);
        exit := 0;
      } else {
        exit := Undo(i, a);
      }
    }

    /** Everything once the unit has been started. */
    method Complete(req: Request, env: EnvFile, a: Answers) returns (exit: nat)
      requires req.execute && UnitName(Main, req.instance) in units
      modifies this`units, this`libexec, this`records
      ensures var files, i := AddonFiles(req, env), req.instance;
        var e := CompleteEnd((i, Current) in old(records), files.ok, a);
        && exit == ExitCode(e, a)
        && units == PutBack(old(units) + files.units, old(records), i, e)
        && libexec == old(libexec) + files.libexec
        && records ==
          if e == Deployed then Promoted(old(records), i, Record(req.release, old(units)[UnitName(Main, i)]))
          else old(records)
    {
      OwnUnitIsNoAddon(req, env);
      var whole := InstallAddons(req, env);
      if whole {
        exit := Conclude(req.instance, req.release, a);
      } else {
        exit := 2;
      }
    }

    /** Everything from the rendered unit on. */
    method Install(req: Request, env: EnvFile, a: Answers) returns (exit: nat)
      requires a.toolStatus != 0 && req.execute
      modifies this`units, this`libexec, this`records
      ensures var e := InstallEnd(old(OnDisk()), req, env, a);
        && exit == ExitCode(e, a)
        && units == UnitsFrom(old(units), old(records), req, env, e)
        && libexec == (if e == NotStarted then old(libexec) else old(libexec) + AddonFiles(req, env).libexec)
        && records ==
          if e == Deployed then Promoted(old(records), req.instance, Record(req.release, NewUnit(req, env)))
          else old(records)
    {
      exit := Start(UnitName(Main, req.instance), NewUnit(req, env), a);
      if exit == 0 {
        exit := Complete(req, env, a);
      }
    }

    method Execute(req: Request, a: Answers) returns (exit: nat)
      requires a.toolStatus != 0 && req.execute && Admitted(req, a)
      modifies this
      ensures OnDisk() == AfterDeploy(old(OnDisk()), req, a)
      ensures exit == ExitCode(DeployEnd(old(OnDisk()), req, a), a)
    {
      var env := a.env.value;
      exit := Fetch(req.release, a);
      if exit == 0 {
        exit := Decrypt(req, env, a);
        if exit == 0 {
          exit := Install(req, env, a);
        }
      }
    }

    method Deploy(req: Request, a: Answers) returns (exit: nat)
      requires a.toolStatus != 0
      modifies this
      ensures OnDisk() == AfterDeploy(old(OnDisk()), req, a)
      ensures exit == ExitCode(DeployEnd(old(OnDisk()), req, a), a)
    {
      if !Admitted(req, a) {
        return 2;
      }
      if req.execute {
        exit := Execute(req, a);
      } else {
        var whole := InstallAddons(req, a.env.value);
        exit := if whole then 0 else 2;
      }
    }

    method Rollback(i: string, execute: bool, a: Answers) returns (exit: nat)
      requires a.toolStatus != 0
      modifies this
      ensures OnDisk() == AfterRollback(old(OnDisk()), i, execute, a)
      ensures exit == RollbackExit(RollbackEndOf(old(OnDisk()), i, execute, a), a)
    {
      if !NameOk(i) || (i, Previous) !in records {
        return 2;
      }
      if !execute {
        return 0;
      }
      units := units[UnitName(Main, i) := records[(i, Previous)].unit];
      if !a.reload || !a.restart {
        return a.toolStatus;
      }
      records := records - {(i, SwapTmp)};
      if (i, Current) !in records {
        return 1;
      }
      records := (records - {(i, Current)})[(i, SwapTmp) := records[(i, Current)]];
      records := (records - {(i, Previous)})[(i, Current) := records[(i, Previous)]];
      records := (records - {(i, SwapTmp)})[(i, Previous) := records[(i, SwapTmp)]];
      exit := 0;
    }
  }
}
