/** What holds over whole runs of deploys and rollbacks, starting from nothing installed. */
module DeployRuns {
  import opened Json
  import opened Deploy

  // ----- runs -----

  datatype Command =
    | DeployCmd(req: Request, a: Answers)
    | RollbackCmd(i: string, execute: bool, a: Answers)

  function Instance(c: Command): string {
    if c.DeployCmd? then c.req.instance else c.i
  }

  function After(d: Disk, c: Command): Disk {
    match c
    case DeployCmd(req, a) => AfterDeploy(d, req, a)
    case RollbackCmd(i, execute, a) => AfterRollback(d, i, execute, a)
  }

  function Exit(d: Disk, c: Command): nat {
    match c
    case DeployCmd(req, a) => ExitCode(DeployEnd(d, req, a), a)
    case RollbackCmd(i, execute, a) => RollbackExit(RollbackEndOf(d, i, execute, a), a)
  }

  function Run(cs: seq<Command>): Disk {
    if cs == [] then EMPTY else After(Run(cs[..|cs| - 1]), cs[|cs| - 1])
  }

  /** Failing tools report a status that is not 0, and not the 3 the script itself uses. */
  predicate Plausible(c: Command) {
    c.a.toolStatus != 0 && c.a.toolStatus != 3
  }

  predicate EndsWell(d: Disk, c: Command) {
    Exit(d, c) == 0 || Exit(d, c) == 3
  }

  // ----- file names -----

  lemma PrefixCancels(p: string, x: string, y: string)
    ensures p + x == p + y <==> x == y
  {
    assert (p + x)[|p|..] == x && (p + y)[|p|..] == y;
  }

  lemma SuffixCancels(x: string, y: string, p: string)
    ensures x + p == y + p <==> x == y
  {
    assert x + p == y + p ==> x == (x + p)[..|x + p| - |p|] == y;
  }

  lemma LastCharacters(x: string, p: string, y: string, q: string)
    requires p != [] && q != [] && p[|p| - 1] != q[|q| - 1]
    ensures x + p != y + q
  {
    assert (x + p)[|x + p| - 1] == p[|p| - 1] && (y + q)[|y + q| - 1] == q[|q| - 1];
  }

  /** Only the kind's infix, the instance and the suffix decide a name. */
  lemma NameParts(k: Kind, i: string, l: Kind, j: string)
    ensures UnitName(k, i) == UnitName(l, j) <==> Suffix(k) == Suffix(l) && Infix(k) + i == Infix(l) + j
  {
    PrefixCancels("skgateway-", Infix(k) + (i + Suffix(k)), Infix(l) + (j + Suffix(l)));
    Associate(Infix(k), i, Suffix(k));
    Associate(Infix(l), j, Suffix(l));
    if Suffix(k) == Suffix(l) {
      SuffixCancels(Infix(k) + i, Infix(l) + j, Suffix(k));
    } else {
      LastCharacters(Infix(k) + i, Suffix(k), Infix(l) + j, Suffix(l));
    }
  }

  lemma Associate(x: string, y: string, z: string)
    ensures x + (y + z) == (x + y) + z
  {
  }

  lemma FirstCharacters(p: string, x: string, q: string, y: string)
    requires p != [] && q != [] && p[0] != q[0]
    ensures p + x != q + y
  {
    assert (p + x)[0] == p[0] && (q + y)[0] == q[0];
  }

  /** Two unit files share a name exactly when they are the same file, or an
    * instance is called after another one's optional unit. */
  lemma NamesCollideIff(k: Kind, i: string, l: Kind, j: string)
    ensures UnitName(k, i) == UnitName(l, j) <==>
      || (k == l && i == j)
      || (k == Main && l != Main && l != Socket && i == Infix(l) + j)
      || (l == Main && k != Main && k != Socket && j == Infix(k) + i)
  {
    NameParts(k, i, l, j);
    assert "" + i == i && "" + j == j;
    if Infix(k) == Infix(l) {
      PrefixCancels(Infix(k), i, j);
    } else if k != Main && l != Main {
      FirstCharacters(Infix(k), i, Infix(l), j);
    }
  }

  /** `i` is not called after an optional unit of `j`. */
  predicate NoAddonOf(i: string, j: string) {
    forall k | k != Main && k != Socket :: i != Infix(k) + j
  }

  /** Neither instance is called after an optional unit of the other. */
  predicate Apart(i: string, j: string) {
    i != j && NoAddonOf(i, j) && NoAddonOf(j, i)
  }

  /** Optional files are named for their instance. */
  lemma AddonNames(req: Request, env: EnvFile, name: string)
    requires name in AddonFiles(req, env).units
    ensures exists k :: k != Main && name == UnitName(k, req.instance)
  {
    var i := req.instance;
    assert name in ShadowFiles(req, env).units ==> name == UnitName(Shadow, i);
    if name in IngressFiles(req, env).units {
      IngressNames(req, env, name);
    }
    assert name in CanaryFiles(req, env).units ==> name == UnitName(Canary, i);
  }

  lemma IngressNames(req: Request, env: EnvFile, name: string)
    requires name in IngressFiles(req, env).units
    ensures name == UnitName(Socket, req.instance) || name == UnitName(Proxy, req.instance)
  {
  }

  predicate SameFor(i: string, d: Disk, e: Disk) {
    && (forall k :: Same(UnitName(k, i), d.units, e.units))
    && Same(HealthName(i), d.libexec, e.libexec)
    && Same(i, d.secrets, e.secrets)
    && (forall s :: Same((i, s), d.records, e.records))
  }

  predicate Same<K, V(==)>(key: K, x: map<K, V>, y: map<K, V>) {
    if key in x then key in y && x[key] == y[key] else key !in y
  }

  /** A command on one instance leaves every other instance as it was. */
  lemma OthersAreUntouched(d: Disk, c: Command, i: string)
    requires Apart(i, Instance(c))
    ensures SameFor(i, d, After(d, c))
  {
    forall k: Kind ensures Same(UnitName(k, i), d.units, After(d, c).units) {
      if c.DeployCmd? {
        OtherUnitUntouched(d, c.req, c.a, k, i);
      } else {
        NamesCollideIff(k, i, Main, Instance(c));
      }
    }
    if c.DeployCmd? {
      OtherFilesUntouched(d, c.req, c.a, i);
    }
  }

  lemma OtherFilesUntouched(d: Disk, req: Request, a: Answers, i: string)
    requires i != req.instance
    ensures var e := AfterDeploy(d, req, a);
      && Same(HealthName(i), d.libexec, e.libexec)
      && Same(i, d.secrets, e.secrets)
      && forall s :: Same((i, s), d.records, e.records)
  {
    HealthNamesDiffer(i, req.instance);
    if a.env.Some? && HealthName(i) in AddonFiles(req, a.env.value).libexec {
      AddonScripts(req, a.env.value, HealthName(i));
    }
    OtherSecretsUntouched(d, req, a, DeployEnd(d, req, a), i);
  }

  lemma OtherSecretsUntouched(d: Disk, req: Request, a: Answers, e: End, i: string)
    requires i != req.instance
    ensures Same(i, d.secrets, SecretsAfter(d, req, a, e))
  {
  }

  lemma HealthNamesDiffer(i: string, j: string)
    requires i != j
    ensures HealthName(i) != HealthName(j)
  {
    PrefixCancels("canary-", i + "-health", j + "-health");
    SuffixCancels(i, j, "-health");
  }

  lemma AddonScripts(req: Request, env: EnvFile, name: string)
    requires name in AddonFiles(req, env).libexec
    ensures name == HealthName(req.instance)
  {
  }

  lemma OtherUnitNotWritten(req: Request, env: EnvFile, k: Kind, i: string)
    requires i != req.instance && if k == Main then NoAddonOf(i, req.instance) else NoAddonOf(req.instance, i)
    ensures UnitName(k, i) != UnitName(Main, req.instance) && UnitName(k, i) !in AddonFiles(req, env).units
  {
    NamesCollideIff(k, i, Main, req.instance);
    if UnitName(k, i) in AddonFiles(req, env).units {
      AddonNames(req, env, UnitName(k, i));
      var l :| l != Main && UnitName(k, i) == UnitName(l, req.instance);
      NamesCollideIff(k, i, l, req.instance);
    }
  }

  lemma OtherUnitUntouched(d: Disk, req: Request, a: Answers, k: Kind, i: string)
    requires i != req.instance && if k == Main then NoAddonOf(i, req.instance) else NoAddonOf(req.instance, i)
    ensures Same(UnitName(k, i), d.units, AfterDeploy(d, req, a).units)
  {
    OtherUnitNotWritten(req, if a.env.Some? then a.env.value else map[], k, i);
  }

  /** For the main unit and the records it is enough that `i` is not called after the other's optional unit. */
  lemma MainIsUntouched(d: Disk, c: Command, i: string)
    requires i != Instance(c) && NoAddonOf(i, Instance(c))
    ensures Same(UnitName(Main, i), d.units, After(d, c).units)
    ensures forall s :: Same((i, s), d.records, After(d, c).records)
  {
    if c.DeployCmd? {
      OtherUnitUntouched(d, c.req, c.a, Main, i);
      OtherFilesUntouched(d, c.req, c.a, i);
    } else {
      NamesCollideIff(Main, i, Main, Instance(c));
    }
  }

  // ----- when names clash -----

  /** A deploy that gets as far as its optional files puts them where their names say. */
  lemma ClashOverwrites(d: Disk, req: Request, a: Answers, k: Kind, i: string)
    requires k != Main && k != Socket && i == Infix(k) + req.instance
    requires a.env.Some? && UnitName(k, req.instance) in AddonFiles(req, a.env.value).units
    requires var e := DeployEnd(d, req, a); ReachesInstall(e) && e != NotStarted
    ensures UnitName(Main, i) in AfterDeploy(d, req, a).units
    ensures AfterDeploy(d, req, a).units[UnitName(Main, i)] ==
      AddonFiles(req, a.env.value).units[UnitName(k, req.instance)]
  {
    NamesCollideIff(Main, i, k, req.instance);
    NamesCollideIff(Main, i, Main, req.instance);
    assert i != req.instance by {
      assert |Infix(k)| > 0;
    }
  }

  /** A healthy first deploy with every optional unit on. */
  function FullEnv(): EnvFile {
    map[PORT := "1", RELEASE := "1", CONFIG_SCHEMA := "1", SHADOW_ENABLED := "1", SHADOW_PORT := "1",
      INGRESS_SOCKET := "1", CANARY := "1",
      CANARY_LOCAL_PORT := "1", CANARY_REMOTE_HOST := "1", CANARY_REMOTE_PORT := "1"]
  }

  function FullRequest(j: string): Request {
    Request("1", "/", j, true, false, "/", _ => "")
  }

  function FullAnswers(): Answers {
    Answers(true, true, Some(FullEnv()), true, true, true, true, Some(""), true, true, true, None, true, true, true,
      [true], true, 1)
  }

  lemma FullDeploySucceeds(j: string)
    requires NameOk(j)
    ensures DeployEnd(EMPTY, FullRequest(j), FullAnswers()) == Deployed
    ensures AddonFiles(FullRequest(j), FullEnv()).ok
  {
    var schema := GetOr(FullEnv(), CONFIG_SCHEMA, "0");
    assert schema == "1" && schema[0] != '0';
    assert SecretsMethod(FullEnv()) == Plain;
    assert FullAnswers().health[0];
  }

  lemma FullDeployWrites(j: string, k: Kind)
    requires NameOk(j) && k != Socket
    ensures UnitName(k, j) in AfterDeploy(EMPTY, FullRequest(j), FullAnswers()).units
  {
    FullDeploySucceeds(j);
    DeployedUnits(EMPTY, FullRequest(j), FullAnswers());
    if k != Main {
      FullAddons(FullRequest(j), k);
    }
  }

  lemma DeployedUnits(d: Disk, req: Request, a: Answers)
    requires DeployEnd(d, req, a) == Deployed
    ensures AfterDeploy(d, req, a).units
         == d.units[UnitName(Main, req.instance) := NewUnit(req, a.env.value)] + AddonFiles(req, a.env.value).units
  {
  }

  lemma FullAddons(req: Request, k: Kind)
    requires k != Main && k != Socket
    ensures UnitName(k, req.instance) in AddonFiles(req, FullEnv()).units
  {
    var name := UnitName(k, req.instance);
    match k {
      case Shadow => assert name in ShadowFiles(req, FullEnv()).units;
      case Proxy => assert name in IngressFiles(req, FullEnv()).units;
      case Canary => assert name in CanaryFiles(req, FullEnv()).units;
    }
  }

  /** Commands on `j` leave all that belongs to `i` alone, in every state, exactly when neither instance is
    * called after an optional unit of the other, or the name check refuses `j` anyway. */
  lemma OthersAreUntouchedIff(i: string, j: string)
    requires i != j
    ensures (forall d, c | Instance(c) == j :: SameFor(i, d, After(d, c))) <==> Apart(i, j) || !NameOk(j)
  {
    if Apart(i, j) || !NameOk(j) {
      forall d, c | Instance(c) == j ensures SameFor(i, d, After(d, c)) {
        if Apart(i, j) {
          OthersAreUntouched(d, c, i);
        } else {
          RefusedChangesNothing(d, c);
        }
      }
    } else {
      var c := DeployCmd(FullRequest(j), FullAnswers());
      var k :| k != Main && k != Socket && (i == Infix(k) + j || j == Infix(k) + i);
      var mine, theirs := if i == Infix(k) + j then Main else k, if i == Infix(k) + j then k else Main;
      NamesCollideIff(mine, i, theirs, j);
      FullDeployWrites(j, theirs);
      assert !Same(UnitName(mine, i), EMPTY.units, After(EMPTY, c).units);
      assert !SameFor(i, EMPTY, After(EMPTY, c));
    }
  }

  lemma RefusedChangesNothing(d: Disk, c: Command)
    requires !NameOk(Instance(c))
    ensures After(d, c) == d
  {
  }

  // ----- records and the installed unit -----

  /** A previous release implies a current one, and the unit on disk is the recorded one. */
  predicate Good(d: Disk, i: string) {
    && ((i, Previous) in d.records ==> (i, Current) in d.records)
    && ((i, Current) in d.records ==>
      UnitName(Main, i) in d.units && d.units[UnitName(Main, i)] == d.records[(i, Current)].unit)
  }

  /** The unit was replaced by a different one and the command stopped there. */
  predicate Stranded(d: Disk, c: Command) {
    var i := Instance(c);
    match c
    case DeployCmd(req, a) =>
      && (DeployEnd(d, req, a) == NotStarted || DeployEnd(d, req, a) == AddonRefused)
      && (i, Current) in d.records && d.records[(i, Current)].unit != NewUnit(req, a.env.value)
    case RollbackCmd(_, execute, a) =>
      && RollbackEndOf(d, i, execute, a) == NotRestarted
      && (i, Current) in d.records && d.records[(i, Current)].unit != d.records[(i, Previous)].unit
  }

  /** A command keeps its instance's records true exactly when it is not stranded half-way. */
  lemma StepIsGoodIff(d: Disk, c: Command)
    requires Good(d, Instance(c))
    ensures Good(After(d, c), Instance(c)) <==> !Stranded(d, c)
  {
    if c.DeployCmd? {
      DeployIsGoodIff(d, c.req, c.a);
    }
  }

  lemma DeployIsGoodIff(d: Disk, req: Request, a: Answers)
    requires Good(d, req.instance)
    ensures Good(AfterDeploy(d, req, a), req.instance) <==> !Stranded(d, DeployCmd(req, a))
  {
    if a.env.Some? {
      OwnUnitIsNoAddon(req, a.env.value);
    }
  }

  /** A deploy that ends well puts right whatever was stranded before it. */
  lemma DeployRepairs(d: Disk, req: Request, a: Answers)
    requires DeployEnd(d, req, a) == Deployed
    ensures Good(AfterDeploy(d, req, a), req.instance)
  {
    OwnUnitIsNoAddon(req, a.env.value);
  }

  /** Commands that end with 0 or 3 are never stranded. */
  lemma CleanIsNotStranded(d: Disk, c: Command)
    requires Plausible(c) && EndsWell(d, c)
    ensures !Stranded(d, c)
  {
  }

  /** Every command of a run ends with 0 or 3. */
  predicate AllClean(cs: seq<Command>) {
    forall k | 0 <= k < |cs| :: Plausible(cs[k]) && EndsWell(Run(cs[..k]), cs[k])
  }

  /** The instance is not called after an optional unit of any other one in the run. */
  predicate NeverAddonOf(cs: seq<Command>, i: string) {
    forall k | 0 <= k < |cs| :: Instance(cs[k]) == i || NoAddonOf(i, Instance(cs[k]))
  }

  predicate NoneStranded(cs: seq<Command>, i: string) {
    forall k | 0 <= k < |cs| && Instance(cs[k]) == i :: !Stranded(Run(cs[..k]), cs[k])
  }

  lemma Prefixes(cs: seq<Command>)
    requires cs != []
    ensures forall k | 0 <= k < |cs| :: cs[..|cs| - 1][..k] == cs[..k]
  {
  }

  /** Over every run, an instance's records stay true as long as none of its own commands is stranded. */
  lemma {:induction false} RecordsStayTrue(cs: seq<Command>, i: string)
    requires NeverAddonOf(cs, i) && NoneStranded(cs, i)
    ensures Good(Run(cs), i)
  {
    if cs != [] {
      Prefixes(cs);
      var c := cs[|cs| - 1];
      var d := Run(cs[..|cs| - 1]);
      RecordsStayTrue(cs[..|cs| - 1], i);
      if Instance(c) == i {
        StepIsGoodIff(d, c);
      } else {
        MainIsUntouched(d, c, i);
        assert Same((i, Current), d.records, After(d, c).records) &&
          Same((i, Previous), d.records, After(d, c).records);
      }
    }
  }

  lemma CleanRunsKeepRecordsTrue(cs: seq<Command>, i: string)
    requires NeverAddonOf(cs, i) && AllClean(cs)
    ensures Good(Run(cs), i)
  {
    forall k | 0 <= k < |cs| && Instance(cs[k]) == i ensures !Stranded(Run(cs[..k]), cs[k]) {
      CleanIsNotStranded(Run(cs[..k]), cs[k]);
    }
    RecordsStayTrue(cs, i);
  }

  /** Whatever else went wrong, an exit other than 0 leaves both records of every instance alone. */
  lemma OnlyExitZeroRecords(d: Disk, c: Command, i: string)
    requires c.a.toolStatus != 0 && Exit(d, c) != 0
    ensures Same((i, Current), d.records, After(d, c).records)
    ensures Same((i, Previous), d.records, After(d, c).records)
  {
  }

  predicate FailsAt(cs: seq<Command>, k: nat) {
    k < |cs| && cs[k].a.toolStatus != 0 && Exit(Run(cs[..k]), cs[k]) != 0
  }

  /** Over any stretch of a run in which nothing exits with 0, both records of every instance stay. */
  lemma {:induction false} FailingStretchKeepsRecords(cs: seq<Command>, n: nat, i: string)
    requires n <= |cs| && forall k | n <= k < |cs| :: FailsAt(cs, k)
    ensures Same((i, Current), Run(cs[..n]).records, Run(cs).records)
    ensures Same((i, Previous), Run(cs[..n]).records, Run(cs).records)
    decreases |cs|
  {
    if n == |cs| {
      assert cs[..n] == cs;
    } else {
      var m := |cs| - 1;
      assert cs[..m][..n] == cs[..n];
      forall k | n <= k < m ensures FailsAt(cs[..m], k) {
        assert FailsAt(cs, k) && cs[..m][..k] == cs[..k];
      }
      assert FailsAt(cs, m);
      FailingStretchKeepsRecords(cs[..m], n, i);
      OnlyExitZeroRecords(Run(cs[..m]), cs[m], i);
    }
  }

  /** A tool that fails with status 3 looks like a completed roll-back and is not one. */
  lemma StatusThreeIsAmbiguous(d: Disk, req: Request, a: Answers)
    requires Good(d, req.instance) && (req.instance, Current) in d.records
    requires DeployEnd(d, req, a) == NotStarted && a.toolStatus == 3
    requires d.records[(req.instance, Current)].unit != NewUnit(req, a.env.value)
    ensures Exit(d, DeployCmd(req, a)) == 3 && !Good(AfterDeploy(d, req, a), req.instance)
  {
    StepIsGoodIff(d, DeployCmd(req, a));
  }

  // ----- undoing -----

  /** Rolling back a deploy brings the earlier release and unit back and keeps the new one. */
  lemma RollbackUndoesDeploy(d: Disk, req: Request, a: Answers, b: Answers)
    requires (req.instance, Current) in d.records
    requires a.toolStatus != 0 && b.toolStatus != 0 && req.execute
    requires Exit(d, DeployCmd(req, a)) == 0
    requires Exit(AfterDeploy(d, req, a), RollbackCmd(req.instance, true, b)) == 0
    ensures var i, back := req.instance, AfterRollback(AfterDeploy(d, req, a), req.instance, true, b);
      && (i, Current) in back.records && back.records[(i, Current)] == d.records[(i, Current)]
      && UnitName(Main, i) in back.units && back.units[UnitName(Main, i)] == d.records[(i, Current)].unit
      && (i, Previous) in back.records && back.records[(i, Previous)] == Record(req.release, NewUnit(req, a.env.value))
      && (Good(d, i) ==> back.units[UnitName(Main, i)] == d.units[UnitName(Main, i)])
  {
  }

  /** Two roll-backs in a row leave the instance as it was. */
  lemma TwoRollbacksAreNone(d: Disk, i: string, a: Answers, b: Answers)
    requires Good(d, i) && a.toolStatus != 0 && b.toolStatus != 0
    requires Exit(d, RollbackCmd(i, true, a)) == 0
    requires Exit(AfterRollback(d, i, true, a), RollbackCmd(i, true, b)) == 0
    ensures AfterRollback(AfterRollback(d, i, true, a), i, true, b) == d.(records := d.records - {(i, SwapTmp)})
  {
    var e := AfterRollback(d, i, true, a);
    var f := AfterRollback(e, i, true, b);
    assert f.records.Keys == d.records.Keys - {(i, SwapTmp)};
    assert f.records == d.records - {(i, SwapTmp)};
    assert f.units == d.units;
  }

  /** Exit 3 keeps both records and brings the unit back, but not the secrets. */
  lemma ExitThree(d: Disk, req: Request, a: Answers)
    requires Plausible(DeployCmd(req, a)) && Good(d, req.instance)
    requires Exit(d, DeployCmd(req, a)) == 3
    ensures var e, i := AfterDeploy(d, req, a), req.instance;
      && e.records == d.records && !Healthy(a)
      && ((i, Current) in d.records ==> Same(UnitName(Main, i), d.units, e.units))
      && i in e.secrets
      && e.secrets[i] == if SecretsMethod(a.env.value) == Plain then a.secretsFile.value else a.decrypted.value
  {
    OwnUnitIsNoAddon(req, a.env.value);
  }

  lemma DryRunChangesNothing(d: Disk, c: Command)
    requires if c.DeployCmd? then !c.req.execute else !c.execute
    ensures After(d, c) == d
  {
    if c.DeployCmd? {
      assert DeployEnd(d, c.req, c.a) == DryRun || DeployEnd(d, c.req, c.a) == Refused;
    }
  }

  /** Whatever a deploy changed on disk, it was asked to execute, and every check had passed. */
  lemma ChangesNeedEveryCheck(d: Disk, req: Request, a: Answers)
    requires AfterDeploy(d, req, a) != d
    ensures req.execute && NameOk(req.instance) && a.repoClean && a.configFile && a.secretsFile.Some?
    ensures a.tagExists && a.mainExists && a.merged
    ensures a.env.Some? && PORT in a.env.value && RELEASE in a.env.value
    ensures req.force || a.env.value[RELEASE] == req.release
    ensures var schema := GetOr(a.env.value, CONFIG_SCHEMA, "0");
      (forall i | 0 <= i < |schema| :: '0' <= schema[i] <= '9') && Number(schema) >= 1
  {
    SchemaIsNumeric(GetOr(a.env.value, CONFIG_SCHEMA, "0"));
  }

  // ----- where releases come from -----

  predicate Deploys(d: Disk, c: Command, i: string, r: Record) {
    && c.DeployCmd? && c.req.instance == i && DeployEnd(d, c.req, c.a) == Deployed
    && r == Record(c.req.release, NewUnit(c.req, c.a.env.value))
  }

  predicate DeployedAt(cs: seq<Command>, k: int, i: string, r: Record) {
    0 <= k < |cs| && Deploys(Run(cs[..k]), cs[k], i, r)
  }

  /** A command either deploys a record or found it on disk for the same instance. */
  lemma RecordsAreMoved(d: Disk, c: Command, i: string, s: Place)
    requires (i, s) in After(d, c).records
    ensures var r := After(d, c).records[(i, s)];
      Deploys(d, c, i, r) || exists t :: (i, t) in d.records && d.records[(i, t)] == r
  {
    var r := After(d, c).records[(i, s)];
    assert Deploys(d, c, i, r)
      || ((i, s) in d.records && d.records[(i, s)] == r)
      || ((i, Current) in d.records && d.records[(i, Current)] == r)
      || ((i, Previous) in d.records && d.records[(i, Previous)] == r);
  }

  /** Over every run, whatever its exits: each record was written by a deploy of that instance that ended well. */
  lemma {:induction false} RecordsAreDeployed(cs: seq<Command>, i: string, s: Place)
    requires (i, s) in Run(cs).records
    ensures exists k :: DeployedAt(cs, k, i, Run(cs).records[(i, s)])
  {
    var n := |cs| - 1;
    var r := Run(cs).records[(i, s)];
    Prefixes(cs);
    RecordsAreMoved(Run(cs[..n]), cs[n], i, s);
    if Deploys(Run(cs[..n]), cs[n], i, r) {
      assert DeployedAt(cs, n, i, r);
    } else {
      var t :| (i, t) in Run(cs[..n]).records && Run(cs[..n]).records[(i, t)] == r;
      RecordsAreDeployed(cs[..n], i, t);
      var k :| DeployedAt(cs[..n], k, i, r);
      assert DeployedAt(cs, k, i, r);
    }
  }

  // ----- git history -----

  type Commit = string

  /** Parents of each commit, what each tag names, and the tip of main. */
  datatype Repo = Repo(parents: map<Commit, set<Commit>>, tags: map<string, Commit>, main: Commit)

  /** Commits from `y` down to `x`, each a parent of the one before. */
  predicate Descent(parents: map<Commit, set<Commit>>, p: seq<Commit>, x: Commit, y: Commit) {
    p != [] && p[0] == y &&
    if |p| == 1 then x == y
    else y in parents && p[1] in parents[y] && Descent(parents, p[1..], x, p[1])
  }

  lemma {:induction false} Joined(r: map<Commit, set<Commit>>, p: seq<Commit>, q: seq<Commit>, x: Commit, y: Commit,
                                  z: Commit)
    requires Descent(r, p, x, y) && Descent(r, q, y, z)
    ensures Descent(r, q + p[1..], x, z)
  {
    if |q| == 1 {
      assert q + p[1..] == p;
    } else {
      Joined(r, p, q[1..], x, y, q[1]);
      assert (q + p[1..])[1..] == q[1..] + p[1..];
    }
  }

  lemma {:induction false} PathStays(r: map<Commit, set<Commit>>, s: map<Commit, set<Commit>>, p: seq<Commit>,
                                     x: Commit, y: Commit)
    requires Descent(r, p, x, y) && forall c | c in r :: c in s && s[c] == r[c]
    ensures Descent(s, p, x, y)
  {
    if |p| > 1 {
      PathStays(r, s, p[1..], x, p[1]);
    }
  }

  ghost predicate Ancestor(parents: map<Commit, set<Commit>>, x: Commit, y: Commit) {
    exists p :: Descent(parents, p, x, y)
  }

  ghost predicate OnMain(r: Repo, tag: string) {
    tag in r.tags && Ancestor(r.parents, r.tags[tag], r.main)
  }

  /** History only grows, tags stay, and main moves to a descendant. */
  ghost predicate Grows(r: Repo, s: Repo) {
    && (forall c | c in r.parents :: c in s.parents && s.parents[c] == r.parents[c])
    && (forall t | t in r.tags :: t in s.tags && s.tags[t] == r.tags[t])
    && Ancestor(s.parents, r.main, s.main)
  }

  lemma StaysOnMain(r: Repo, s: Repo, tag: string)
    requires Grows(r, s) && OnMain(r, tag)
    ensures OnMain(s, tag)
  {
    var x := r.tags[tag];
    var p :| Descent(r.parents, p, x, r.main);
    var q :| Descent(s.parents, q, r.main, s.main);
    PathStays(r.parents, s.parents, p, x, r.main);
    Joined(s.parents, p, q, x, r.main, s.main);
  }

  /** A command together with the repository it ran against. */
  datatype Moment = Moment(command: Command, repo: Repo)

  /** git answered the reachability question truthfully. */
  ghost predicate Honest(m: Moment) {
    m.command.DeployCmd? && m.command.a.tagExists && m.command.a.merged ==> OnMain(m.repo, m.command.req.release)
  }

  function Commands(ms: seq<Moment>): (cs: seq<Command>)
    ensures |cs| == |ms| && forall k | 0 <= k < |ms| :: cs[k] == ms[k].command
  {
    if ms == [] then [] else Commands(ms[..|ms| - 1]) + [ms[|ms| - 1].command]
  }

  ghost predicate History(ms: seq<Moment>) {
    && (forall k | 0 <= k < |ms| :: Honest(ms[k]))
    && (forall k | 0 < k < |ms| :: Grows(ms[k - 1].repo, ms[k].repo))
  }

  ghost predicate Available(d: Disk, r: Repo) {
    forall k | k in d.records :: d.records[k].release in d.checkouts && OnMain(r, d.records[k].release)
  }

  lemma StepStaysAvailable(d: Disk, m: Moment)
    requires Plausible(m.command) && EndsWell(d, m.command) && Honest(m) && Available(d, m.repo)
    ensures Available(After(d, m.command), m.repo)
  {
    var e := After(d, m.command);
    forall k | k in e.records ensures e.records[k].release in e.checkouts && OnMain(m.repo, e.records[k].release) {
      RecordsAreMoved(d, m.command, k.0, k.1);
    }
  }

  /** Over every run ending in 0 or 3, each recorded release was merged, is still
    * reachable from wherever main has moved to, and has its checkout on disk. */
  lemma {:induction false} ReleasesStayAvailable(ms: seq<Moment>, now: Repo)
    requires History(ms) && AllClean(Commands(ms))
    requires ms != [] ==> Grows(ms[|ms| - 1].repo, now)
    ensures Available(Run(Commands(ms)), now)
  {
    if ms != [] {
      var n := |ms| - 1;
      var cs := Commands(ms);
      assert cs[..n] == Commands(ms[..n]) && cs[n] == ms[n].command;
      CleanPrefix(cs);
      ReleasesStayAvailable(ms[..n], ms[n].repo);
      StepStaysAvailable(Run(cs[..n]), ms[n]);
      StaysAvailable(Run(cs), ms[n].repo, now);
    }
  }

  lemma CleanPrefix(cs: seq<Command>)
    requires cs != [] && AllClean(cs)
    ensures var n := |cs| - 1; AllClean(cs[..n]) && Plausible(cs[n]) && EndsWell(Run(cs[..n]), cs[n])
  {
    Prefixes(cs);
  }

  lemma StaysAvailable(d: Disk, r: Repo, s: Repo)
    requires Available(d, r) && Grows(r, s)
    ensures Available(d, s)
  {
    forall k | k in d.records ensures OnMain(s, d.records[k].release) {
      StaysOnMain(r, s, d.records[k].release);
    }
  }

  // ----- checkouts -----

  /** What a command does to the checkout of a tag: a deploy either gets past fetching it,
    * or removes it and fails to make another. */
  datatype Effect = Fetched | Dropped | Neither

  function EffectOn(d: Disk, c: Command, tag: string): Effect {
    if !c.DeployCmd? || c.req.release != tag then Neither
    else
      match DeployEnd(d, c.req, c.a)
      case Refused => Neither
      case DryRun => Neither
      case CloneFailed => Dropped
      case _ => Fetched
  }

  function Effects(cs: seq<Command>, tag: string): (es: seq<Effect>)
    ensures |es| == |cs|
  {
    if cs == [] then []
    else Effects(cs[..|cs| - 1], tag) + [EffectOn(Run(cs[..|cs| - 1]), cs[|cs| - 1], tag)]
  }

  lemma {:induction false} EffectIs(cs: seq<Command>, k: nat, tag: string)
    requires k < |cs|
    ensures Effects(cs, tag)[k] == EffectOn(Run(cs[..k]), cs[k], tag)
  {
    var n := |cs| - 1;
    if k < n {
      assert cs[..n][..k] == cs[..k] && cs[..n][k] == cs[k];
      assert Effects(cs, tag)[k] == Effects(cs[..n], tag)[k];
      EffectIs(cs[..n], k, tag);
    }
  }

  /** Something fetched, and nothing later dropped. */
  predicate EndsFetched(es: seq<Effect>) {
    exists k | 0 <= k < |es| :: es[k] == Fetched && forall l | k < l < |es| :: es[l] != Dropped
  }

  lemma EndsFetchedStep(es: seq<Effect>, e: Effect)
    ensures EndsFetched(es + [e]) <==> e == Fetched || (EndsFetched(es) && e != Dropped)
  {
    var all, n := es + [e], |es|;
    assert all[n] == e && forall k | 0 <= k < n :: all[k] == es[k];
    if EndsFetched(es) && e != Dropped {
      var k :| 0 <= k < n && es[k] == Fetched && forall l | k < l < n :: es[l] != Dropped;
      assert all[k] == Fetched && forall l | k < l < |all| :: all[l] != Dropped;
    }
    if EndsFetched(all) && e != Fetched {
      var k :| 0 <= k < |all| && all[k] == Fetched && forall l | k < l < |all| :: all[l] != Dropped;
      assert es[k] == Fetched && forall l | k < l < n :: es[l] == all[l];
    }
  }

  /** Over every run, whatever its exits, a tag is checked out exactly when some deploy fetched it
    * and no later one dropped it. */
  lemma {:induction false} CheckedOutIff(cs: seq<Command>, tag: string)
    ensures tag in Run(cs).checkouts <==> EndsFetched(Effects(cs, tag))
    ensures forall k | 0 <= k < |cs| :: Effects(cs, tag)[k] == EffectOn(Run(cs[..k]), cs[k], tag)
  {
    forall k | 0 <= k < |cs| ensures Effects(cs, tag)[k] == EffectOn(Run(cs[..k]), cs[k], tag) {
      EffectIs(cs, k, tag);
    }
    if cs != [] {
      var n := |cs| - 1;
      CheckedOutIff(cs[..n], tag);
      CheckoutStep(Run(cs[..n]), cs[n], tag);
      EndsFetchedStep(Effects(cs[..n], tag), EffectOn(Run(cs[..n]), cs[n], tag));
    }
  }

  lemma CheckoutStep(d: Disk, c: Command, tag: string)
    ensures tag in After(d, c).checkouts <==>
      EffectOn(d, c, tag) == Fetched || (tag in d.checkouts && EffectOn(d, c, tag) != Dropped)
  {
  }
}
