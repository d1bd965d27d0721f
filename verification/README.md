# SKGateway: verified models of configuration, deployment, repair and reporting

A Dafny project about the stateful code of SKGateway. Each part models what the
code does, in the form the code has (objects updated in place become classes,
loops become methods, pure helpers become functions), and proves what that part
is for.

| part | files | main results |
|---|---|---|
| Configuration engine | `Json`, `Merge`, `Objects`, `Document`, `Capacity`, `Pipeline`, `Effective`, `Reload` | The in-place merge on object trees computes the pure overlay and never writes the source or the defaults; the overlay obeys a path law, is idempotent, and is associative exactly under a stated condition; the validator is silent exactly on well-formed capacity partitions; an accepted configuration shows the document laid over the defaults wherever no later stage writes, and its registry is exactly what was declared; over every run of loads and reloads the active configuration is the last one built, and it passed validation. |
| Glob compilers | `Glob` | The text each matcher compiles a pattern to, parsed as a regular expression, accepts what the glob denotes: always for the parity matcher, exactly for patterns without `?` for the configuration matcher. |
| Deploy and rollback | `Template`, `Deploy`, `DeployRuns`, `Installed` | Sequential template substitution is simultaneous substitution under conditions that are also necessary; over every run, records and installed units agree unless a command was stranded half-way, and each record holds the unit of its own release; rollback undoes deploy; releases stay merged and checked out; instances do not touch one another exactly when their names do not clash. |
| Lifecycle-store repair | `Repair` | Which records survive, and with what fields, exactly; the inversion is gone after a run; a second run changes nothing exactly when the first run's clock was plausible or no record was stale; full accounting. |
| Catalogue verification | `Probe`, `Verified`, `Sums` | One result per id within stated bounds on requests; every result is counted under the provider the advertised models name, and nothing is lost; exits 0, 1 and 2 exactly. |
| Parity check | `Parity` | Exit 0 exactly when everything declared is served as declared. |
| Ledger reports | `Reports`, `Sums` | Every number of a report said of the ledger's lines; reports ignore the ledger's order; counts add up. |

## How the code is modelled

* **Objects.** `Objects.JsObject` is a mutable mapping; `View()` is the value its
  tree spells out. `repr` is ghost and bounds what is reachable. `Kept(o)` says
  that a whole tree is as it was before.
* **Order.** Loops over the entries of an object visit them in an arbitrary
  order, so every result holds for every order.
* **World.** Files, environment variables, tool answers, probe outcomes,
  catalogues and clocks are inputs. A gateway is an arbitrary sequence of answers
  (`Probe.Timeline`); a deploy is given an arbitrary set of tool answers
  (`Deploy.Answers`), and a unit is the text that an arbitrary rendering of its
  settings gives (`Deploy.Request.text`; the rendering itself is `Template`).
* **Builds.** What the remaining environment variables, path resolution and
  normalisation write is an arbitrary sequence of values stored elsewhere
  (`Pipeline.Site.elsewhere`); what the remaining checks say is an arbitrary
  predicate on the result (`Pipeline.Site.others`).
* **Failures.** Thrown errors are `Result` values or outcomes; shell exits are
  exit codes. A tool that fails under `set -e` ends the script with the tool's
  own status, `toolStatus`, any number but 0.
* **Numbers.** JavaScript numbers are reals, with one extra value for the ones
  JSON cannot write.

## Where code and documentation part ways, and other surprises

* `scripts/repair-lifecycle-store.mjs:17-19` says that running it twice
  converges. `Repair.RunningAgainIff`: it does not when the first run's own clock
  lies below the plausibility threshold and it finds something to retire, since
  its own retirements then look like test writes and are dropped.
* `scripts/verify-catalog.mjs:369-373` says that an unreachable outcome never
  alerts. It never makes the liveness part drift, but
  `Verified.OutageIsFailoverDrift`: when the catalogues can be fetched but every
  completion is then refused, no failover candidate answers, and the run exits 1
  on that alone. When a fetch is refused already, it exits 2.
* `scripts/verify-catalog.mjs:259` tests the error message for truth, so a failed
  connection with an empty message is counted as dead (`Probe.ClassifyProbe`,
  `Probe.DeadNeedsEvidence`).
* `src/config.mjs:777-782` leaves `?` out of its escape set, so a pattern holding
  one is not read as a glob (`Glob.ConfigMeansTheGlobIff`).
* `deploy/skgateway-deploy` documents exit 3 as a completed roll-back. A failing
  tool may itself exit with 3 (`DeployRuns.StatusThreeIsAmbiguous`), and a real
  exit 3 leaves the new secrets in place (`DeployRuns.ExitThree`).
* `src/config.mjs:1218-1223` expands credentials paths after the merge, so an
  active entry need not be the overlay of its default by the declared entry
  (`Pipeline.EntryIsPlainIff`).
* A value that is a placeholder is replaced again, and so is text between two
  placeholders that spells a listed name (`Template.ValuesAreRescanned`,
  `Template.MistakenText`). `Template.SimultaneousIff` and
  `Template.FillsExactlyIff` give the exact conditions.
* The name check at `deploy/skgateway-deploy:86-89` allows an instance to be called
  after an optional unit of another one, which then overwrite each other
  (`DeployRuns.OthersAreUntouchedIff`).

## Model

| member | source | states |
|---|---|---|
| Json.CloneIsFaithfulIff | src/config.mjs:486-488 | A JSON round trip gives back the value exactly when every number in it can be written as JSON |
| Merge.PathLaw | src/config.mjs:461-478 | What the merge shows at any path is determined by what the two layers show there: an override leaf above hides, an override value wins, an absent one keeps the base |
| Merge.RoundLaw | src/config.mjs:486-488 | A JSON clone shows at every path what the original does, arrays and all, except that numbers JSON cannot write become null |
| Merge.LeafWinsAndHides | src/config.mjs:461-478 | A leaf of the override is what the merge shows at its path, and nothing of the base remains reachable below it |
| Merge.OverlayIsIdempotent | src/config.mjs:461-478 | Merging the same override a second time changes nothing |
| Merge.RedundantIff | src/config.mjs:461-478 | The base leaves no trace exactly when the override covers each of its keys at every mapping level |
| Merge.AssociativeIff | src/config.mjs:461-478 | Three layers may be regrouped exactly when no leaf of the middle one separates two mappings, unless the outer hides the inner anyway |
| Objects.Assign | src/config.mjs:474 | Storing a property changes that key only; the stored subtree joins the target's tree and is not written |
| Objects.MergeKey | src/config.mjs:462-476 | One turn of the merge: recursion when both sides are mappings, replacement otherwise, writing only the target and what hangs below that key |
| Objects.DeepMerge | src/config.mjs:461-478 | On disjoint trees the in-place merge leaves the target spelling the pure overlay; it may only write objects the target reached at the start, so the source is untouched although its subtrees are stored |
| Objects.DeepClone | src/config.mjs:486-488 | The clone spells the JSON round trip of the original and shares no object with it |
| Objects.SetPath | src/config.mjs:567 | Writing one value deep inside a tree changes the value at that path and no other object outside the tree |
| Document.Configure | src/config.mjs:545-548 | An entry is merged over a clone of its built-in namesake, so the built-in one is unchanged |
| Document.SortEntry | src/config.mjs:533-544 | An entry is refused, switched off or active by the same tests, in the same order |
| Document.ReadBackends | src/config.mjs:525-549 | In any order of entries the loop ends with the active registry, the removed ids and the problems that the declarative reading gives |
| Document.ReplaceBackends | src/config.mjs:523-553 | With problems nothing is stored; otherwise the declared registry replaces the old one and the removed ids are returned |
| Document.MergePlain | src/config.mjs:514-517 | Everything but `backends` is an ordinary merge, and the document's own tree is left as it was |
| Document.MergeConfigDocument | src/config.mjs:509-554 | The whole document merge computes its specification on values, errors included, and never writes the defaults |
| Capacity.CheckName | src/config.mjs:919-932 | A member earns no error by itself exactly when it is a non-empty name of a declared or registry backend and does not name a removed one; otherwise just the errors that apply |
| Capacity.ClaimRoute | src/config.mjs:933-938 | A route already owned is an error and proves the domains ill-formed; otherwise it is recorded and the table stays sound and complete |
| Capacity.MetAgain | src/config.mjs:933-935 | A recorded route met again means that some route is listed twice |
| Capacity.CheckDomain | src/config.mjs:897-940 | One domain: an error only if the domains are ill-formed, silence only if this domain is in order, owners recorded |
| Capacity.CheckDomains | src/config.mjs:891-942 | The nested loop adds no error if and only if the domains are well formed (limits, own id, legal members, no route twice anywhere), and then its table is exactly the ownership relation; otherwise it reports every fault other than clashes exactly when it is one, and only clashes that are |
| Capacity.ClashIsReported | src/config.mjs:933-938 | A route listed by two named domains is reported as a clash for at least one of them |
| Capacity.OwnedAreDisjoint | src/config.mjs:933-938 | Domains with an ownership relation, which accepted ones have, share no member |
| Capacity.AcceptedOwnThemselves | src/config.mjs:915-917 | Each accepted domain id is owned by itself, so there are at least as many routes as domains |
| Pipeline.FindOrphans | src/config.mjs:563-566 | The providers found are those that are mappings without a backend of their name |
| Pipeline.DisableOrphansInPlace | src/config.mjs:562-570 | Switching them off one by one in place gives the specified configuration |
| Pipeline.ApplyEnvInPlace | src/config.mjs:637-645 | The two variables overwrite the `nvidia` entry's fields and nothing else, or fail when that backend is gone |
| Pipeline.ExpandPathsInPlace | src/config.mjs:1218-1223 | Gone through in any order, the entries of the registry end with their credentials paths expanded, nothing else changed |
| Pipeline.EditInPlace | src/config.mjs:1314-1316 | The remaining writes of a build, each a value stored under a path of mappings, give the specified configuration or fail where a mapping is missing |
| Pipeline.EditsKeepTheCore | src/config.mjs:1314-1316 | Any sequence of such writes leaves the registry, admission and the table of providers as they were |
| Pipeline.Validate | src/config.mjs:1027-1169 | Validation accepts exactly the configurations whose provider flags, admission limits, capacity domains and remaining checks are in order |
| Pipeline.ReadAndBuild | src/config.mjs:1295-1320 | A build computes, stage by stage in place, a function of the defaults and the world, errors included, and leaves the defaults as they were |
| Pipeline.EnabledProvidersAreServed | src/config.mjs:1137-1140 | In an accepted configuration with a provider table every enabled provider has an active backend |
| Pipeline.RegistryIsWhatWasDeclared | src/config.mjs:509-554 | In an accepted configuration that declares backends the registry is exactly the declared ones not switched off, each its default overlaid by its entry, with the variables that address it and its credentials path expanded; active and withdrawn ids are disjoint and cover the built-in ones |
| Pipeline.EntryIsPlainIff | src/config.mjs:1218-1223 | An active entry is the plain overlay exactly when it has no credentials path that expansion changes |
| Pipeline.NothingRefersToWithdrawn | src/config.mjs:869-932 | No admission limit and no capacity member of an accepted configuration names a backend taken away |
| Effective.LoadedElsewhere | src/config.mjs:514-517 | At every path outside `backends` a loaded configuration shows the document laid over the defaults, whether or not the document declares backends |
| Effective.RegistryWithoutDeclaration | src/config.mjs:519 | A document without `backends` keeps the built-in registry and takes no backend away |
| Effective.LoadsIff | src/config.mjs:509-551 | A file is loaded exactly when it is missing, empty, or a mapping whose `backends`, if any, is a mapping of mappings with boolean `enabled` flags |
| Effective.RefusedWith | src/config.mjs:510-551 | A refused file is refused with just what is wrong: unreadable, no mapping, `backends` no mapping, or every entry at fault, each by its own fault |
| Effective.BuiltElsewhere | src/config.mjs:1295-1320 | A section that no later stage writes, admission among them, still shows the document laid over the defaults in the accepted configuration |
| Effective.ActiveIdsAre | src/config.mjs:532-549 | The active ids are the declared ones whose entry is not switched off |
| Effective.WithdrawnAre | src/config.mjs:526-543 | The ids taken away are the built-in ones not declared and the declared ones switched off |
| Effective.BuiltRegistry | src/config.mjs:545-548 | Below an active entry, every path that no variable and no expansion rewrites shows the declared entry laid over its default |
| Effective.BuiltCredentials | src/config.mjs:1218-1223 | A credentials path that starts at the home directory is resolved there, and any other value is as merged |
| Effective.BuiltNvidia | src/config.mjs:643-644 | A variable that is set is what the `nvidia` entry shows |
| Effective.NvidiaRemovedIff | src/config.mjs:637-642 | The build stops there exactly when a variable is set and no `nvidia` entry is left |
| Effective.BuiltProviders | src/config.mjs:562-570 | Provider settings are as loaded, except that a mapping without an active backend of its name is switched off |
| Effective.PartitionIff | src/config.mjs:891-942 | The capacity domains accepted are the partitions: whole limits, the domain's own id, declared or well-spelled registry routes of backends not taken away, and no route at two places |
| Effective.AcceptedIff | src/config.mjs:1027-1169 | A candidate is accepted exactly when every provider has a boolean flag, admission names active backends only, the domains are a partition and the remaining checks agree |
| Reload.ActiveIsTheLastAccepted | src/config.mjs:1253-1349 | Over every run the active configuration is the one the latest activating event built |
| Reload.ActivePassedValidation | src/config.mjs:1295-1320 | Over every run the active configuration went through every stage from what that event saw, the validation included |
| Reload.NeverUnloaded | src/config.mjs:1280-1283 | Once a configuration is active one stays active, whatever follows |
| Reload.FailuresLeaveNoTrace | src/config.mjs:1345-1348 | Deleting from a run every event that activates nothing and does not change the watched path leaves the configuration in force, the emissions and the path as they are |
| Reload.FailureIsForgottenIff | src/config.mjs:1254-1256 | A failed event may be left out whatever follows exactly when it does not settle on another path, as a rejected first load does |
| Reload.LastReportIsInForce | src/config.mjs:1336-1349 | If nothing is activated after a reload, the fresh build is in force exactly when it succeeded, listener errors included, and `ok: true` means that it did and no listener threw |
| Reload.EmissionsChain | src/config.mjs:1339-1342 | Over any stretch of reloads each emission starts from what the previous one put in force, from the first active configuration to the last |
| Reload.LinkIff | src/config.mjs:1339-1342 | In every run two consecutive emissions link up exactly when between their reloads nothing was activated, or last the configuration the first one announced |
| Reload.ReloadsFollowTheLastPath | src/config.mjs:1254-1256 | Reloads read the path of the latest load that resolved one, even if that load was rejected |
| Reload.EventBuilds | src/config.mjs:1253-1256 | A load reads the path it resolves, a reload the last one that was resolved, and no path reads as a missing file |
| Reload.EventTells | src/config.mjs:1336-1349 | What each event activates, reports and announces, by whether its build and its listeners succeed |
| Reload.EmissionsAre | src/config.mjs:1339-1342 | Over every run exactly the reloads that activate a configuration announce it, in order, changed or not |
| Reload.ConfigStore.Candidate | src/config.mjs:1295-1320 | Building a candidate changes nothing in force |
| Reload.ConfigStore.LoadConfig | src/config.mjs:1253-1270 | A load is one more event of the run the object stands for: path first, then the build, which may throw |
| Reload.ConfigStore.HandleSighup | src/config.mjs:1336-1349 | A reload is one more event of that run, and never throws |
| Reload.ConfigStore.GetConfig | src/config.mjs:1280-1283 | After any sequence of calls, what a consumer gets passed validation |
| Glob.ParityTextReadsBack | scripts/parity-check.mjs:133-136 | The compiled text parses back to the glob's own items, for every pattern |
| Glob.ItemsDenote | scripts/parity-check.mjs:133-136 | Those items accept exactly the strings the glob denotes |
| Glob.AlikeIff | src/config.mjs:781 | Two characters match without regard to case exactly when they are equal or the two cases of one letter |
| Glob.ParityMeansTheGlob | scripts/parity-check.mjs:130-139 | The parity matcher never throws and accepts exactly what the glob denotes |
| Glob.StarsAreFreeOnOneLine | scripts/parity-check.mjs:130-139 | On an id without line breaks a star ranges over all strings |
| Glob.ConfigTextReadsBack | src/config.mjs:780 | With `?` unescaped the compiled text parses to the bare reading, or to a syntax error where the constructor throws |
| Glob.ConfigMeansTheGlob | src/config.mjs:777-782 | Without `?` the configuration matcher accepts what the glob denotes, ignoring case |
| Glob.ConfigMeansTheGlobIff | src/config.mjs:777-782 | It does so on every id exactly for patterns without `?` |
| Glob.MatchersAgreeIff | src/config.mjs:777-782 | On lower-case ids and patterns without `?` the two matchers agree exactly unless the id is empty and the glob denotes it |
| Glob.MatchesWildcard | scripts/parity-check.mjs:130-139 | The loop finds a match exactly when some pattern denotes the id |
| Template.RenderTemplateFile | deploy/skgateway-deploy:119-128 | Rendering is successive replacement in the given order, then one newline |
| Template.ChompIs | deploy/skgateway-deploy:121-122 | Reading a template drops all newlines at its end and nothing else |
| Template.ReplaceFillsHoles | deploy/skgateway-deploy:123-126 | Unless some text is mistaken for a hole, one replacement fills the holes of its name and nothing else |
| Template.FillsExactlyIff | deploy/skgateway-deploy:123-126 | It does so for every value exactly when no text between two holes, the first of another name, spells that name |
| Template.MistakenText | deploy/skgateway-deploy:123-126 | Such a text is replaced together with the underscores on either side |
| Template.SequentialIsSimultaneous | deploy/skgateway-deploy:119-128 | In a clean template, replacing one name after another equals filling all holes at once when no value contains the placeholder of a name listed after it |
| Template.SimultaneousIff | deploy/skgateway-deploy:119-128 | For two names, on every clean template and for every value of the second, that condition on the first value is necessary too |
| Template.OrderDoesNotMatter | deploy/skgateway-deploy:119-128 | Two orders of the same placeholders, neither of which rescans a value, give the same text |
| Template.ListedIsGone | deploy/skgateway-deploy:119-128 | A listed placeholder does not occur in the filled text unless a value contains it |
| Template.NothingIsLeft | deploy/skgateway-deploy:119-128 | With every hole listed and values free of double underscores, no double underscore survives |
| Template.ValuesAreRescanned | deploy/skgateway-deploy:123-126 | A value holding a later placeholder, which an instance name may be, is replaced again |
| Deploy.Host.AwaitHealth | deploy/skgateway-deploy:352-362 | The poll succeeds exactly when some answer before the deadline was healthy |
| Deploy.Host.InstallAddons | deploy/skgateway-deploy:159-207 | The optional files are written in order up to the first missing required key, and nothing on a dry run |
| Deploy.Host.Fetch | deploy/skgateway-deploy:276-295 | A clean checkout is reused, anything else removed and cloned; a failed clone leaves none |
| Deploy.Host.Decrypt | deploy/skgateway-deploy:297-316 | The secrets file after each method and failure, including the file `sops` leaves empty |
| Deploy.Host.Promote | deploy/skgateway-deploy:364-375 | What was current becomes previous, and the new release and unit become current |
| Deploy.Host.Conclude | deploy/skgateway-deploy:352-388 | Healthy: recorded, exit 0. Unhealthy: the recorded unit returns, exit 3, or the reload's status when that fails |
| Deploy.Host.Deploy | deploy/skgateway-deploy:211-388 | A deploy's exit code and the whole state it leaves, for every request and every set of tool answers |
| Deploy.Host.Rollback | deploy/skgateway-deploy:392-413 | A rollback's exit code and the whole state it leaves |
| Deploy.SchemaIsNumeric | deploy/skgateway-deploy:239-248 | The digit test used here is the script's comparison with the minimum schema |
| DeployRuns.NamesCollideIff | deploy/skgateway-deploy:96-99 | Two unit file names are equal exactly when kind and instance are, or one instance is named after the other's optional unit |
| DeployRuns.OthersAreUntouchedIff | deploy/skgateway-deploy:86-99 | Commands on one instance leave another's units, health script, secrets and records alone in every state exactly when neither is named after an optional unit of the other, or the name check refuses the first |
| DeployRuns.MainIsUntouched | deploy/skgateway-deploy:96-99 | The main unit and the records are safe already when the instance is not named after the other's optional unit |
| DeployRuns.ClashOverwrites | deploy/skgateway-deploy:159-207 | A deploy that gets as far as its optional files replaces the main unit of an instance named after one of them |
| DeployRuns.StepIsGoodIff | deploy/skgateway-deploy:330-413 | A command keeps its instance's records true exactly when it is not stranded with a different unit written |
| DeployRuns.DeployRepairs | deploy/skgateway-deploy:364-375 | A deploy that ends well makes records and unit agree whatever was stranded before |
| DeployRuns.RecordsStayTrue | deploy/skgateway-deploy:326-413 | Over every run from nothing installed: a previous record implies a current one and the installed unit is the recorded one, as long as no command of that instance is stranded |
| DeployRuns.CleanRunsKeepRecordsTrue | deploy/skgateway-deploy:326-413 | In particular over every run in which all commands end with 0 or 3 |
| DeployRuns.FailingStretchKeepsRecords | deploy/skgateway-deploy:326-413 | Over any stretch of a run in which no command exits with 0, both records of every instance stay as they were |
| DeployRuns.StatusThreeIsAmbiguous | deploy/skgateway-deploy:330-336 | A systemctl that fails with status 3 looks like a completed roll-back and leaves record and unit apart |
| DeployRuns.RollbackUndoesDeploy | deploy/skgateway-deploy:364-413 | An exit-0 deploy over an existing release, then a rollback, restores the earlier record and unit and keeps the new release as previous |
| DeployRuns.TwoRollbacksAreNone | deploy/skgateway-deploy:392-413 | Two rollbacks leave everything on disk as it was, but for a stale swap directory |
| DeployRuns.ExitThree | deploy/skgateway-deploy:377-387 | Exit 3 keeps both records and restores the unit, but leaves the new secrets |
| DeployRuns.DryRunChangesNothing | deploy/skgateway-deploy:344-350 | Without `--execute` nothing on disk changes, for any input |
| DeployRuns.ChangesNeedEveryCheck | deploy/skgateway-deploy:222-270 | Whatever a deploy changed on disk, it was executed with a clean config repository, a supported schema number, the pinned or a forced release, and a tag merged into main |
| DeployRuns.RecordsAreDeployed | deploy/skgateway-deploy:364-375 | Over every run, whatever its exits, each record was written by an earlier deploy of the same instance that ended well; rollback introduces none |
| DeployRuns.StaysOnMain | deploy/skgateway-deploy:255-264 | A tag reachable from main stays reachable as history grows and main moves to descendants |
| DeployRuns.ReleasesStayAvailable | deploy/skgateway-deploy:255-295 | Over every run ending in 0 or 3, each recorded release is reachable from main as it now stands and has its checkout on disk |
| DeployRuns.CheckedOutIff | deploy/skgateway-deploy:276-290 | Over every run, whatever its exits, a tag is checked out exactly when some deploy fetched it and no later one failed to clone it |
| Installed.NamesAre | deploy/skgateway-deploy:96-99 | The names of the main unit, the optional ones and the health script, spelled out |
| Installed.CheckedIff | deploy/skgateway-deploy:222-270 | What a deploy demands before it touches anything: names, clean repository, keys, schema number, pinned or forced release, merged tag, files |
| Installed.EndIs | deploy/skgateway-deploy:211-316 | How far a deploy gets before it writes the unit, by which of its checks and tools is the first to fail |
| Installed.InstallEndIs | deploy/skgateway-deploy:326-388 | And from there on |
| Installed.DeployExits | deploy/skgateway-deploy:211-388 | A deploy's exit status, by the first check or tool that fails |
| Installed.RollbackExits | deploy/skgateway-deploy:392-413 | Likewise for a rollback |
| Installed.MainUnitIs | deploy/skgateway-deploy:318-342 | The main unit is untouched until every check passed, then of the requested release, with its own port, options and paths, unless an unhealthy start brings the recorded one back |
| Installed.RecordsAre | deploy/skgateway-deploy:364-375 | Exactly a deploy that answers rewrites the records: the requested release with its unit, the current one kept as previous |
| Installed.SecretsAre | deploy/skgateway-deploy:297-316 | The secrets file after a deploy, whatever its end |
| Installed.CheckoutsAre | deploy/skgateway-deploy:276-290 | The checkouts after a deploy, whatever its end |
| Installed.RollbackSwaps | deploy/skgateway-deploy:403-411 | A rollback that ends well swaps the records, installs the previous unit and touches nothing else |
| Installed.OptionalUnitIs | deploy/skgateway-deploy:159-207 | Each optional unit is written exactly when its flag is on and no earlier key is missing, with its own ports, paths and fallbacks; otherwise it is as it was |
| Installed.HealthScriptIs | deploy/skgateway-deploy:198-200 | The canary's health script is written exactly when the canary is on |
| Installed.RecordedUnits | deploy/skgateway-deploy:318-375 | Over every run, whatever its exits, each record holds the unit of its own release with the port and options of the deploy that wrote it |
| Repair.RepairStore | scripts/repair-lifecycle-store.mjs:146-248 | In any order the loop yields each record's decision; the lists hold each id once under its action; all actions add up to the input, and the result is the input less what was dropped |
| Repair.OwnerIsKept | scripts/repair-lifecycle-store.mjs:122-127 | A run never moves a record to another provider |
| Repair.InversionIsGone | scripts/repair-lifecycle-store.mjs:146-236 | A surviving discovery-managed record is `eol` or `dead` exactly when no live catalogue has its id |
| Repair.LocalRecordsAreLeftAlone | scripts/repair-lifecycle-store.mjs:181-189 | A record no provider owns survives, unchanged exactly when no test clock stamped it |
| Repair.VerificationTimesAreKept | scripts/repair-lifecycle-store.mjs:21-27 | A numeric `last_verified_at` is neither invented nor altered |
| Repair.PollutionIsGone | scripts/repair-lifecycle-store.mjs:147-177 | No fixture id survives, and a test clock remains exactly on records retired under one |
| Repair.SecondLookIff | scripts/repair-lifecycle-store.mjs:146-236 | A surviving record is decided as untouched the second time, unless its retirement carries a test clock |
| Repair.RunningAgainIff | scripts/repair-lifecycle-store.mjs:17-19 | A second run changes nothing exactly when the first had a plausible clock or the store held no stale record: real, owned, shown, and in no live catalogue |
| Repair.SecondRunReportsNothing | scripts/repair-lifecycle-store.mjs:17-19 | With a real clock the second run reports every record as untouched |
| Repair.RunsConverge | scripts/repair-lifecycle-store.mjs:17-19 | Any number of runs over the same catalogues ends where the first one did, if its clock was real |
| Repair.OtherFieldsTravel | scripts/repair-lifecycle-store.mjs:157-235 | Which fields each action may write, and with what; all others travel along, except that a test write keeps only its verification time |
| Repair.SurvivesIff | scripts/repair-lifecycle-store.mjs:146-177 | A record survives exactly when it is no fixture and, if a test clock stamped it, a live catalogue lists it or no provider is in charge |
| Repair.SurvivorIs | scripts/repair-lifecycle-store.mjs:179-236 | Every field of a surviving record no test wrote: one hidden and absent, say, gains its missing tag and nothing else |
| Repair.RebuiltIs | scripts/repair-lifecycle-store.mjs:152-177 | Every field of a surviving record that a test wrote |
| Repair.ListIs | scripts/repair-lifecycle-store.mjs:148-235 | Which of the printed lists each record falls into |
| Repair.VerifyPass | scripts/repair-lifecycle-store.mjs:262-315 | The probing pass changes active discovery-managed records alone, each by its own answer, and ok, retired and inconclusive add up to the targets |
| Repair.ProbedIs | scripts/repair-lifecycle-store.mjs:282-312 | Who is probed, and what each status does to the record and to the counts |
| Repair.HiddenByTheProbeIff | scripts/repair-lifecycle-store.mjs:287-312 | After the pass a probed model is hidden exactly on a 404 or 410; a throttled one keeps its record |
| Repair.PlainRunOverrulesProbes | scripts/repair-lifecycle-store.mjs:197-235 | Whatever a probe found, the next plain run shows a probed model exactly when a live catalogue lists it |
| Probe.ClassifyProbe | scripts/verify-catalog.mjs:243-274 | Alive is a 2xx or a 429; unreachable a failed connection with a message; throttled and reasoning-only are exclusive parts of alive |
| Verified.TextIsTrimmed | scripts/verify-catalog.mjs:266-267 | A content counts exactly when something is left of it after trimming |
| Probe.Gateway.WaitForGateway | scripts/verify-catalog.mjs:399-416 | True exactly when one of the attempts is answered, stopping at the first |
| Probe.Gateway.ProbeAll | scripts/verify-catalog.mjs:364-383 | The loop computes the sweep of the ids from where the gateway stands, requests counted |
| Probe.SweepAnswersEachId | scripts/verify-catalog.mjs:364-383 | One result per id, in order, each settled at its own turn |
| Verified.SettledIs | scripts/verify-catalog.mjs:366-377 | One id's result is the answer to its first completion, unless that one was refused and one of the next ten health polls was answered; polling stops there |
| Verified.InTurn | scripts/verify-catalog.mjs:364-383 | A sweep takes its ids in turn, each from where the one before left off |
| Probe.SweepCost | scripts/verify-catalog.mjs:364-383 | Between n and 2n completions and at most ten health polls per id |
| Probe.UnreachableIff | scripts/verify-catalog.mjs:369-377 | An id stays unreachable exactly when it failed to connect and then the gateway did not come back or it failed again |
| Probe.DeadNeedsEvidence | scripts/verify-catalog.mjs:259-273 | Dead is only said on a bad status, a timeout, or a failure without a message |
| Probe.SummarizeLiveness | scripts/verify-catalog.mjs:429-477 | Overall and per provider the summary counts each sort of result exactly and lists the dead and the reasoning-only ones in order |
| Verified.TallyIs | scripts/verify-catalog.mjs:439-476 | Each overall count is the number of places in the results that hold that sort |
| Verified.ListedOnes | scripts/verify-catalog.mjs:454-474 | The lists of dead and of reasoning-only results hold just those |
| Probe.TallyAddsUp | scripts/verify-catalog.mjs:445-474 | Alive, dead and unreachable add up to the results, in every tally |
| Probe.DisjointWithinAlive | scripts/verify-catalog.mjs:446-460 | Throttled and reasoning-only together fit within the living |
| Probe.ProvidersSumToTotals | scripts/verify-catalog.mjs:440-476 | For every sort the per-provider counts sum to the total |
| Verified.DeadCounted | scripts/verify-catalog.mjs:814-819 | Liveness drifts exactly when some result is dead; unreachable results never make it drift |
| Probe.GroupIdsByProvider | scripts/verify-catalog.mjs:210-219 | Each owner's ids, under exactly the owners that list something |
| Verified.KnownIff | scripts/verify-catalog.mjs:777 | An id has a provider exactly when an advertised model has that id |
| Verified.ProviderByIdIs | scripts/verify-catalog.mjs:777 | It is that of the last such model: its provider if not empty, else its owner if not empty, else "unknown" |
| Verified.SharesAre | scripts/verify-catalog.mjs:440-476 | A provider has a tally exactly when a result belongs to it, each sort counted over just the results that do |
| Verified.ProbeIdAt | scripts/verify-catalog.mjs:781-783 | Each advertised model that is not skipped is probed at the place the ones before it give |
| Probe.ComputeRepresentationGaps | scripts/verify-catalog.mjs:495-508 | A gap for each provider that is healthy, known to have models and advertises none; for no other, and once |
| Probe.Gateway.CheckRoleFidelity | scripts/verify-catalog.mjs:603-666 | Every chat role is asked once, in order, and the list holds those answered well by another model than theirs |
| Probe.MismatchesIff | scripts/verify-catalog.mjs:660-665 | That list is empty exactly when each asked role was answered by its own model or failed |
| Verified.SubstitutedIff | scripts/verify-catalog.mjs:603-666 | Role by role, in the answer that is its turn: some role is substituted exactly when an asked one is answered well by a model other than its own |
| Verified.MismatchIs | scripts/verify-catalog.mjs:664 | The list of mismatches holds just those roles |
| Verified.RunVerification | scripts/verify-catalog.mjs:739-884 | Exit 2 exactly when one of the three fetches fails; else 1 exactly when a probed model is dead, a provider is unrepresented, fewer than two failover candidates live, or a role was answered by another model; else 0. The report counts and lists each result under the provider of the last advertised model with its id, and names the gaps, the living candidates and the substituted roles exactly |
| Verified.OutageIsFailoverDrift | scripts/verify-catalog.mjs:814-819 | When the catalogues are fetched but every completion is refused, no model is dead and no role unfaithful, but the failover check alone is drift |
| Parity.DeclaredModelIndex | scripts/parity-check.mjs:101-120 | The concrete models with exactly their owners, and exactly the patterns |
| Parity.DeclaredNotWorking | scripts/parity-check.mjs:240-259 | Each declared model's finding, once, and nothing else |
| Parity.WorkingNotDeclared | scripts/parity-check.mjs:261-266 | The advertised models that are neither declared nor covered by a pattern read as a glob |
| Parity.ReasonsMean | scripts/parity-check.mjs:246-258 | A finding names the backends that list the model, and its reason tells exactly whether the model is not advertised, advertised with an owner the gateway knows, or with none |
| Parity.ComputeParity | scripts/parity-check.mjs:181-290 | Drift exactly when the gateway is away, a declared model is not advertised by a serving owner, a declared backend is missing, a live one has stopped, or, if strict, something undeclared is served; each class of the report lists just its members |
| Parity.RunParityCheck | scripts/parity-check.mjs:432-432 | Exit 0 exactly on parity, 2 exactly when unreachable, else 1 |
| Reports.SortForgetsOrder | scripts/token-ratio-report.mjs:49 | Sorting depends on the values alone, not on their order |
| Reports.MedianIsCentral | scripts/token-ratio-report.mjs:59-67 | The median lies between least and greatest sample and at least half the samples are on either side |
| Reports.RoundedMeanStaysIff | scripts/semantic-cache-report.mjs:42-44 | The rounded mean of two values stays between them exactly when an integer does |
| Reports.SummariseRatios | scripts/token-ratio-report.mjs:26-73 | Exact skip counts, and one row for each model that has samples, computed from its sorted samples |
| Reports.RowsAreCentral | scripts/token-ratio-report.mjs:59-70 | Each row's median is central among that model's samples and its extremes are theirs |
| Reports.RowIs | scripts/token-ratio-report.mjs:49-70 | A model's row in numbers: count, extremes, and as median the mean of the two middle ratios, which for an odd count are the same; no row without ratios |
| Reports.RowsAreNamed | scripts/token-ratio-report.mjs:44 | Lines without a model name give no row |
| Reports.SkipsAre | scripts/token-ratio-report.mjs:31-36 | Each reason's skips are counted line by line, those without a reason as "unknown" |
| Reports.RatiosForgetOrder | scripts/token-ratio-report.mjs:26-73 | Reordering the ledger leaves the ratio report as it is |
| Reports.RatioCountsAddUp | scripts/token-ratio-report.mjs:30-46 | Skips by reason add up to the total, and samples by model to the usable lines |
| Reports.Summarise | scripts/semantic-cache-report.mjs:23-53 | Exact counts per category, hit rate, and rounded median embed time |
| Reports.CacheForgetsOrder | scripts/semantic-cache-report.mjs:23-53 | Reordering the ledger leaves the cache report as it is |
| Reports.CacheCountsAddUp | scripts/semantic-cache-report.mjs:28-34 | Categories add up to both totals, and would-hits never exceed what was observed |
| Reports.CacheCountsAre | scripts/semantic-cache-report.mjs:24-34 | Observations and would-hits, line by line |
| Reports.CategoryIs | scripts/semantic-cache-report.mjs:28-34 | Each category's lines, those without one under "unknown" |
| Reports.HitRateIs | scripts/semantic-cache-report.mjs:49 | Would-hits per observation, and absent without any |
| Reports.MedianTimeIs | scripts/semantic-cache-report.mjs:35-44 | The median embed time: none without times, the middle one of an odd number, and of an even number the integer nearest the mean of the two middle ones, ties upward |
| Reports.RoundedMedianIsCentral | scripts/semantic-cache-report.mjs:35-44 | For whole milliseconds the rounded median lies between the two middle times and halves them |

## Left out

- `scripts/verify-catalog.mjs` `computeCountDivergence` (informational, enters no verdict), the token and timing fields of probes, alerts, artifacts; a role whose registry entry gives its model as an explicit null.
- `src/config.mjs` field-by-field range checks, provider-route checks other than limits and domains, Codex purity and registry materialisation: one arbitrary predicate, `others`, stands for them, and for a provider table or admission table that is an array.
- What `normalizeSemanticCache`, `normalizeGenericParticipation`, the other paths of `resolvePaths` and the environment variables other than the two that reach into the registry write: an arbitrary sequence of values stored outside the registry, `pooling` and the table of providers. `resolveConfigPath` is an input.
- Texts of error messages and of log lines, and the order in which errors or report rows appear: error lists of the document reader are sets, and sorted report lists are modelled by their members.
- Key order of JavaScript objects, shared YAML anchors, keys such as `__proto__` or `constructor`, arrays as mutable objects (they are values here), and consumers that write into the object `getConfig` returns.
- NaN is not told apart from the infinities; no modelled branch sees one in JSON data. Rounding of floating-point sums and quotients is not modelled.
- Glob: case folding beyond ASCII, and ids as UTF-16 units rather than characters; of regular expressions only what the two compilers can produce.
- Deploy: `&` in a replacement value under bash's `patsub_replacement`, file modes and umask, `instance.env` syntax (the last value of each key is the input), `--status`, argument parsing, and plain file operations failing; a systemctl `stop` or `restart` whose failure the script ignores.
- Repair: store records that are not JSON objects, reading and fetching, the `reason` texts, and writing the result back (a number too large for JSON would come back as null).
- Parity: a backend entry without a usable `models` list counts as an empty list; counts in the summary.
- Pipeline.Validate: does not model the remaining checks, because they are settled field by field; one arbitrary predicate stands for them.
- Repair.RepairStore: does not model the order of the store's records nor the reason texts of the lists, because every order gives the same result.
- Parity.ComputeParity: does not model the sorting of the report's lists, because the verdict depends on their members only.
- `python-proxy`, the router, connection pool, advertising, integration and sync scripts.
