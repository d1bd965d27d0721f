/** What a catalogue verification reports, said of the gateway's answers and the fetched models alone. */
module Verified {
  import opened Json
  import opened Probe

  // ----- what a completion says -----

  /** `String.prototype.trim`: white space dropped at both ends. */
  function Trim(s: string): string
    decreases |s|
  {
    if s == "" then ""
    else if IsSpace(s[0]) then Trim(s[1..])
    else if IsSpace(s[|s| - 1]) then Trim(s[..|s| - 1])
    else s
  }

  /** A content counts when something is left after trimming. */
  lemma {:induction false} TextIsTrimmed(s: string)
    ensures HasText(Some(s)) <==> Trim(s) != ""
    ensures !HasText(None)
    decreases |s|
  {
    if s != "" {
      var n := |s| - 1;
      if IsSpace(s[0]) {
        TextIsTrimmed(s[1..]);
        assert forall i | 0 < i < |s| :: s[1..][i - 1] == s[i];
        assert forall i | 0 <= i < n :: s[1..][i] == s[i + 1];
      } else if IsSpace(s[n]) {
        TextIsTrimmed(s[..n]);
        assert forall i | 0 <= i < n :: s[..n][i] == s[i];
      }
    }
  }

  predicate Refused(o: Outcome) {
    o.Failed? && o.message != ""
  }

  function StatusOf(o: Outcome): Option<int> {
    if o.Answered? then Some(o.status) else None
  }

  predicate FirstHealthy(w: Timeline, p: nat, q: nat) {
    p <= q && w.healthy(q) && forall k: nat | p <= k < q :: !w.healthy(k)
  }

  lemma {:induction false} PollsAre(w: Timeline, p: nat, attempts: nat)
    ensures ComesBack(w, p, attempts) ==>
      PollsUsed(w, p, attempts) > 0 && FirstHealthy(w, p, p + PollsUsed(w, p, attempts) - 1)
    ensures !ComesBack(w, p, attempts) ==> PollsUsed(w, p, attempts) == attempts
    decreases attempts
  {
    if attempts > 0 && !w.healthy(p) {
      PollsAre(w, p + 1, attempts - 1);
    }
  }

  /** One id: its result is the answer to the first completion, unless that one was refused and one of the next
    * ten health polls was answered; polling stops at the first answered poll. */
  lemma SettledIs(w: Timeline, id: string, at: Position)
    ensures var (r, end) := Settled(w, id, at);
      var refused := Refused(w.answer(at.completions));
      var back := exists k: nat | at.polls <= k < at.polls + 10 :: w.healthy(k);
      var n := if refused && back then at.completions + 1 else at.completions;
      && r == ProbeResult(id, StatusOf(w.answer(n)), ClassifyProbe(w.answer(n)))
      && end.completions == n + 1
      && (if !refused then end.polls == at.polls
          else if back then end.polls > at.polls && FirstHealthy(w, at.polls, end.polls - 1)
          else end.polls == at.polls + 10)
  {
    PollsAre(w, at.polls, 10);
  }

  /** A sweep takes its ids in turn, each from where the one before left off. */
  lemma InTurn(w: Timeline, ids: seq<string>, at: Position, k: nat)
    requires k < |ids|
    ensures Before(w, ids, at, 0) == at
    ensures Before(w, ids, at, k + 1) == Settled(w, ids[k], Before(w, ids, at, k)).1
    ensures Before(w, ids, at, |ids|) == Sweep(w, ids, at).1
  {
    assert ids[..k + 1][..k] == ids[..k] && ids[..|ids|] == ids;
  }

  // ----- counting -----

  /** Is the result of this sort? */
  predicate OfSort(r: ProbeResult, b: Bucket) {
    match b
    case Total => true
    case Alive => r.verdict.alive
    case Throttled => r.verdict.alive && r.verdict.throttled
    case Reasoning => r.verdict.alive && r.verdict.reasoningOnly
    case Lifeless => !r.verdict.alive && !r.verdict.unreachable
    case Unreached => !r.verdict.alive && r.verdict.unreachable
  }

  function Places(rs: seq<ProbeResult>, b: Bucket): set<int> {
    set k | 0 <= k < |rs| && OfSort(rs[k], b)
  }

  lemma PlacesSnoc(rs: seq<ProbeResult>, r: ProbeResult, b: Bucket)
    ensures |rs| !in Places(rs, b)
    ensures Places(rs + [r], b) == if OfSort(r, b) then Places(rs, b) + {|rs|} else Places(rs, b)
  {
    var all := rs + [r];
    assert forall k | 0 <= k < |rs| :: all[k] == rs[k];
    assert all[|rs|] == r;
  }

  lemma {:induction false} PlacesCount(rs: seq<ProbeResult>, b: Bucket)
    ensures |Which(rs, b)| == |Places(rs, b)|
  {
    if rs != [] {
      var front, r := rs[..|rs| - 1], rs[|rs| - 1];
      assert rs == front + [r];
      PlacesCount(front, b);
      PlacesSnoc(front, r, b);
      assert OfSort(r, b) <==> Is(b, r.verdict);
    }
  }

  /** Every count of a tally is a number of places in the list of results. */
  lemma TallyIs(t: Tally, rs: seq<ProbeResult>)
    requires Accounts(t, rs)
    ensures t.total == |rs| == |Places(rs, Total)|
    ensures t.alive == |Places(rs, Alive)| && t.throttled == |Places(rs, Throttled)|
    ensures t.reasoningOnly == |Places(rs, Reasoning)|
    ensures t.dead == |Places(rs, Lifeless)| && t.unreachable == |Places(rs, Unreached)|
  {
    TallyAddsUp(t, rs);
    FieldsAre(t, rs);
    PlacesCount(rs, Total);
    PlacesCount(rs, Alive);
    PlacesCount(rs, Throttled);
    PlacesCount(rs, Reasoning);
    PlacesCount(rs, Lifeless);
    PlacesCount(rs, Unreached);
  }

  /** The lists of dead and of reasoning-only results hold just those. */
  lemma {:induction false} ListedOnes(rs: seq<ProbeResult>, b: Bucket, r: ProbeResult)
    ensures r in Which(rs, b) <==> r in rs && OfSort(r, b)
  {
    if rs != [] {
      var front, last := rs[..|rs| - 1], rs[|rs| - 1];
      assert rs == front + [last];
      ListedOnes(front, b, r);
      assert OfSort(last, b) <==> Is(b, last.verdict);
    }
  }

  // ----- whose result it is -----

  /** The owner a model is filed under. */
  function FiledAs(m: Model): string {
    if m.provider != "" then m.provider else if m.ownedBy != "" then m.ownedBy else "unknown"
  }

  /** The last of the models with that id. */
  predicate LastWith(models: seq<Model>, id: string, k: int) {
    0 <= k < |models| && models[k].id == id && forall l | k < l < |models| :: models[l].id != id
  }

  /** An id is known exactly when some model has it. */
  lemma {:induction false} KnownIff(models: seq<Model>, id: string)
    ensures id in ProviderById(models) <==> exists k | 0 <= k < |models| :: models[k].id == id
  {
    if models != [] {
      var n := |models| - 1;
      KnownIff(models[..n], id);
      assert forall k | 0 <= k < n :: models[..n][k] == models[k];
    }
  }

  /** It then belongs to the owner of the last model that has it. */
  lemma {:induction false} ProviderByIdIs(models: seq<Model>, id: string, k: int)
    requires LastWith(models, id, k)
    ensures id in ProviderById(models) && ProviderById(models)[id] == FiledAs(models[k])
  {
    var n := |models| - 1;
    if models[n].id != id {
      assert forall l | 0 <= l < n :: models[..n][l] == models[l];
      ProviderByIdIs(models[..n], id, k);
    } else {
      assert k == n;
    }
  }

  /** The owner under which a result for `id` is counted. */
  ghost predicate FiledUnder(models: seq<Model>, id: string, q: string) {
    exists k :: LastWith(models, id, k) && q == FiledAs(models[k])
  }

  lemma {:induction false} SomeLast(models: seq<Model>, id: string)
    requires exists k | 0 <= k < |models| :: models[k].id == id
    ensures exists k :: LastWith(models, id, k)
  {
    var n := |models| - 1;
    if models[n].id == id {
      assert LastWith(models, id, n);
    } else {
      var j :| 0 <= j < |models| && models[j].id == id;
      assert models[..n][j].id == id;
      SomeLast(models[..n], id);
      var k :| LastWith(models[..n], id, k);
      assert LastWith(models, id, k);
    }
  }

  lemma FiledUnderIff(models: seq<Model>, id: string, q: string)
    requires exists k | 0 <= k < |models| :: models[k].id == id
    ensures FiledUnder(models, id, q) <==> ProviderNamed(id, ProviderById(models)) == q
  {
    SomeLast(models, id);
    var k :| LastWith(models, id, k);
    ProviderByIdIs(models, id, k);
    forall l | LastWith(models, id, l) ensures l == k {
    }
    assert ProviderById(models)[id] == FiledAs(models[k]) != "";
  }

  /** The places of one owner's results of one sort. */
  ghost function PlacesUnder(rs: seq<ProbeResult>, models: seq<Model>, q: string, b: Bucket): set<int> {
    set k | 0 <= k < |rs| && FiledUnder(models, rs[k].id, q) && OfSort(rs[k], b)
  }

  function PlacesOf(rs: seq<ProbeResult>, providerById: map<string, string>, q: string, b: Bucket): set<int> {
    set k | 0 <= k < |rs| && ProviderNamed(rs[k].id, providerById) == q && OfSort(rs[k], b)
  }

  lemma PlacesOfSnoc(rs: seq<ProbeResult>, r: ProbeResult, providerById: map<string, string>, q: string, b: Bucket)
    ensures |rs| !in PlacesOf(rs, providerById, q, b)
    ensures PlacesOf(rs + [r], providerById, q, b) ==
      if ProviderNamed(r.id, providerById) == q && OfSort(r, b) then PlacesOf(rs, providerById, q, b) + {|rs|}
      else PlacesOf(rs, providerById, q, b)
  {
    var all := rs + [r];
    assert forall k | 0 <= k < |rs| :: all[k] == rs[k];
    assert all[|rs|] == r;
  }

  lemma {:induction false} ShareIs(rs: seq<ProbeResult>, providerById: map<string, string>, q: string, b: Bucket)
    ensures ShareCount(rs, providerById, q, b) == |PlacesOf(rs, providerById, q, b)|
  {
    if rs != [] {
      var front, r := rs[..|rs| - 1], rs[|rs| - 1];
      assert rs == front + [r];
      ShareIs(front, providerById, q, b);
      PlacesOfSnoc(front, r, providerById, q, b);
      ShareCountSnoc(front, r, providerById, q, b);
      assert OfSort(r, b) <==> Is(b, r.verdict);
    }
  }

  predicate AllAdvertised(rs: seq<ProbeResult>, models: seq<Model>) {
    forall k | 0 <= k < |rs| :: exists l | 0 <= l < |models| :: models[l].id == rs[k].id
  }

  lemma SamePlaces(rs: seq<ProbeResult>, models: seq<Model>, q: string, b: Bucket)
    requires AllAdvertised(rs, models)
    ensures PlacesUnder(rs, models, q, b) == PlacesOf(rs, ProviderById(models), q, b)
  {
    forall k | 0 <= k < |rs|
      ensures FiledUnder(models, rs[k].id, q) <==> ProviderNamed(rs[k].id, ProviderById(models)) == q
    {
      FiledUnderIff(models, rs[k].id, q);
    }
  }

  lemma ShareSizes(rs: seq<ProbeResult>, models: seq<Model>, q: string, b: Bucket)
    requires AllAdvertised(rs, models)
    ensures ShareCount(rs, ProviderById(models), q, b) == |PlacesUnder(rs, models, q, b)|
  {
    ShareIs(rs, ProviderById(models), q, b);
    SamePlaces(rs, models, q, b);
  }

  lemma TallyOfShare(t: Tally, rs: seq<ProbeResult>, models: seq<Model>, q: string)
    requires Accounts(t, Of(rs, ProviderById(models), q)) && AllAdvertised(rs, models)
    ensures t.total == |PlacesUnder(rs, models, q, Total)|
    ensures t.alive == |PlacesUnder(rs, models, q, Alive)| && t.throttled == |PlacesUnder(rs, models, q, Throttled)|
    ensures t.reasoningOnly == |PlacesUnder(rs, models, q, Reasoning)|
    ensures t.dead == |PlacesUnder(rs, models, q, Lifeless)| && t.unreachable == |PlacesUnder(rs, models, q, Unreached)|
  {
    FieldsAre(t, Of(rs, ProviderById(models), q));
    ShareSizes(rs, models, q, Total);
    ShareSizes(rs, models, q, Alive);
    ShareSizes(rs, models, q, Throttled);
    ShareSizes(rs, models, q, Reasoning);
    ShareSizes(rs, models, q, Lifeless);
    ShareSizes(rs, models, q, Unreached);
  }

  lemma FieldsAre(t: Tally, rs: seq<ProbeResult>)
    requires Accounts(t, rs)
    ensures t.total == |Which(rs, Total)| && t.alive == |Which(rs, Alive)| && t.throttled == |Which(rs, Throttled)|
    ensures t.reasoningOnly == |Which(rs, Reasoning)| && t.dead == |Which(rs, Lifeless)|
    ensures t.unreachable == |Which(rs, Unreached)|
  {
    assert Count(t, Total) == t.total && Count(t, Alive) == t.alive && Count(t, Throttled) == t.throttled;
    assert Count(t, Reasoning) == t.reasoningOnly && Count(t, Lifeless) == t.dead;
    assert Count(t, Unreached) == t.unreachable;
  }

  lemma ShareExists(rs: seq<ProbeResult>, models: seq<Model>, q: string)
    requires AllAdvertised(rs, models)
    ensures Of(rs, ProviderById(models), q) != [] <==> exists k | 0 <= k < |rs| :: FiledUnder(models, rs[k].id, q)
  {
    var places := PlacesUnder(rs, models, q, Total);
    ShareSizes(rs, models, q, Total);
    Conserved(Of(rs, ProviderById(models), q));
    assert |Of(rs, ProviderById(models), q)| == |places|;
    if places != {} {
      var k :| k in places;
      assert FiledUnder(models, rs[k].id, q);
    }
    if k :| 0 <= k < |rs| && FiledUnder(models, rs[k].id, q) {
      assert k in places;
    }
  }

  /** A provider has a tally exactly when some result belongs to it, and the tally counts just its results. */
  lemma SharesAre(s: Summary, rs: seq<ProbeResult>, models: seq<Model>, q: string)
    requires Summarizes(s, rs, ProviderById(models)) && AllAdvertised(rs, models)
    ensures q in s.perProvider <==> exists k | 0 <= k < |rs| :: FiledUnder(models, rs[k].id, q)
    ensures q in s.perProvider ==>
      var t := s.perProvider[q];
      && t.total == |PlacesUnder(rs, models, q, Total)|
      && t.alive == |PlacesUnder(rs, models, q, Alive)| && t.throttled == |PlacesUnder(rs, models, q, Throttled)|
      && t.reasoningOnly == |PlacesUnder(rs, models, q, Reasoning)|
      && t.dead == |PlacesUnder(rs, models, q, Lifeless)| && t.unreachable == |PlacesUnder(rs, models, q, Unreached)|
  {
    assert ShareOk(s.perProvider, rs, ProviderById(models), q);
    ShareExists(rs, models, q);
    if q in s.perProvider {
      TallyOfShare(s.perProvider[q], rs, models, q);
    }
  }

  // ----- the verdict -----

  const MIN_FAILOVER_LIVE := 2

  /** Ids worth probing: those of providers that are not skipped, in catalogue order. */
  function ProbeIds(advertised: seq<Model>, skip: set<string>): (ids: seq<string>)
    ensures forall id :: id in ids <==> exists m :: m in advertised && Owner(m) !in skip && m.id == id
  {
    if advertised == [] then []
    else
      var n := |advertised| - 1;
      ProbeIds(advertised[..n], skip) + if Owner(advertised[n]) in skip then [] else [advertised[n].id]
  }

  function ProviderById(advertised: seq<Model>): map<string, string> {
    if advertised == [] then map[]
    else
      var n := |advertised| - 1;
      ProviderById(advertised[..n])[advertised[n].id := OwnerOrUnknown(advertised[n])]
  }

  lemma {:induction false} NonEmptyIff(rs: seq<ProbeResult>, k: Bucket)
    ensures Which(rs, k) != [] <==> exists r :: r in rs && Is(k, r.verdict)
  {
    if rs != [] {
      NonEmptyIff(rs[..|rs| - 1], k);
      assert forall r :: r in rs <==> r in rs[..|rs| - 1] || r == rs[|rs| - 1];
    }
  }

  /** The three answers a verification starts from; each fetch may fail. */
  datatype Fetched = Fetched(models: Option<seq<Model>>, admin: Option<seq<Model>>, status: Option<map<string, Status>>)

  predicate Reachable(f: Fetched) {
    f.models.Some? && f.admin.Some? && f.status.Some?
  }

  /** What a verification is asked to look at besides the advertised models. */
  datatype Scope = Scope(skip: set<string>, candidates: seq<string>, roles: seq<Role>, backends: map<string, Backend>)

  /** Healthy, known to have models, and absent from the advertised catalogue. */
  predicate Unrepresented(p: string, statuses: map<string, Status>, collected: seq<Model>, advertised: seq<Model>) {
    && p in statuses && statuses[p].ok && (forall m | m in advertised :: FiledAs(m) != p)
    && ((exists m | m in collected :: FiledAs(m) == p) || (statuses[p].count.Some? && statuses[p].count.value > 0.0))
  }

  /** Drift, said without any of the bookkeeping. */
  ghost predicate Drift(probed: seq<ProbeResult>, failover: seq<ProbeResult>, f: Fetched, substituted: bool)
    requires Reachable(f)
  {
    || (exists k | 0 <= k < |probed| :: !probed[k].verdict.alive && !probed[k].verdict.unreachable)
    || (exists p | p in f.status.value :: Unrepresented(p, f.status.value, f.admin.value, f.models.value))
    || |set k | 0 <= k < |failover| && failover[k].verdict.alive| < 2
    || substituted
  }

  /** `Unchecked` is the report on a gateway that could not be reached. */
  datatype Report =
    | Unchecked
    | Checked(liveness: Summary, gaps: seq<Gap>, failoverLive: nat, mismatches: seq<Role>, drift: bool)

  function ExitCode(r: Report): nat {
    match r
    case Unchecked => 2
    case Checked(_, _, _, _, drift) => if drift then 1 else 0
  }

  lemma OffersIff(models: seq<Model>, p: string)
    ensures Offers(models, p) <==> exists m | m in models :: FiledAs(m) == p
  {
    forall m: Model ensures FiledAs(m) == OwnerOrUnknown(m) {
    }
  }

  function IdsOf(models: seq<Model>, p: string): set<string> {
    set m | m in models && FiledAs(m) == p :: m.id
  }

  lemma SizeIs(c: Catalogue, models: seq<Model>, p: string)
    requires Groups(c, models)
    ensures Size(c, p) == |IdsOf(models, p)|
  {
    OffersIff(models, p);
    forall m: Model ensures FiledAs(m) == OwnerOrUnknown(m) {
    }
    if p in c {
      assert c[p] == IdsOf(models, p);
    } else {
      assert IdsOf(models, p) == {};
    }
  }

  /** One gap for each unrepresented provider, with what the provider says and what was collected of it. */
  ghost predicate GapsAre(gaps: seq<Gap>, statuses: map<string, Status>, collected: seq<Model>,
                          advertised: seq<Model>) {
    && (forall p :: (exists g | g in gaps :: g.provider == p) <==> Unrepresented(p, statuses, collected, advertised))
    && (forall i, j | 0 <= i < j < |gaps| :: gaps[i].provider != gaps[j].provider)
    && (forall g | g in gaps ::
         && g.provider in statuses && g.collected == |IdsOf(collected, g.provider)|
         && g.says == if statuses[g.provider].count.Some? then statuses[g.provider].count.value else 0.0)
  }

  method FindGaps(statuses: map<string, Status>, collected: seq<Model>, advertised: seq<Model>) returns (gaps: seq<Gap>)
    ensures GapsAre(gaps, statuses, collected, advertised)
    ensures gaps != [] <==> exists p | p in statuses :: Unrepresented(p, statuses, collected, advertised)
  {
    var a := GroupIdsByProvider(advertised);
    var c := GroupIdsByProvider(collected);
    gaps := ComputeRepresentationGaps(statuses, c, a);
    forall g | g in gaps ensures g.collected == |IdsOf(collected, g.provider)| {
      SizeIs(c, collected, g.provider);
    }
    forall p ensures Unrepresented(p, statuses, collected, advertised) <==> exists g | g in gaps :: g.provider == p {
      OffersIff(advertised, p);
      OffersIff(collected, p);
      assert Size(a, p) > 0 <==> p in a;
      assert Size(c, p) > 0 <==> p in c;
    }
    if gaps != [] {
      assert gaps[0] in gaps && Unrepresented(gaps[0].provider, statuses, collected, advertised);
    }
  }

  /** The sweeps of a verification, one after the other, and where the roles are asked. */
  function Sweeps(w: Timeline, models: seq<Model>, scope: Scope, at: Position)
    : (seq<ProbeResult>, seq<ProbeResult>, Position)
  {
    var (probed, mid) := Sweep(w, ProbeIds(models, scope.skip), at);
    var (failover, end) := Sweep(w, scope.candidates, mid);
    (probed, failover, end)
  }

  /** The summary counts every result overall, and every owner's results under that owner. */
  ghost predicate CountsByOwner(s: Summary, rs: seq<ProbeResult>, models: seq<Model>) {
    && CountsPlaces(s.overall, Places(rs, Total), Places(rs, Alive), Places(rs, Throttled), Places(rs, Reasoning),
                    Places(rs, Lifeless), Places(rs, Unreached))
    && forall q ::
      && (q in s.perProvider <==> exists k | 0 <= k < |rs| :: FiledUnder(models, rs[k].id, q))
      && (q in s.perProvider ==>
            CountsPlaces(s.perProvider[q], PlacesUnder(rs, models, q, Total), PlacesUnder(rs, models, q, Alive),
              PlacesUnder(rs, models, q, Throttled), PlacesUnder(rs, models, q, Reasoning),
              PlacesUnder(rs, models, q, Lifeless), PlacesUnder(rs, models, q, Unreached)))
  }

  predicate CountsPlaces(t: Tally, total: set<int>, alive: set<int>, throttled: set<int>, reasoning: set<int>,
                         dead: set<int>, unreachable: set<int>) {
    && t.total == |total| && t.alive == |alive| && t.throttled == |throttled|
    && t.reasoningOnly == |reasoning| && t.dead == |dead| && t.unreachable == |unreachable|
  }

  lemma SummaryCounts(s: Summary, rs: seq<ProbeResult>, models: seq<Model>)
    requires Summarizes(s, rs, ProviderById(models)) && AllAdvertised(rs, models)
    ensures CountsByOwner(s, rs, models)
  {
    TallyIs(s.overall, rs);
    forall q
      ensures q in s.perProvider <==> exists k | 0 <= k < |rs| :: FiledUnder(models, rs[k].id, q)
      ensures q in s.perProvider ==>
        CountsPlaces(s.perProvider[q], PlacesUnder(rs, models, q, Total), PlacesUnder(rs, models, q, Alive),
          PlacesUnder(rs, models, q, Throttled), PlacesUnder(rs, models, q, Reasoning),
          PlacesUnder(rs, models, q, Lifeless), PlacesUnder(rs, models, q, Unreached))
    {
      SharesAre(s, rs, models, q);
    }
  }

  lemma ProbedAreAdvertised(w: Timeline, models: seq<Model>, skip: set<string>, at: Position)
    ensures AllAdvertised(Sweep(w, ProbeIds(models, skip), at).0, models)
  {
    var ids, rs := ProbeIds(models, skip), Sweep(w, ProbeIds(models, skip), at).0;
    SweepAnswersEachId(w, ids, at);
    forall k | 0 <= k < |rs| ensures exists l | 0 <= l < |models| :: models[l].id == rs[k].id {
      assert rs[k].id == ids[k] && ids[k] in ids;
      var m :| m in models && m.id == rs[k].id;
    }
  }

  lemma {:induction false} ShareHas(rs: seq<ProbeResult>, providerById: map<string, string>, q: string, r: ProbeResult)
    ensures r in Of(rs, providerById, q) <==> r in rs && ProviderNamed(r.id, providerById) == q
  {
    if rs != [] {
      var front, last := rs[..|rs| - 1], rs[|rs| - 1];
      assert rs == front + [last];
      ShareHas(front, providerById, q, r);
    }
  }

  /** The lists of a summary: the unreachable results, and the dead and the reasoning-only ones, overall and of
    * each owner. */
  ghost predicate ListsByOwner(s: Summary, rs: seq<ProbeResult>, models: seq<Model>) {
    && (forall r :: r in s.unreachableOnes <==> r in rs && OfSort(r, Unreached))
    && (forall r :: r in s.overall.deadOnes <==> r in rs && OfSort(r, Lifeless))
    && (forall r :: r in s.overall.reasoningOnlyOnes <==> r in rs && OfSort(r, Reasoning))
    && (forall q, r | q in s.perProvider ::
         r in s.perProvider[q].deadOnes <==> r in rs && FiledUnder(models, r.id, q) && OfSort(r, Lifeless))
    && (forall q, r | q in s.perProvider ::
         r in s.perProvider[q].reasoningOnlyOnes <==> r in rs && FiledUnder(models, r.id, q) && OfSort(r, Reasoning))
  }

  lemma SummaryLists(s: Summary, rs: seq<ProbeResult>, models: seq<Model>)
    requires Summarizes(s, rs, ProviderById(models)) && AllAdvertised(rs, models)
    ensures ListsByOwner(s, rs, models)
  {
    forall r
      ensures r in Which(rs, Unreached) <==> r in rs && OfSort(r, Unreached)
      ensures r in Which(rs, Lifeless) <==> r in rs && OfSort(r, Lifeless)
      ensures r in Which(rs, Reasoning) <==> r in rs && OfSort(r, Reasoning)
    {
      ListedOnes(rs, Unreached, r);
      ListedOnes(rs, Lifeless, r);
      ListedOnes(rs, Reasoning, r);
    }
    forall q, r | q in s.perProvider
      ensures r in s.perProvider[q].deadOnes <==> r in rs && FiledUnder(models, r.id, q) && OfSort(r, Lifeless)
      ensures r in s.perProvider[q].reasoningOnlyOnes <==>
        r in rs && FiledUnder(models, r.id, q) && OfSort(r, Reasoning)
    {
      ShareLists(s, rs, models, q, r);
    }
  }

  lemma ShareLists(s: Summary, rs: seq<ProbeResult>, models: seq<Model>, q: string, r: ProbeResult)
    requires Summarizes(s, rs, ProviderById(models)) && AllAdvertised(rs, models) && q in s.perProvider
    ensures r in s.perProvider[q].deadOnes <==> r in rs && FiledUnder(models, r.id, q) && OfSort(r, Lifeless)
    ensures r in s.perProvider[q].reasoningOnlyOnes <==> r in rs && FiledUnder(models, r.id, q) && OfSort(r, Reasoning)
  {
    assert ShareOk(s.perProvider, rs, ProviderById(models), q);
    var share := Of(rs, ProviderById(models), q);
    ListedOnes(share, Lifeless, r);
    ListedOnes(share, Reasoning, r);
    ShareHas(rs, ProviderById(models), q, r);
    if r in rs {
      var k :| 0 <= k < |rs| && rs[k] == r;
      FiledUnderIff(models, r.id, q);
    }
  }

  /** What a verification reports, given the results of its sweeps, when the roles are asked from completion `n`
    * on. */
  ghost predicate Tells(r: Report, probed: seq<ProbeResult>, failover: seq<ProbeResult>, f: Fetched, scope: Scope,
                        w: Timeline, n: nat)
    requires Reachable(f)
  {
    && r.Checked?
    && CountsByOwner(r.liveness, probed, f.models.value) && ListsByOwner(r.liveness, probed, f.models.value)
    && GapsAre(r.gaps, f.status.value, f.admin.value, f.models.value)
    && r.failoverLive == |set k | 0 <= k < |failover| && failover[k].verdict.alive|
    && (forall role :: role in r.mismatches <==> IsSubstituted(w, scope.roles, scope.backends, n, role))
    && (r.drift <==> Drift(probed, failover, f, SomeAnother(w, scope.roles, scope.backends, n)))
  }

  /** A whole verification: exit 2 exactly when a fetch fails, 1 exactly on drift, else 0. */
  method RunVerification(g: Gateway, f: Fetched, scope: Scope) returns (report: Report)
    modifies g`at
    ensures ExitCode(report) == 2 <==> !Reachable(f)
    ensures !Reachable(f) ==> g.at == old(g.at)
    ensures Reachable(f) ==>
      var (probed, failover, end) := Sweeps(g.world, f.models.value, scope, old(g.at));
      && g.at == end.(completions := end.completions + |AskedBefore(scope.roles, scope.backends, |scope.roles|)|)
      && Tells(report, probed, failover, f, scope, g.world, end.completions)
      && (ExitCode(report) == 1 <==>
            Drift(probed, failover, f, SomeAnother(g.world, scope.roles, scope.backends, end.completions)))
  {
    if f.models.None? || f.admin.None? || f.status.None? {
      return Unchecked;
    }
    report := Verify(g, f, scope);
  }

  method Verify(g: Gateway, f: Fetched, scope: Scope) returns (report: Report)
    requires Reachable(f)
    modifies g`at
    ensures var (probed, failover, end) := Sweeps(g.world, f.models.value, scope, old(g.at));
      && g.at == end.(completions := end.completions + |AskedBefore(scope.roles, scope.backends, |scope.roles|)|)
      && Tells(report, probed, failover, f, scope, g.world, end.completions)
  {
    var advertised := f.models.value;
    var probed := g.ProbeAll(ProbeIds(advertised, scope.skip));
    var liveness := SummarizeLiveness(probed, ProviderById(advertised));
    ProbedAreAdvertised(g.world, advertised, scope.skip, old(g.at));
    var gaps := FindGaps(f.status.value, f.admin.value, advertised);
    var failover := g.ProbeAll(scope.candidates);
    var live := |Which(failover, Alive)|;
    AskedCount(scope.roles, scope.backends);
    ghost var n := g.at.completions;
    var mismatches := g.CheckRoleFidelity(scope.roles, scope.backends);
    var drift := liveness.overall.dead > 0 || gaps != [] || live < MIN_FAILOVER_LIVE || mismatches != [];
    report := Checked(liveness, gaps, live, mismatches, drift);
    ReportTells(liveness, gaps, probed, failover, f, scope, g.world, n);
  }

  /** The report that `Verify` puts together. */
  lemma ReportTells(s: Summary, gaps: seq<Gap>, probed: seq<ProbeResult>, failover: seq<ProbeResult>, f: Fetched,
                    scope: Scope, w: Timeline, n: nat)
    requires Reachable(f) && Summarizes(s, probed, ProviderById(f.models.value))
    requires AllAdvertised(probed, f.models.value)
    requires GapsAre(gaps, f.status.value, f.admin.value, f.models.value)
    requires gaps != [] <==>
      exists p | p in f.status.value :: Unrepresented(p, f.status.value, f.admin.value, f.models.value)
    ensures var live := |Which(failover, Alive)|;
      var mismatches := Mismatches(w, Chat(scope.roles, scope.backends), scope.backends, n);
      var drift := s.overall.dead > 0 || gaps != [] || live < MIN_FAILOVER_LIVE || mismatches != [];
      Tells(Checked(s, gaps, live, mismatches, drift), probed, failover, f, scope, w, n)
  {
    SummaryCounts(s, probed, f.models.value);
    SummaryLists(s, probed, f.models.value);
    LivingCount(failover);
    RolesAre(w, scope.roles, scope.backends, n);
    DriftIff(s, probed, f, failover, SomeAnother(w, scope.roles, scope.backends, n));
  }

  lemma DriftIff(s: Summary, probed: seq<ProbeResult>, f: Fetched, failover: seq<ProbeResult>, substituted: bool)
    requires Reachable(f) && Summarizes(s, probed, ProviderById(f.models.value))
    ensures Drift(probed, failover, f, substituted) <==>
      || s.overall.dead > 0
      || (exists p | p in f.status.value :: Unrepresented(p, f.status.value, f.admin.value, f.models.value))
      || |Which(failover, Alive)| < MIN_FAILOVER_LIVE || substituted
  {
    DeadCounted(s, probed, ProviderById(f.models.value));
    LivingCount(failover);
  }

  /** Liveness drifts exactly when some result is dead; unreachable ones never count. */
  lemma DeadCounted(s: Summary, rs: seq<ProbeResult>, providerById: map<string, string>)
    requires Summarizes(s, rs, providerById)
    ensures s.overall.dead > 0 <==>
      exists k | 0 <= k < |rs| :: !rs[k].verdict.alive && !rs[k].verdict.unreachable
  {
    assert Count(s.overall, Lifeless) == |Which(rs, Lifeless)|;
    NonEmptyIff(rs, Lifeless);
    assert forall r :: r in rs && Is(Lifeless, r.verdict) <==> r in rs && !r.verdict.alive && !r.verdict.unreachable;
  }

  lemma LivingCount(rs: seq<ProbeResult>)
    ensures |Which(rs, Alive)| == |set k | 0 <= k < |rs| && rs[k].verdict.alive|
  {
    PlacesCount(rs, Alive);
    assert Places(rs, Alive) == set k | 0 <= k < |rs| && rs[k].verdict.alive;
  }

  /** Every completion is refused. */
  ghost predicate Outage(w: Timeline) {
    forall n :: w.answer(n).Failed? && w.answer(n).message != ""
  }

  /** When the catalogues can still be fetched but every completion is refused, no model is called dead and no
    * role unfaithful; but no failover candidate answers either, and that alone is drift. */
  lemma OutageIsFailoverDrift(w: Timeline, f: Fetched, scope: Scope, at: Position)
    requires Outage(w) && Reachable(f)
    ensures var (probed, failover, end) := Sweeps(w, f.models.value, scope, at);
      && (forall r | r in probed :: !Dead(r.verdict))
      && !Substituted(w, Chat(scope.roles, scope.backends), scope.backends, end.completions)
      && Drift(probed, failover, f, false)
  {
    var (probed, mid) := Sweep(w, ProbeIds(f.models.value, scope.skip), at);
    var (failover, end) := Sweep(w, scope.candidates, mid);
    NothingIsLearnt(w, ProbeIds(f.models.value, scope.skip), at);
    NothingIsLearnt(w, scope.candidates, mid);
    forall k | 0 <= k < |failover| ensures !failover[k].verdict.alive {
      assert failover[k] in failover;
    }
    assert (set k | 0 <= k < |failover| && failover[k].verdict.alive) == {};
  }

  lemma {:induction false} NothingIsLearnt(w: Timeline, ids: seq<string>, at: Position)
    requires Outage(w)
    ensures forall r | r in Sweep(w, ids, at).0 :: r.verdict.unreachable && !r.verdict.alive
  {
    if ids != [] {
      NothingIsLearnt(w, ids[..|ids| - 1], at);
    }
  }

  // ----- which ids are probed, and which roles are asked -----

  /** A model is probed unless its provider, or failing that its owner, is skipped. */
  predicate IsProbed(m: Model, skip: set<string>) {
    (if m.provider != "" then m.provider else m.ownedBy) !in skip
  }

  function ProbedBefore(models: seq<Model>, skip: set<string>, k: nat): set<int> {
    set l | 0 <= l < k && l < |models| && IsProbed(models[l], skip)
  }

  lemma {:induction false} ProbedCount(models: seq<Model>, skip: set<string>)
    ensures |ProbeIds(models, skip)| == |ProbedBefore(models, skip, |models|)|
  {
    if models != [] {
      var n := |models| - 1;
      ProbedCount(models[..n], skip);
      assert IsProbed(models[n], skip) <==> Owner(models[n]) !in skip;
      assert ProbedBefore(models, skip, n) == ProbedBefore(models[..n], skip, n);
      ProbedStep(models, skip, n);
    }
  }

  /** Each probed model's id comes at the place given by the probed models before it. */
  lemma {:induction false} ProbeIdAt(models: seq<Model>, skip: set<string>, k: nat)
    requires k < |models| && IsProbed(models[k], skip)
    ensures var place := |ProbedBefore(models, skip, k)|;
      place < |ProbeIds(models, skip)| && ProbeIds(models, skip)[place] == models[k].id
  {
    var n := |models| - 1;
    assert ProbedBefore(models, skip, k) == ProbedBefore(models[..n], skip, k);
    if k < n {
      ProbeIdAt(models[..n], skip, k);
      assert ProbeIds(models[..n], skip) <= ProbeIds(models, skip);
    } else {
      ProbedCount(models[..n], skip);
    }
  }

  lemma ProbedStep(models: seq<Model>, skip: set<string>, n: nat)
    requires n < |models|
    ensures n !in ProbedBefore(models, skip, n)
    ensures ProbedBefore(models, skip, n + 1) ==
      if IsProbed(models[n], skip) then ProbedBefore(models, skip, n) + {n} else ProbedBefore(models, skip, n)
  {
  }

  predicate IsAsked(r: Role, backends: map<string, Backend>) {
    r.target in backends && backends[r.target].kind in ["", "chat"]
  }

  function AskedBefore(roles: seq<Role>, backends: map<string, Backend>, k: nat): set<int> {
    set l | 0 <= l < k && l < |roles| && IsAsked(roles[l], backends)
  }

  lemma AskedStep(roles: seq<Role>, backends: map<string, Backend>, n: nat)
    requires n < |roles|
    ensures n !in AskedBefore(roles, backends, n)
    ensures AskedBefore(roles, backends, n + 1) ==
      if IsAsked(roles[n], backends) then AskedBefore(roles, backends, n) + {n} else AskedBefore(roles, backends, n)
  {
  }

  lemma {:induction false} AskedCount(roles: seq<Role>, backends: map<string, Backend>)
    ensures |Chat(roles, backends)| == |AskedBefore(roles, backends, |roles|)|
  {
    if roles != [] {
      var n := |roles| - 1;
      AskedCount(roles[..n], backends);
      assert IsAsked(roles[n], backends) <==> IsChat(roles[n], backends);
      assert AskedBefore(roles, backends, n) == AskedBefore(roles[..n], backends, n);
      AskedStep(roles, backends, n);
    }
  }

  /** Role `k`, asked after the asked roles before it, is answered well by a model other than its own. */
  predicate AnsweredByAnother(w: Timeline, roles: seq<Role>, backends: map<string, Backend>, n: nat, k: nat) {
    && k < |roles| && IsAsked(roles[k], backends)
    && var o, own := w.answer(n + |AskedBefore(roles, backends, k)|), backends[roles[k].target].model;
      o.Answered? && 200 <= o.status < 300 && (o.served.None? || own.None? || o.served.value != own.value)
  }

  predicate SomeAnother(w: Timeline, roles: seq<Role>, backends: map<string, Backend>, n: nat) {
    exists k: nat | k < |roles| :: AnsweredByAnother(w, roles, backends, n, k)
  }

  /** This role is among the substituted ones. */
  predicate IsSubstituted(w: Timeline, roles: seq<Role>, backends: map<string, Backend>, n: nat, r: Role) {
    exists k: nat | k < |roles| :: AnsweredByAnother(w, roles, backends, n, k) && roles[k] == r
  }

  /** The list of mismatches, and how many completions it took. */
  lemma RolesAre(w: Timeline, roles: seq<Role>, backends: map<string, Backend>, n: nat)
    ensures var mismatches := Mismatches(w, Chat(roles, backends), backends, n);
      && (forall r :: r in mismatches <==> IsSubstituted(w, roles, backends, n, r))
      && (mismatches != [] <==> SomeAnother(w, roles, backends, n))
    ensures |Chat(roles, backends)| == |AskedBefore(roles, backends, |roles|)|
  {
    forall r ensures r in Mismatches(w, Chat(roles, backends), backends, n) <==>
      IsSubstituted(w, roles, backends, n, r)
    {
      MismatchIs(w, roles, backends, n, r);
    }
    SubstitutedIff(w, roles, backends, n);
    MismatchesIff(w, Chat(roles, backends), backends, n);
    AskedCount(roles, backends);
  }

  lemma {:induction false} MismatchIs(w: Timeline, roles: seq<Role>, backends: map<string, Backend>, n: nat, r: Role)
    ensures r in Mismatches(w, Chat(roles, backends), backends, n) <==> IsSubstituted(w, roles, backends, n, r)
  {
    if roles != [] {
      var m := |roles| - 1;
      MismatchIs(w, roles[..m], backends, n, r);
      MismatchLast(w, roles, backends, n, r);
      SubstitutedLast(w, roles, backends, n, r);
    }
  }

  lemma MismatchLast(w: Timeline, roles: seq<Role>, backends: map<string, Backend>, n: nat, r: Role)
    requires roles != []
    ensures var m := |roles| - 1;
      r in Mismatches(w, Chat(roles, backends), backends, n) <==>
        || r in Mismatches(w, Chat(roles[..m], backends), backends, n)
        || (AnsweredByAnother(w, roles, backends, n, m) && roles[m] == r)
  {
    var m := |roles| - 1;
    MismatchesOneMore(w, Chat(roles[..m], backends), roles[m], backends, n);
    ChatLast(roles, backends);
    LastAnother(w, roles, backends, n);
  }

  lemma SubstitutedLast(w: Timeline, roles: seq<Role>, backends: map<string, Backend>, n: nat, r: Role)
    requires roles != []
    ensures var m := |roles| - 1;
      IsSubstituted(w, roles, backends, n, r) <==>
        IsSubstituted(w, roles[..m], backends, n, r) || (AnsweredByAnother(w, roles, backends, n, m) && roles[m] == r)
  {
    SameBefore(w, roles, backends, n);
    SubstitutedOneMore(w, roles, backends, n, r);
  }

  lemma SubstitutedOneMore(w: Timeline, roles: seq<Role>, backends: map<string, Backend>, n: nat, r: Role)
    requires roles != []
    requires forall k: nat | k < |roles| - 1 ::
      AnsweredByAnother(w, roles, backends, n, k) <==> AnsweredByAnother(w, roles[..|roles| - 1], backends, n, k)
    ensures var m := |roles| - 1;
      IsSubstituted(w, roles, backends, n, r) <==>
        IsSubstituted(w, roles[..m], backends, n, r) || (AnsweredByAnother(w, roles, backends, n, m) && roles[m] == r)
  {
    var m := |roles| - 1;
    if IsSubstituted(w, roles[..m], backends, n, r) {
      var k: nat :| k < m && AnsweredByAnother(w, roles[..m], backends, n, k) && roles[..m][k] == r;
      assert AnsweredByAnother(w, roles, backends, n, k) && roles[k] == r;
    }
    if IsSubstituted(w, roles, backends, n, r) {
      var k: nat :| k < |roles| && AnsweredByAnother(w, roles, backends, n, k) && roles[k] == r;
      assert k == m || (AnsweredByAnother(w, roles[..m], backends, n, k) && roles[..m][k] == r);
    }
  }

  /** What comes later changes nothing for the roles before it. */
  lemma SameBefore(w: Timeline, roles: seq<Role>, backends: map<string, Backend>, n: nat)
    requires roles != []
    ensures forall k: nat | k < |roles| - 1 ::
      AnsweredByAnother(w, roles, backends, n, k) <==> AnsweredByAnother(w, roles[..|roles| - 1], backends, n, k)
  {
    var m := |roles| - 1;
    forall k: nat | k < m
      ensures AnsweredByAnother(w, roles, backends, n, k) <==> AnsweredByAnother(w, roles[..m], backends, n, k)
    {
      assert AskedBefore(roles, backends, k) == AskedBefore(roles[..m], backends, k);
    }
  }

  lemma ChatLast(roles: seq<Role>, backends: map<string, Backend>)
    requires roles != []
    ensures var m := |roles| - 1;
      Chat(roles, backends) ==
        if IsAsked(roles[m], backends) then Chat(roles[..m], backends) + [roles[m]] else Chat(roles[..m], backends)
  {
    assert IsAsked(roles[|roles| - 1], backends) <==> IsChat(roles[|roles| - 1], backends);
  }

  lemma LastAnother(w: Timeline, roles: seq<Role>, backends: map<string, Backend>, n: nat)
    requires roles != []
    ensures var m := |roles| - 1;
      AnsweredByAnother(w, roles, backends, n, m) <==>
        && IsAsked(roles[m], backends)
        && Unfaithful(w.answer(n + |Chat(roles[..m], backends)|), Expected(roles[m], backends))
  {
    var m := |roles| - 1;
    AskedCount(roles[..m], backends);
    assert AskedBefore(roles, backends, m) == AskedBefore(roles[..m], backends, m);
  }

  /** Substitution, role by role. */
  lemma {:induction false} SubstitutedIff(w: Timeline, roles: seq<Role>, backends: map<string, Backend>, n: nat)
    ensures Substituted(w, Chat(roles, backends), backends, n) <==> SomeAnother(w, roles, backends, n)
  {
    if roles != [] {
      var m := |roles| - 1;
      SubstitutedIff(w, roles[..m], backends, n);
      SameBefore(w, roles, backends, n);
      LastAnother(w, roles, backends, n);
      ChatLast(roles, backends);
      SubstitutedSnoc(w, Chat(roles[..m], backends), roles[m], backends, n);
      AnotherOneMore(w, roles, backends, n);
    }
  }

  lemma AnotherOneMore(w: Timeline, roles: seq<Role>, backends: map<string, Backend>, n: nat)
    requires roles != []
    requires forall k: nat | k < |roles| - 1 ::
      AnsweredByAnother(w, roles, backends, n, k) <==> AnsweredByAnother(w, roles[..|roles| - 1], backends, n, k)
    ensures SomeAnother(w, roles, backends, n) <==>
      SomeAnother(w, roles[..|roles| - 1], backends, n) || AnsweredByAnother(w, roles, backends, n, |roles| - 1)
  {
    var m := |roles| - 1;
    if SomeAnother(w, roles[..m], backends, n) {
      var k: nat :| k < m && AnsweredByAnother(w, roles[..m], backends, n, k);
      assert AnsweredByAnother(w, roles, backends, n, k);
    }
    if SomeAnother(w, roles, backends, n) {
      var k: nat :| k < |roles| && AnsweredByAnother(w, roles, backends, n, k);
      assert k == m || AnsweredByAnother(w, roles[..m], backends, n, k);
    }
  }

  lemma SubstitutedSnoc(w: Timeline, asked: seq<Role>, r: Role, backends: map<string, Backend>, n: nat)
    ensures Substituted(w, asked + [r], backends, n) <==>
      Substituted(w, asked, backends, n) || Unfaithful(w.answer(n + |asked|), Expected(r, backends))
  {
    var all := asked + [r];
    assert all[|asked|] == r && forall k | 0 <= k < |asked| :: all[k] == asked[k];
  }
}
