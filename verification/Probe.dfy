/** Catalogue verification: probing through a gateway that may come and go, and accounting for every answer. */
module Probe {
  import opened Json
  import opened Sums

  // ----- one probe -----

  /** What a completion request comes to. Only string-valued contents are kept; `served` is the
    * model the gateway says answered. */
  datatype Outcome =
    | Answered(status: int, content: Option<string>, reasoning: Option<string>, served: Option<string>)
    | Aborted
    | Failed(message: string)

  datatype Reason = GatewayUnreachable(message: string) | Timeout | NoResponse | Http(status: int) | ReasoningOnly

  datatype Class = Class(alive: bool, throttled: bool, unreachable: bool, reasoningOnly: bool, reason: Reason)

  datatype ProbeResult = ProbeResult(id: string, status: Option<int>, verdict: Class)

  predicate IsSpace(c: char) {
    var n := c as int;
    9 <= n <= 13 || n == 32 || n == 0xA0 || n == 0x1680 || 0x2000 <= n <= 0x200A || n == 0x2028 || n == 0x2029
    || n == 0x202F || n == 0x205F || n == 0x3000 || n == 0xFEFF
  }

  predicate HasText(s: Option<string>) {
    s.Some? && exists i | 0 <= i < |s.value| :: !IsSpace(s.value[i])
  }

  predicate Success(status: int) {
    200 <= status < 300
  }

  /** A failed connection with no message is not told apart from no response at all. */
  function ClassifyProbe(o: Outcome): (c: Class)
    ensures c.alive <==> o.Answered? && (o.status == 429 || Success(o.status))
    ensures c.unreachable <==> o.Failed? && o.message != ""
    ensures c.throttled ==> c.alive && !c.reasoningOnly
    ensures c.reasoningOnly <==> o.Answered? && Success(o.status) && !HasText(o.content) && HasText(o.reasoning)
    ensures c.throttled <==> o.Answered? && o.status == 429
    ensures c.reason == Timeout <==> o.Aborted?
    ensures forall s :: c.reason == Http(s) <==> o.Answered? && o.status == s && !c.reasoningOnly
    ensures forall m :: c.reason == GatewayUnreachable(m) <==> o == Failed(m) && m != ""
    ensures c.reason == ReasoningOnly <==> c.reasoningOnly
  {
    match o
    case Failed(m) =>
      if m != "" then Class(false, false, true, false, GatewayUnreachable(m))
      else Class(false, false, false, false, NoResponse)
    case Aborted => Class(false, false, false, false, Timeout)
    case Answered(status, content, reasoning, _) =>
      if status == 429 then Class(true, true, false, false, Http(429))
      else if Success(status) then
        if !HasText(content) && HasText(reasoning) then Class(true, false, false, true, ReasoningOnly)
        else Class(true, false, false, false, Http(status))
      else Class(false, false, false, false, Http(status))
  }

  predicate Dead(c: Class) {
    !c.alive && !c.unreachable
  }

  // ----- the gateway as a sequence of answers -----

  /** Where a run stands: completions asked for and health polls made so far. */
  datatype Position = Position(completions: nat, polls: nat)

  /** Any behaviour over time: the n-th completion's outcome, and whether the n-th health poll is answered. */
  datatype Timeline = Timeline(answer: nat -> Outcome, healthy: nat -> bool)

  function Asked(w: Timeline, id: string, n: nat): ProbeResult {
    var o := w.answer(n);
    ProbeResult(id, if o.Answered? then Some(o.status) else None, ClassifyProbe(o))
  }

  const ATTEMPTS := 10

  predicate ComesBack(w: Timeline, p: nat, attempts: nat) {
    exists k: nat | p <= k < p + attempts :: w.healthy(k)
  }

  function PollsUsed(w: Timeline, p: nat, attempts: nat): (n: nat)
    ensures n <= attempts
    decreases attempts
  {
    if attempts == 0 then 0 else if w.healthy(p) then 1 else 1 + PollsUsed(w, p + 1, attempts - 1)
  }

  /** The recorded result of one id, and the position after it. */
  function Settled(w: Timeline, id: string, at: Position): (ProbeResult, Position) {
    var first := Asked(w, id, at.completions);
    var next := Position(at.completions + 1, at.polls);
    if !first.verdict.unreachable then (first, next)
    else
      var polled := next.(polls := at.polls + PollsUsed(w, at.polls, ATTEMPTS));
      if ComesBack(w, at.polls, ATTEMPTS)
      then (Asked(w, id, at.completions + 1), polled.(completions := at.completions + 2)) else (first, polled)
  }

  function Sweep(w: Timeline, ids: seq<string>, at: Position): (seq<ProbeResult>, Position) {
    if ids == [] then ([], at)
    else
      var (done, mid) := Sweep(w, ids[..|ids| - 1], at);
      var (r, end) := Settled(w, ids[|ids| - 1], mid);
      (done + [r], end)
  }

  /** The gateway as the script sees it. */
  class Gateway {
    const world: Timeline
    var at: Position

    constructor (w: Timeline)
      ensures world == w && at == Position(0, 0)
    {
      world, at := w, Position(0, 0);
    }

    method ProbeModel(id: string) returns (r: ProbeResult)
      modifies this`at
      ensures r == Asked(world, id, old(at).completions)
      ensures at == old(at).(completions := old(at).completions + 1)
    {
      var o := world.answer(at.completions);
      at := at.(completions := at.completions + 1);
      r := ProbeResult(id, if o.Answered? then Some(o.status) else None, ClassifyProbe(o));
    }

    /** Poll the health endpoint until it answers or the attempts are spent. */
    method WaitForGateway(attempts: nat) returns (back: bool)
      modifies this`at
      ensures back <==> ComesBack(world, old(at).polls, attempts)
      ensures at == old(at).(polls := old(at).polls + PollsUsed(world, old(at).polls, attempts))
    {
      ghost var p := at.polls;
      var i := 0;
      while i < attempts
        invariant i <= attempts && at == old(at).(polls := p + i)
        invariant forall k: nat | p <= k < p + i :: !world.healthy(k)
        invariant PollsUsed(world, p, attempts) == i + PollsUsed(world, p + i, attempts - i)
      {
        var ok := world.healthy(at.polls);
        at := at.(polls := at.polls + 1);
        if ok {
          return true;
        }
        i := i + 1;
      }
      back := false;
    }

    /** Probe the ids one after another; ride out one restart per id. */
    method ProbeAll(ids: seq<string>) returns (out: seq<ProbeResult>)
      modifies this`at
      ensures (out, at) == Sweep(world, ids, old(at))
    {
      out := [];
      var i := 0;
      assert ids[..0] == [];
      while i < |ids|
        invariant i <= |ids| && (out, at) == Sweep(world, ids[..i], old(at))
      {
        assert ids[..i + 1][..i] == ids[..i];
        var r := ProbeModel(ids[i]);
        if r.verdict.unreachable {
          var back := WaitForGateway(ATTEMPTS);
          if back {
            r := ProbeModel(ids[i]);
          }
        }
        out := out + [r];
        i := i + 1;
      }
      assert ids[..i] == ids;
    }

    /** Ask every chat role and collect those answered by another model. */
    method CheckRoleFidelity(roles: seq<Role>, backends: map<string, Backend>) returns (mismatches: seq<Role>)
      modifies this`at
      ensures mismatches == Mismatches(world, Chat(roles, backends), backends, old(at).completions)
      ensures at == old(at).(completions := old(at).completions + |Chat(roles, backends)|)
    {
      mismatches := [];
      ghost var n := at.completions;
      assert roles[..0] == [];
      for i := 0 to |roles|
        invariant mismatches == Mismatches(world, Chat(roles[..i], backends), backends, n)
        invariant at == old(at).(completions := n + |Chat(roles[..i], backends)|)
      {
        ChatOneMore(roles, backends, i);
        if IsChat(roles[i], backends) {
          var o := world.answer(at.completions);
          at := at.(completions := at.completions + 1);
          MismatchesOneMore(world, Chat(roles[..i], backends), roles[i], backends, n);
          if Unfaithful(o, Expected(roles[i], backends)) {
            mismatches := mismatches + [roles[i]];
          }
        }
      }
      assert roles[..|roles|] == roles;
    }
  }

  // ----- role fidelity -----

  /** A role and the backend it resolves to. */
  datatype Role = Role(name: string, target: string)

  /** `kind` is "" when the registry gives none. */
  datatype Backend = Backend(kind: string, model: Option<string>)

  /** Marker roles and backends that do not chat are not asked. */
  predicate IsChat(r: Role, backends: map<string, Backend>) {
    r.target in backends && (backends[r.target].kind == "" || backends[r.target].kind == "chat")
  }

  function Expected(r: Role, backends: map<string, Backend>): Option<string> {
    if r.target in backends then backends[r.target].model else None
  }

  /** Answered well, by a model that is not the expected one. A failing role is not unfaithful. */
  predicate Unfaithful(o: Outcome, expected: Option<string>) {
    o.Answered? && Success(o.status) && !(o.served.Some? && o.served == expected)
  }

  function Chat(roles: seq<Role>, backends: map<string, Backend>): (asked: seq<Role>)
    ensures forall r | r in asked :: IsChat(r, backends)
  {
    if roles == [] then []
    else
      var n := |roles| - 1;
      Chat(roles[..n], backends) + if IsChat(roles[n], backends) then [roles[n]] else []
  }

  /** The roles answered unfaithfully when the first of them is asked as completion `n`. */
  function Mismatches(w: Timeline, asked: seq<Role>, backends: map<string, Backend>, n: nat): seq<Role>
  {
    if asked == [] then []
    else
      var k := |asked| - 1;
      var front := Mismatches(w, asked[..k], backends, n);
      if Unfaithful(w.answer(n + k), Expected(asked[k], backends)) then front + [asked[k]] else front
  }

  lemma ChatOneMore(roles: seq<Role>, backends: map<string, Backend>, i: nat)
    requires i < |roles|
    ensures Chat(roles[..i + 1], backends) ==
      if IsChat(roles[i], backends) then Chat(roles[..i], backends) + [roles[i]] else Chat(roles[..i], backends)
  {
    assert roles[..i + 1][..i] == roles[..i];
  }

  lemma MismatchesOneMore(w: Timeline, asked: seq<Role>, r: Role, backends: map<string, Backend>, n: nat)
    ensures var front := Mismatches(w, asked, backends, n);
      Mismatches(w, asked + [r], backends, n) ==
        if Unfaithful(w.answer(n + |asked|), Expected(r, backends)) then front + [r] else front
  {
    var all := asked + [r];
    assert all[..|asked|] == asked && all[|asked|] == r && |all| - 1 == |asked|;
  }

  /** Some role is answered by a model it does not resolve to. */
  predicate Substituted(w: Timeline, asked: seq<Role>, backends: map<string, Backend>, n: nat)
  {
    exists k | 0 <= k < |asked| :: Unfaithful(w.answer(n + k), Expected(asked[k], backends))
  }

  /** The list of mismatches is empty exactly when every asked role was answered by its own model or failed. */
  lemma {:induction false} MismatchesIff(w: Timeline, asked: seq<Role>, backends: map<string, Backend>, n: nat)
    ensures Mismatches(w, asked, backends, n) != [] <==> Substituted(w, asked, backends, n)
  {
    if asked != [] {
      var k := |asked| - 1;
      MismatchesIff(w, asked[..k], backends, n);
      assert forall j | 0 <= j < k :: asked[..k][j] == asked[j];
    }
  }

  /** Where the sweep of the first `k` ids leaves off. */
  function Before(w: Timeline, ids: seq<string>, at: Position, k: nat): Position
    requires k <= |ids|
  {
    Sweep(w, ids[..k], at).1
  }

  /** One result per id, in order, each the settled outcome at its own turn. */
  lemma {:induction false} SweepAnswersEachId(w: Timeline, ids: seq<string>, at: Position)
    ensures |Sweep(w, ids, at).0| == |ids|
    ensures forall k | 0 <= k < |ids| ::
      Sweep(w, ids, at).0[k] == Settled(w, ids[k], Before(w, ids, at, k)).0 && Sweep(w, ids, at).0[k].id == ids[k]
  {
    if ids != [] {
      var n := |ids| - 1;
      var front, all := ids[..n], Sweep(w, ids, at).0;
      SweepAnswersEachId(w, front, at);
      forall k | 0 <= k < |ids| ensures all[k] == Settled(w, ids[k], Before(w, ids, at, k)).0 && all[k].id == ids[k] {
        if k < n {
          assert front[..k] == ids[..k] && all[k] == Sweep(w, front, at).0[k];
        }
      }
    }
  }

  /** Between n and 2n completions, and at most ten health polls for each id asked twice or given up. */
  lemma {:induction false} SweepCost(w: Timeline, ids: seq<string>, at: Position)
    ensures var end := Sweep(w, ids, at).1;
      && at.completions + |ids| <= end.completions <= at.completions + 2 * |ids|
      && at.polls <= end.polls <= at.polls + ATTEMPTS * |ids|
  {
    if ids != [] {
      SweepCost(w, ids[..|ids| - 1], at);
    }
  }

  /** An id stays unreachable exactly when its probe failed to connect and then either
    * no poll brought the gateway back or the second probe failed to connect too. */
  lemma UnreachableIff(w: Timeline, id: string, at: Position)
    ensures Settled(w, id, at).0.verdict.unreachable <==>
      && Asked(w, id, at.completions).verdict.unreachable
      && (ComesBack(w, at.polls, ATTEMPTS) ==> Asked(w, id, at.completions + 1).verdict.unreachable)
  {
  }

  /** A model is only declared dead on evidence about the model: never on a failed
    * connection that carried a message. */
  lemma DeadNeedsEvidence(w: Timeline, id: string, at: Position)
    requires Dead(Settled(w, id, at).0.verdict)
    ensures exists n: nat | at.completions <= n <= at.completions + 1 ::
      match w.answer(n)
      case Answered(s, _, _, _) => s != 429 && !Success(s)
      case Aborted => true
      case Failed(m) => m == ""
  {
    var second := Asked(w, id, at.completions).verdict.unreachable && ComesBack(w, at.polls, ATTEMPTS);
    var n := at.completions + if second then 1 else 0;
    assert Settled(w, id, at).0 == Asked(w, id, n);
  }

  // ----- accounting -----

  datatype Bucket = Total | Alive | Throttled | Reasoning | Lifeless | Unreached

  predicate Is(k: Bucket, c: Class) {
    match k
    case Total => true
    case Alive => c.alive
    case Throttled => c.alive && c.throttled
    case Reasoning => c.alive && c.reasoningOnly
    case Lifeless => Dead(c)
    case Unreached => !c.alive && c.unreachable
  }

  /** The results of one sort, in the order they came. */
  function Which(rs: seq<ProbeResult>, k: Bucket): (some: seq<ProbeResult>)
    ensures |some| <= |rs|
  {
    if rs == [] then []
    else Which(rs[..|rs| - 1], k) + Those(rs[|rs| - 1], k)
  }

  function Those(r: ProbeResult, k: Bucket): seq<ProbeResult> {
    if Is(k, r.verdict) then [r] else []
  }

  datatype Tally = Tally(total: nat, alive: nat, throttled: nat, reasoningOnly: nat, dead: nat, unreachable: nat,
                         reasoningOnlyOnes: seq<ProbeResult>, deadOnes: seq<ProbeResult>)

  const NOTHING := Tally(0, 0, 0, 0, 0, 0, [], [])

  function Count(t: Tally, k: Bucket): nat {
    match k
    case Total => t.total
    case Alive => t.alive
    case Throttled => t.throttled
    case Reasoning => t.reasoningOnly
    case Lifeless => t.dead
    case Unreached => t.unreachable
  }

  /** The tally counts each sort exactly and lists the dead and the reasoning-only ones in order. */
  predicate Accounts(t: Tally, rs: seq<ProbeResult>) {
    && (forall k :: Count(t, k) == |Which(rs, k)|)
    && t.reasoningOnlyOnes == Which(rs, Reasoning) && t.deadOnes == Which(rs, Lifeless)
  }

  const NO_PROVIDER := "unknown"

  function ProviderNamed(id: string, providerById: map<string, string>): string {
    if id in providerById && providerById[id] != "" then providerById[id] else NO_PROVIDER
  }

  /** The results one provider is answerable for. */
  function Of(rs: seq<ProbeResult>, providerById: map<string, string>, provider: string): (some: seq<ProbeResult>)
    ensures |some| <= |rs|
  {
    if rs == [] then []
    else
      var r := rs[|rs| - 1];
      var front := Of(rs[..|rs| - 1], providerById, provider);
      if ProviderNamed(r.id, providerById) == provider then front + [r] else front
  }

  datatype Summary = Summary(perProvider: map<string, Tally>, overall: Tally, unreachableOnes: seq<ProbeResult>)

  /** One provider's entry: there exactly when it has results, and accounting for them. */
  predicate ShareOk(perProvider: map<string, Tally>, rs: seq<ProbeResult>, providerById: map<string, string>,
                    q: string) {
    var share := Of(rs, providerById, q);
    if q in perProvider then share != [] && Accounts(perProvider[q], share) else share == []
  }

  ghost predicate AllShares(perProvider: map<string, Tally>, rs: seq<ProbeResult>, providerById: map<string, string>) {
    forall q :: ShareOk(perProvider, rs, providerById, q)
  }

  ghost predicate Summarizes(s: Summary, rs: seq<ProbeResult>, providerById: map<string, string>) {
    Accounts(s.overall, rs) && s.unreachableOnes == Which(rs, Unreached) && AllShares(s.perProvider, rs, providerById)
  }

  /** Appending a result appends it to the sorts it belongs to. */
  lemma WhichSnoc(rs: seq<ProbeResult>, r: ProbeResult, k: Bucket)
    ensures Which(rs + [r], k) == Which(rs, k) + Those(r, k)
  {
    assert (rs + [r])[..|rs|] == rs;
  }

  lemma OfSnoc(rs: seq<ProbeResult>, r: ProbeResult, providerById: map<string, string>, q: string)
    ensures Of(rs + [r], providerById, q) ==
      if ProviderNamed(r.id, providerById) == q then Of(rs, providerById, q) + [r] else Of(rs, providerById, q)
  {
    assert (rs + [r])[..|rs|] == rs;
  }

  /** Count one result. */
  method Book(t: Tally, r: ProbeResult, ghost rs: seq<ProbeResult>) returns (u: Tally)
    requires Accounts(t, rs)
    ensures Accounts(u, rs + [r])
  {
    u := t.(total := t.total + 1);
    var c := r.verdict;
    if c.alive {
      u := u.(alive := u.alive + 1);
      if c.throttled {
        u := u.(throttled := u.throttled + 1);
      }
      if c.reasoningOnly {
        u := u.(reasoningOnly := u.reasoningOnly + 1, reasoningOnlyOnes := u.reasoningOnlyOnes + [r]);
      }
    } else if c.unreachable {
      u := u.(unreachable := u.unreachable + 1);
    } else {
      u := u.(dead := u.dead + 1, deadOnes := u.deadOnes + [r]);
    }
    BookedOneMore(t, u, rs, r);
  }

  /** What `Count` must have gained. */
  lemma BookedOneMore(t: Tally, u: Tally, rs: seq<ProbeResult>, r: ProbeResult)
    requires Accounts(t, rs)
    requires forall k :: Count(u, k) == Count(t, k) + |Those(r, k)|
    requires u.reasoningOnlyOnes == t.reasoningOnlyOnes + Those(r, Reasoning) &&
      u.deadOnes == t.deadOnes + Those(r, Lifeless)
    ensures Accounts(u, rs + [r])
  {
    forall k: Bucket ensures Which(rs + [r], k) == Which(rs, k) + Those(r, k) {
      WhichSnoc(rs, r, k);
    }
  }

  lemma ShareOneMore(per: map<string, Tally>, rs: seq<ProbeResult>, providerById: map<string, string>, r: ProbeResult,
                     t: Tally, q: string)
    requires ShareOk(per, rs, providerById, q)
    requires ProviderNamed(r.id, providerById) == q ==> Accounts(t, Of(rs, providerById, q) + [r])
    ensures ShareOk(per[ProviderNamed(r.id, providerById) := t], rs + [r], providerById, q)
  {
    OfSnoc(rs, r, providerById, q);
  }

  lemma SharesOneMore(per: map<string, Tally>, rs: seq<ProbeResult>, providerById: map<string, string>,
                      r: ProbeResult, t: Tally)
    requires AllShares(per, rs, providerById)
    requires Accounts(t, Of(rs, providerById, ProviderNamed(r.id, providerById)) + [r])
    ensures AllShares(per[ProviderNamed(r.id, providerById) := t], rs + [r], providerById)
  {
    var after, all := per[ProviderNamed(r.id, providerById) := t], rs + [r];
    forall q ensures ShareOk(after, all, providerById, q) {
      ShareOneMore(per, rs, providerById, r, t, q);
    }
  }

  lemma SummaryOneMore(s: Summary, r: ProbeResult, providerById: map<string, string>, rs: seq<ProbeResult>,
                       share: Tally, overall: Tally)
    requires Summarizes(s, rs, providerById)
    requires Accounts(share, Of(rs, providerById, ProviderNamed(r.id, providerById)) + [r]) &&
      Accounts(overall, rs + [r])
    ensures Summarizes(Summary(s.perProvider[ProviderNamed(r.id, providerById) := share], overall,
      s.unreachableOnes + Those(r, Unreached)),
                       rs + [r], providerById)
  {
    SharesOneMore(s.perProvider, rs, providerById, r, share);
    WhichSnoc(rs, r, Unreached);
  }

  lemma ShareSoFar(s: Summary, rs: seq<ProbeResult>, providerById: map<string, string>, q: string)
    requires Summarizes(s, rs, providerById)
    ensures Accounts(if q in s.perProvider then s.perProvider[q] else NOTHING, Of(rs, providerById, q))
  {
    assert ShareOk(s.perProvider, rs, providerById, q);
  }

  /** One result is booked overall and under its provider. */
  method BookResult(s: Summary, r: ProbeResult, providerById: map<string, string>, ghost rs: seq<ProbeResult>)
      returns (t: Summary)
    requires Summarizes(s, rs, providerById)
    ensures Summarizes(t, rs + [r], providerById)
  {
    var provider := ProviderNamed(r.id, providerById);
    ShareSoFar(s, rs, providerById, provider);
    var mine := if provider in s.perProvider then s.perProvider[provider] else NOTHING;
    var share := Book(mine, r, Of(rs, providerById, provider));
    var overall := Book(s.overall, r, rs);
    SummaryOneMore(s, r, providerById, rs, share, overall);
    var late := if !r.verdict.alive && r.verdict.unreachable then [r] else [];
    t := Summary(s.perProvider[provider := share], overall, s.unreachableOnes + late);
  }

  /** Every result is booked once. */
  method SummarizeLiveness(results: seq<ProbeResult>, providerById: map<string, string>) returns (s: Summary)
    ensures Summarizes(s, results, providerById)
  {
    s := Summary(map[], NOTHING, []);
    var i := 0;
    while i < |results|
      invariant i <= |results| && Summarizes(s, results[..i], providerById)
    {
      assert results[..i] + [results[i]] == results[..i + 1];
      s := BookResult(s, results[i], providerById, results[..i]);
      i := i + 1;
    }
    assert results[..i] == results;
  }

  /** Nothing is lost: alive, dead and unreachable make up the whole. */
  lemma {:induction false} Conserved(rs: seq<ProbeResult>)
    ensures |Which(rs, Total)| == |rs|
    ensures |Which(rs, Alive)| + |Which(rs, Lifeless)| + |Which(rs, Unreached)| == |rs|
  {
    if rs != [] {
      Conserved(rs[..|rs| - 1]);
    }
  }

  /** Each tally adds up, whoever it is for. */
  lemma TallyAddsUp(t: Tally, rs: seq<ProbeResult>)
    requires Accounts(t, rs)
    ensures t.total == |rs| && t.alive + t.dead + t.unreachable == t.total
    ensures |t.deadOnes| == t.dead && |t.reasoningOnlyOnes| == t.reasoningOnly
  {
    Conserved(rs);
    assert Count(t, Total) == |Which(rs, Total)| && Count(t, Alive) == |Which(rs, Alive)|;
    assert Count(t, Lifeless) == |Which(rs, Lifeless)| && Count(t, Unreached) == |Which(rs, Unreached)|;
    assert Count(t, Reasoning) == |Which(rs, Reasoning)|;
  }

  /** A classified probe is never both throttled and reasoning-only, so the two fit within the living. */
  lemma {:induction false} DisjointWithinAlive(rs: seq<ProbeResult>)
    requires forall r | r in rs :: exists o :: r.verdict == ClassifyProbe(o)
    ensures |Which(rs, Throttled)| + |Which(rs, Reasoning)| <= |Which(rs, Alive)|
  {
    if rs != [] {
      assert rs[|rs| - 1] in rs;
      DisjointWithinAlive(rs[..|rs| - 1]);
    }
  }

  function ShareCount(rs: seq<ProbeResult>, providerById: map<string, string>, q: string, k: Bucket): nat {
    |Which(Of(rs, providerById, q), k)|
  }

  function PerProvider(rs: seq<ProbeResult>, providerById: map<string, string>, keys: set<string>,
                       k: Bucket): map<string, nat> {
    map q | q in keys :: ShareCount(rs, providerById, q, k)
  }

  lemma ShareCountSnoc(rs: seq<ProbeResult>, r: ProbeResult, providerById: map<string, string>, q: string, k: Bucket)
    ensures ShareCount(rs + [r], providerById, q, k) ==
      ShareCount(rs, providerById, q, k) + if ProviderNamed(r.id, providerById) == q then |Those(r, k)| else 0
  {
    OfSnoc(rs, r, providerById, q);
    WhichSnoc(Of(rs, providerById, q), r, k);
  }

  lemma SharesSumSnoc(rs: seq<ProbeResult>, r: ProbeResult, providerById: map<string, string>, keys: set<string>,
                      k: Bucket)
    requires ProviderNamed(r.id, providerById) in keys
    requires Sum(PerProvider(rs, providerById, keys, k)) == |Which(rs, k)|
    ensures Sum(PerProvider(rs + [r], providerById, keys, k)) == |Which(rs + [r], k)|
  {
    var q := ProviderNamed(r.id, providerById);
    var was, now := PerProvider(rs, providerById, keys, k), PerProvider(rs + [r], providerById, keys, k);
    var d := |Those(r, k)|;
    forall p | p in keys ensures now[p] == if p == q then was[p] + d else was[p] {
      ShareCountSnoc(rs, r, providerById, p, k);
    }
    SumBump(was, now, q, d);
    WhichSnoc(rs, r, k);
  }

  /** Splitting results among providers and counting each share gives back the whole, for every sort. */
  lemma {:induction false} SharesSum(rs: seq<ProbeResult>, providerById: map<string, string>, keys: set<string>,
                                     k: Bucket)
    requires forall r | r in rs :: ProviderNamed(r.id, providerById) in keys
    ensures Sum(PerProvider(rs, providerById, keys, k)) == |Which(rs, k)|
  {
    if rs == [] {
      AllZero(PerProvider(rs, providerById, keys, k));
    } else {
      var front, r := rs[..|rs| - 1], rs[|rs| - 1];
      assert rs == front + [r] && r in rs;
      SharesSum(front, providerById, keys, k);
      SharesSumSnoc(front, r, providerById, keys, k);
    }
  }

  lemma CountsAgree(s: Summary, rs: seq<ProbeResult>, providerById: map<string, string>, k: Bucket)
    requires Summarizes(s, rs, providerById)
    ensures (map q | q in s.perProvider :: Count(s.perProvider[q], k)) ==
      PerProvider(rs, providerById, s.perProvider.Keys, k)
  {
    forall q | q in s.perProvider ensures Count(s.perProvider[q], k) == ShareCount(rs, providerById, q, k) {
      assert ShareOk(s.perProvider, rs, providerById, q);
    }
  }

  /** The per-provider counts of a summary sum to its totals. */
  lemma ProvidersSumToTotals(s: Summary, rs: seq<ProbeResult>, providerById: map<string, string>, k: Bucket)
    requires Summarizes(s, rs, providerById)
    ensures Sum(map q | q in s.perProvider :: Count(s.perProvider[q], k)) == Count(s.overall, k)
  {
    forall r | r in rs ensures ProviderNamed(r.id, providerById) in s.perProvider {
      Answerable(rs, providerById, r);
      assert ShareOk(s.perProvider, rs, providerById, ProviderNamed(r.id, providerById));
    }
    SharesSum(rs, providerById, s.perProvider.Keys, k);
    CountsAgree(s, rs, providerById, k);
  }

  lemma {:induction false} Answerable(rs: seq<ProbeResult>, providerById: map<string, string>, r: ProbeResult)
    requires r in rs
    ensures Of(rs, providerById, ProviderNamed(r.id, providerById)) != []
  {
    if r != rs[|rs| - 1] {
      Answerable(rs[..|rs| - 1], providerById, r);
    }
  }

  // ----- representation -----

  /** A provider's row of the gateway's own status; `count` only when it is a number. */
  datatype Status = Status(ok: bool, count: Option<real>)

  type Catalogue = map<string, set<string>>

  datatype Model = Model(id: string, provider: string, ownedBy: string)

  function Owner(m: Model): string {
    if m.provider != "" then m.provider else m.ownedBy
  }

  function OwnerOrUnknown(m: Model): string {
    if Owner(m) != "" then Owner(m) else NO_PROVIDER
  }

  function Size(c: Catalogue, provider: string): nat {
    if provider in c then |c[provider]| else 0
  }

  predicate Offers(models: seq<Model>, provider: string) {
    exists m | m in models :: OwnerOrUnknown(m) == provider
  }

  ghost predicate Listed(models: seq<Model>, provider: string, id: string) {
    exists m :: m in models && OwnerOrUnknown(m) == provider && m.id == id
  }

  /** Each owner's ids, under exactly the owners that list something. */
  ghost predicate Groups(c: Catalogue, models: seq<Model>) {
    && (forall p :: p in c <==> Offers(models, p))
    && (forall p | p in c :: c[p] != {} && forall id :: id in c[p] <==> Listed(models, p, id))
  }

  lemma GroupsNext(c: Catalogue, models: seq<Model>, i: nat, ids: set<string>)
    requires i < |models| && Groups(c, models[..i])
    requires var p := OwnerOrUnknown(models[i]); ids == if p in c then c[p] + {models[i].id} else {models[i].id}
    ensures Groups(c[OwnerOrUnknown(models[i]) := ids], models[..i + 1])
  {
    assert models[..i + 1] == models[..i] + [models[i]];
    GroupsOneMore(c, models[..i], models[i], ids);
  }

  lemma GroupsOneMore(c: Catalogue, models: seq<Model>, m: Model, ids: set<string>)
    requires Groups(c, models)
    requires var p := OwnerOrUnknown(m); ids == if p in c then c[p] + {m.id} else {m.id}
    ensures Groups(c[OwnerOrUnknown(m) := ids], models + [m])
  {
    var after, p := models + [m], OwnerOrUnknown(m);
    assert m in after;
    forall q ensures Offers(after, q) <==> Offers(models, q) || q == p {
    }
    forall q, id ensures Listed(after, q, id) <==> Listed(models, q, id) || (q == p && id == m.id) {
    }
    assert p !in c ==> forall id :: !Listed(models, p, id);
  }

  /** What each listed provider has in a catalogue. */
  method GroupIdsByProvider(models: seq<Model>) returns (c: Catalogue)
    ensures Groups(c, models)
  {
    c := map[];
    var i := 0;
    while i < |models|
      invariant i <= |models| && Groups(c, models[..i])
    {
      var m := models[i];
      var p := OwnerOrUnknown(m);
      var ids := if p in c then c[p] + {m.id} else {m.id};
      GroupsNext(c, models, i, ids);
      c := c[p := ids];
      i := i + 1;
    }
    assert models[..i] == models;
  }

  datatype Gap = Gap(provider: string, says: real, collected: nat)

  function Says(s: Status): real {
    if s.count.Some? then s.count.value else 0.0
  }

  /** Healthy by its own account, known to have models, and advertising none. */
  predicate Missing(provider: string, s: Status, collected: Catalogue, advertised: Catalogue) {
    s.ok && Size(advertised, provider) == 0 && (Size(collected, provider) > 0 || Says(s) > 0.0)
  }

  method ComputeRepresentationGaps(statuses: map<string, Status>, collected: Catalogue, advertised: Catalogue)
      returns (gaps: seq<Gap>)
    ensures forall p :: (exists g | g in gaps :: g.provider == p) <==>
      p in statuses && Missing(p, statuses[p], collected, advertised)
    ensures forall g | g in gaps ::
      g.provider in statuses && g.says == Says(statuses[g.provider]) && g.collected == Size(collected, g.provider)
    ensures forall i, j | 0 <= i < j < |gaps| :: gaps[i].provider != gaps[j].provider
  {
    gaps := [];
    var rest := statuses.Keys;
    while rest != {}
      invariant rest <= statuses.Keys
      invariant forall p :: (exists g | g in gaps :: g.provider == p) <==>
        p in statuses && p !in rest && Missing(p, statuses[p], collected, advertised)
      invariant forall g | g in gaps ::
        g.provider in statuses && g.provider !in rest && g.says == Says(statuses[g.provider]) &&
          g.collected == Size(collected, g.provider)
      invariant forall i, j | 0 <= i < j < |gaps| :: gaps[i].provider != gaps[j].provider
      decreases |rest|
    {
      var name :| name in rest;
      rest := rest - {name};
      var s := statuses[name];
      if s.ok && Size(advertised, name) == 0 && (Size(collected, name) > 0 || Says(s) > 0.0) {
        gaps := gaps + [Gap(name, Says(s), Size(collected, name))];
      }
    }
  }
}
