/** The lifecycle-store repair: what one run does to every record, and what a second run finds. */
module Repair {
  import opened Json

  // ----- records and evidence -----

  /** A lifecycle record. A field the record does not carry is `None`; fields the
    * repair never looks at travel in `others`. */
  datatype Lifecycle = Lifecycle(
    state: Option<Value>,
    provider: Option<Value>,
    lastVerifiedAt: Option<Value>,
    permanentErrors: Option<Value>,
    absentCycles: Option<Value>,
    eolReason: Option<Value>,
    eolAt: Option<Value>,
    others: Fields)

  type Store = map<string, Lifecycle>

  datatype Provider = Nvidia | OpenRouter

  function Tag(p: Provider): Option<Value> {
    match p
    case Nvidia => Some(Str("nvidia"))
    case OpenRouter => Some(Str("openrouter"))
  }

  /** The two live catalogues, and the ids the configuration declares under each provider. */
  datatype Evidence = Evidence(nvidia: set<string>, openrouter: set<string>, declaredNvidia: set<string>,
                               declaredOpenrouter: set<string>)

  predicate Live(id: string, ev: Evidence) {
    id in ev.nvidia || id in ev.openrouter
  }

  const MIN_PLAUSIBLE_EPOCH_MS := 1_000_000_000_000

  const ACTIVE := Some(Str("active"))
  const EOL := Some(Str("eol"))
  const DEAD := Some(Str("dead"))
  const ZERO := Some(Num(0.0))
  const NULL := Some(Null)

  predicate IsSyntheticId(id: string) {
    || id == ""
    || ('/' !in id && |id| <= 2)
    || id == "qwen/a" || id == "qwen/b" || id == "g/c" || id == "g/c:free"
  }

  predicate IsNumber(v: Option<Value>) {
    v.Some? && (v.value.Num? || v.value.NotFinite?)
  }

  predicate TestClock(v: Option<Value>) {
    v.Some? && v.value.Num? && 0.0 < v.value.n < MIN_PLAUSIBLE_EPOCH_MS as real
  }

  predicate Hidden(lc: Lifecycle) {
    lc.state == EOL || lc.state == DEAD
  }

  /** Which discovery provider owns the id, if any. */
  function ProviderOf(id: string, lc: Lifecycle, ev: Evidence): Option<Provider> {
    if lc.provider == Tag(Nvidia) then Some(Nvidia)
    else if lc.provider == Tag(OpenRouter) then Some(OpenRouter)
    else if id in ev.openrouter || id in ev.declaredOpenrouter then Some(OpenRouter)
    else if id in ev.nvidia || id in ev.declaredNvidia then Some(Nvidia)
    else None
  }

  // ----- one record -----

  datatype Action = Dropped | Restored | Retired | Tagged | Untouched

  datatype Decision = Decision(action: Action, lc: Lifecycle)

  /** `{...lc, ...tagging}` for a record owned by `p`. */
  function Retag(lc: Lifecycle, p: Provider): Lifecycle {
    if Truthy(lc.provider) then lc else lc.(provider := Tag(p))
  }

  function TagAction(lc: Lifecycle): Action {
    if Truthy(lc.provider) then Untouched else Tagged
  }

  /** A record rebuilt because a test clock wrote it. */
  function Rebuilt(lc: Lifecycle, owner: Option<Provider>): Lifecycle {
    Lifecycle(ACTIVE, if owner.Some? then Tag(owner.value) else None,
      if IsNumber(lc.lastVerifiedAt) then lc.lastVerifiedAt else NULL, ZERO, ZERO, NULL, NULL, map[])
  }

  function Decide(id: string, lc: Lifecycle, ev: Evidence, now: int): Decision {
    var owner, live := ProviderOf(id, lc, ev), Live(id, ev);
    if IsSyntheticId(id) then Decision(Dropped, lc)
    else if TestClock(lc.eolAt) then
      if live || owner.None? then Decision(Restored, Rebuilt(lc, owner)) else Decision(Dropped, lc)
    else if owner.None? then Decision(Untouched, lc)
    else if Hidden(lc) then
      if live
      then Decision(Restored, Retag(lc, owner.value).(state := ACTIVE, permanentErrors := ZERO, absentCycles := ZERO,
        eolReason := NULL, eolAt := NULL))
      else Decision(TagAction(lc), Retag(lc, owner.value))
    else if live then Decision(TagAction(lc), Retag(lc, owner.value).(absentCycles := ZERO))
    else Decision(Retired,
      Retag(lc, owner.value).(state := EOL, eolReason := Some(Str("dropped_from_catalog")),
        eolAt := Some(Num(now as real))))
  }

  // ----- the whole store -----

  /** Ids on which a run takes the given action. */
  function Ids(store: Store, ev: Evidence, now: int, action: Action): set<string> {
    Among(store.Keys, store, ev, now, action)
  }

  function Among(ids: set<string>, store: Store, ev: Evidence, now: int, action: Action): set<string>
    requires ids <= store.Keys
  {
    set id | id in ids && Decide(id, store[id], ev, now).action == action
  }

  function Repaired(store: Store, ev: Evidence, now: int): Store {
    map id | id in store && Decide(id, store[id], ev, now).action != Dropped :: Decide(id, store[id], ev, now).lc
  }

  /** The lists printed at the end, ids only, and the count of the rest. */
  datatype Actions = Actions(dropped: seq<string>, restored: seq<string>, retired: seq<string>, tagged: seq<string>,
                             untouched: nat)

  predicate Lists(ids: seq<string>, expected: set<string>) {
    multiset(ids) == multiset(expected) && |ids| == |expected|
  }

  /** What is noted under one action is exactly the given ids. */
  predicate NotedUnder(a: Actions, action: Action, ids: set<string>) {
    match action
    case Dropped => Lists(a.dropped, ids)
    case Restored => Lists(a.restored, ids)
    case Retired => Lists(a.retired, ids)
    case Tagged => Lists(a.tagged, ids)
    case Untouched => a.untouched == |ids|
  }

  function Total(a: Actions): nat {
    |a.dropped| + |a.restored| + |a.retired| + |a.tagged| + a.untouched
  }

  /** The lists account for exactly the ids in `done`. */
  predicate AccountsFor(a: Actions, store: Store, ev: Evidence, now: int, done: set<string>)
    requires done <= store.Keys
  {
    && (forall action :: NotedUnder(a, action, Among(done, store, ev, now, action)))
    && Total(a) == |done|
  }

  function Noted(a: Actions, id: string, action: Action): Actions {
    match action
    case Dropped => a.(dropped := a.dropped + [id])
    case Restored => a.(restored := a.restored + [id])
    case Retired => a.(retired := a.retired + [id])
    case Tagged => a.(tagged := a.tagged + [id])
    case Untouched => a.(untouched := a.untouched + 1)
  }

  lemma NotedOne(a: Actions, action: Action, ids: set<string>, id: string)
    requires NotedUnder(a, action, ids) && id !in ids
    ensures NotedUnder(Noted(a, id, action), action, ids + {id})
  {
  }

  lemma NotedOther(a: Actions, action: Action, ids: set<string>, id: string, other: Action)
    requires NotedUnder(a, action, ids) && other != action
    ensures NotedUnder(Noted(a, id, other), action, ids)
  {
  }

  lemma AmongGrows(store: Store, ev: Evidence, now: int, done: set<string>, id: string, action: Action)
    requires done <= store.Keys && id in store && id !in done
    ensures var was := Among(done, store, ev, now, action);
      && id !in was
      && Among(done + {id}, store, ev, now, action) ==
        if Decide(id, store[id], ev, now).action == action then was + {id} else was
  {
  }

  lemma NotedAccounts(a: Actions, store: Store, ev: Evidence, now: int, done: set<string>, id: string)
    requires done <= store.Keys && AccountsFor(a, store, ev, now, done) && id in store && id !in done
    ensures AccountsFor(Noted(a, id, Decide(id, store[id], ev, now).action), store, ev, now, done + {id})
  {
    var action := Decide(id, store[id], ev, now).action;
    forall act: Action ensures NotedUnder(Noted(a, id, action), act, Among(done + {id}, store, ev, now, act)) {
      AmongGrows(store, ev, now, done, id, act);
      if act == action {
        NotedOne(a, act, Among(done, store, ev, now, act), id);
      } else {
        NotedOther(a, act, Among(done, store, ev, now, act), id, action);
      }
    }
  }

  function Put(next: Store, id: string, d: Decision): Store {
    if d.action == Dropped then next else next[id := d.lc]
  }

  /** One turn of the repair loop. */
  method RepairRecord(id: string, lc: Lifecycle, ev: Evidence, now: int, store: Store, notes: Actions)
      returns (next: Store, actions: Actions)
    ensures next == Put(store, id, Decide(id, lc, ev, now))
    ensures actions == Noted(notes, id, Decide(id, lc, ev, now).action)
  {
    next, actions := store, notes;
    if IsSyntheticId(id) {
      actions := actions.(dropped := actions.dropped + [id]);
      return;
    }
    var owner, live := ProviderOf(id, lc, ev), Live(id, ev);
    if TestClock(lc.eolAt) {
      if live || owner.None? {
        next := next[id := Rebuilt(lc, owner)];
        actions := actions.(restored := actions.restored + [id]);
      } else {
        actions := actions.(dropped := actions.dropped + [id]);
      }
      return;
    }
    if owner.None? {
      next := next[id := lc];
      actions := actions.(untouched := actions.untouched + 1);
      return;
    }
    if Hidden(lc) && live {
      var back := lc.(state := ACTIVE, permanentErrors := ZERO, absentCycles := ZERO, eolReason := NULL, eolAt := NULL);
      next := next[id := Retag(back, owner.value)];
      actions := actions.(restored := actions.restored + [id]);
    } else if Hidden(lc) || live {
      next := next[id := Retag(if live then lc.(absentCycles := ZERO) else lc, owner.value)];
      if Truthy(lc.provider) {
        actions := actions.(untouched := actions.untouched + 1);
      } else {
        actions := actions.(tagged := actions.tagged + [id]);
      }
    } else {
      var gone := lc.(state := EOL, eolReason := Some(Str("dropped_from_catalog")), eolAt := Some(Num(now as real)));
      next := next[id := Retag(gone, owner.value)];
      actions := actions.(retired := actions.retired + [id]);
    }
  }

  function RepairedSoFar(store: Store, ev: Evidence, now: int, done: set<string>): Store
    requires done <= store.Keys
  {
    map id | id in done && Decide(id, store[id], ev, now).action != Dropped :: Decide(id, store[id], ev, now).lc
  }

  lemma RepairedOneMore(store: Store, ev: Evidence, now: int, done: set<string>, id: string)
    requires done <= store.Keys && id in store && id !in done
    ensures RepairedSoFar(store, ev, now, done + {id}) ==
      Put(RepairedSoFar(store, ev, now, done), id, Decide(id, store[id], ev, now))
    ensures id !in RepairedSoFar(store, ev, now, done)
  {
  }

  /** Loop state with `rest` still to come: what was written, what was noted, and how many were kept. */
  predicate Progress(store: Store, ev: Evidence, now: int, rest: set<string>, next: Store, actions: Actions) {
    && rest <= store.Keys
    && next == RepairedSoFar(store, ev, now, store.Keys - rest)
    && AccountsFor(actions, store, ev, now, store.Keys - rest)
    && |next| == |store.Keys - rest| - |actions.dropped|
  }

  lemma Turn(store: Store, ev: Evidence, now: int, rest: set<string>, next: Store, actions: Actions, id: string)
    requires Progress(store, ev, now, rest, next, actions) && id in rest
    ensures var d := Decide(id, store[id], ev, now);
      Progress(store, ev, now, rest - {id}, Put(next, id, d), Noted(actions, id, d.action))
    ensures |rest - {id}| < |rest|
  {
    var done := store.Keys - rest;
    var d := Decide(id, store[id], ev, now);
    NotedAccounts(actions, store, ev, now, done, id);
    RepairedOneMore(store, ev, now, done, id);
    PutSize(next, id, d);
    assert store.Keys - (rest - {id}) == done + {id};
  }

  lemma PutSize(next: Store, id: string, d: Decision)
    requires id !in next
    ensures |Put(next, id, d)| == |next| + (if d.action == Dropped then 0 else 1)
  {
  }

  lemma ProgressEnds(store: Store, ev: Evidence, now: int)
    ensures Progress(store, ev, now, store.Keys, map[], Actions([], [], [], [], 0))
    ensures forall next, actions | Progress(store, ev, now, {}, next, actions) ::
      next == Repaired(store, ev, now) && AccountsFor(actions, store, ev, now, store.Keys)
      && Total(actions) == |store| && |next| == |store| - |actions.dropped|
  {
    assert store.Keys - {} == store.Keys && store.Keys - store.Keys == {};
  }

  /** The repair loop, in whatever order the store lists its records. */
  method RepairStore(store: Store, ev: Evidence, now: int) returns (next: Store, actions: Actions)
    ensures next == Repaired(store, ev, now)
    ensures AccountsFor(actions, store, ev, now, store.Keys)
    ensures Total(actions) == |store|
    ensures |next| == |store| - |actions.dropped|
    ensures multiset(actions.dropped) == multiset(store.Keys - next.Keys)
  {
    DroppedIsTheRest(store, ev, now);
    next, actions := map[], Actions([], [], [], [], 0);
    var rest := store.Keys;
    ProgressEnds(store, ev, now);
    while rest != {}
      invariant Progress(store, ev, now, rest, next, actions)
      decreases |rest|
    {
      var id :| id in rest;
      Turn(store, ev, now, rest, next, actions, id);
      next, actions := RepairRecord(id, store[id], ev, now, next, actions);
      rest := rest - {id};
    }
  }

  // ----- what a run guarantees -----

  /** A run never moves a record to another provider. */
  lemma OwnerIsKept(id: string, lc: Lifecycle, ev: Evidence, now: int)
    requires Decide(id, lc, ev, now).action != Dropped
    ensures ProviderOf(id, Decide(id, lc, ev, now).lc, ev) == ProviderOf(id, lc, ev)
  {
  }

  /** After a run a discovery-managed record is hidden exactly when no live catalogue has it. */
  lemma InversionIsGone(store: Store, ev: Evidence, now: int, id: string)
    requires id in Repaired(store, ev, now)
    requires ProviderOf(id, Repaired(store, ev, now)[id], ev).Some?
    ensures Hidden(Repaired(store, ev, now)[id]) <==> !Live(id, ev)
  {
    OwnerIsKept(id, store[id], ev, now);
  }

  /** Records no discovery provider owns survive as they were, unless a test wrote them. */
  lemma LocalRecordsAreLeftAlone(store: Store, ev: Evidence, now: int, id: string)
    requires id in store && ProviderOf(id, store[id], ev).None? && !IsSyntheticId(id)
    ensures id in Repaired(store, ev, now)
    ensures Repaired(store, ev, now)[id] == store[id] <==> !TestClock(store[id].eolAt)
  {
  }

  /** A verification time is neither invented nor altered. */
  lemma VerificationTimesAreKept(store: Store, ev: Evidence, now: int, id: string)
    requires id in Repaired(store, ev, now)
    requires IsNumber(store[id].lastVerifiedAt) || IsNumber(Repaired(store, ev, now)[id].lastVerifiedAt)
    ensures Repaired(store, ev, now)[id].lastVerifiedAt == store[id].lastVerifiedAt
  {
  }

  /** Fields a decision may write; everything else travels along. A record a test wrote keeps
    * only its verification time and its owner. */
  lemma OtherFieldsTravel(id: string, lc: Lifecycle, ev: Evidence, now: int)
    ensures var d := Decide(id, lc, ev, now);
      match d.action
      case Dropped => true
      case Restored =>
        && d.lc.state == ACTIVE && d.lc.permanentErrors == ZERO && d.lc.absentCycles == ZERO &&
          d.lc.eolReason == NULL && d.lc.eolAt == NULL
        && d.lc.others == if TestClock(lc.eolAt) then map[] else lc.others
      case Retired =>
        && d.lc.(state := lc.state, eolReason := lc.eolReason, eolAt := lc.eolAt, provider := lc.provider) == lc
        && d.lc.eolAt == Some(Num(now as real)) && d.lc.state == EOL
      case Tagged => d.lc.(absentCycles := lc.absentCycles, provider := lc.provider) == lc && !Truthy(lc.provider)
      case Untouched => d.lc.(absentCycles := lc.absentCycles) == lc
  {
  }

  /** What survives is no fixture, and no test clock is left unless the run's own clock is one. */
  lemma PollutionIsGone(store: Store, ev: Evidence, now: int, id: string)
    requires id in Repaired(store, ev, now)
    ensures !IsSyntheticId(id)
    ensures TestClock(Repaired(store, ev, now)[id].eolAt) <==>
      0 < now < MIN_PLAUSIBLE_EPOCH_MS && Decide(id, store[id], ev, now).action == Retired
  {
  }

  // ----- running it again -----

  /** A surviving record is decided as it stands, unless its retirement carries a test clock. */
  lemma SecondLookIff(id: string, lc: Lifecycle, ev: Evidence, first: int, second: int)
    requires Decide(id, lc, ev, first).action != Dropped
    ensures var was := Decide(id, lc, ev, first);
      var again := Decide(id, was.lc, ev, second);
      if 0 < first < MIN_PLAUSIBLE_EPOCH_MS && was.action == Retired then again.action == Dropped
      else again == Decision(Untouched, was.lc)
  {
    OwnerIsKept(id, lc, ev, first);
  }

  /** A record the run is about to retire: real, owned, shown, and in no live catalogue. */
  predicate Stale(id: string, lc: Lifecycle, ev: Evidence) {
    !IsSyntheticId(id) && !TestClock(lc.eolAt) && ProviderOf(id, lc, ev).Some? && !Hidden(lc) && !Live(id, ev)
  }

  predicate SomeStale(store: Store, ev: Evidence) {
    exists id | id in store :: Stale(id, store[id], ev)
  }

  /** A second run changes nothing exactly when the first had a plausible clock or found no stale record;
    * the clock of the second is irrelevant. */
  lemma RunningAgainIff(store: Store, ev: Evidence, first: int, second: int)
    ensures var once := Repaired(store, ev, first);
      Repaired(once, ev, second) == once <==> !(0 < first < MIN_PLAUSIBLE_EPOCH_MS && SomeStale(store, ev))
  {
    var once := Repaired(store, ev, first);
    if 0 < first < MIN_PLAUSIBLE_EPOCH_MS && SomeStale(store, ev) {
      var id :| id in store && Stale(id, store[id], ev);
      SecondLookIff(id, store[id], ev, first, second);
      assert id in once && id !in Repaired(once, ev, second);
    } else {
      forall id | id in once ensures Decide(id, once[id], ev, second) == Decision(Untouched, once[id]) {
        assert Decide(id, store[id], ev, first).action == Retired ==> Stale(id, store[id], ev);
        SecondLookIff(id, store[id], ev, first, second);
      }
      assert Repaired(once, ev, second) == once;
    }
  }

  /** With a real clock a second run only reports untouched records. */
  lemma SecondRunReportsNothing(store: Store, ev: Evidence, first: int, second: int)
    requires first >= MIN_PLAUSIBLE_EPOCH_MS
    ensures var once := Repaired(store, ev, first);
      Repaired(once, ev, second) == once && Ids(once, ev, second, Untouched) == once.Keys
  {
    RunningAgainIff(store, ev, first, second);
    var once := Repaired(store, ev, first);
    forall id | id in once ensures Decide(id, once[id], ev, second).action == Untouched {
      SecondLookIff(id, store[id], ev, first, second);
    }
  }

  /** The store after a run at each of the given times, catalogues unchanged. */
  function Runs(store: Store, ev: Evidence, clocks: seq<int>): Store {
    if clocks == [] then store
    else Repaired(Runs(store, ev, clocks[..|clocks| - 1]), ev, clocks[|clocks| - 1])
  }

  /** However often the repair is run, with a real clock the first run decides. */
  lemma {:induction false} RunsConverge(store: Store, ev: Evidence, clocks: seq<int>)
    requires clocks != [] && clocks[0] >= MIN_PLAUSIBLE_EPOCH_MS
    ensures Runs(store, ev, clocks) == Repaired(store, ev, clocks[0])
  {
    var n := |clocks| - 1;
    if n == 0 {
      assert clocks[..0] == [];
    } else {
      RunsConverge(store, ev, clocks[..n]);
      RunningAgainIff(store, ev, clocks[0], clocks[n]);
    }
  }

  // ----- the probing pass -----

  /** A target is an active record of a provider that can be probed directly. */
  predicate IsTarget(lc: Lifecycle) {
    lc.state == ACTIVE && (lc.provider == Tag(Nvidia) || lc.provider == Tag(OpenRouter))
  }

  function Targets(next: Store): set<string> {
    set id | id in next && IsTarget(next[id])
  }

  /** Answer of the direct probe: status 0 is a timeout or network error. */
  datatype Answer = Answer(status: nat, at: int)

  datatype Judgement = Confirmed | Failed | Inconclusive

  function Judge(status: nat): Judgement {
    if 200 <= status < 300 then Confirmed else if status == 404 || status == 410 then Failed else Inconclusive
  }

  function Probed(lc: Lifecycle, a: Answer): Lifecycle {
    match Judge(a.status)
    case Confirmed => lc.(lastVerifiedAt := Some(Num(a.at as real)), permanentErrors := ZERO)
    case Failed => lc.(state := EOL, eolReason := Some(Str("probe_failed")), eolAt := Some(Num(a.at as real)))
    case Inconclusive => lc
  }

  function Judged(ids: set<string>, answers: map<string, Answer>, v: Judgement): set<string>
    requires ids <= answers.Keys
  {
    set id | id in ids && Judge(answers[id].status) == v
  }

  lemma OneMoreJudged(done: set<string>, answers: map<string, Answer>, id: string, v: Judgement)
    requires done <= answers.Keys && id in answers && id !in done
    ensures |Judged(done + {id}, answers, v)| ==
      |Judged(done, answers, v)| + (if Judge(answers[id].status) == v then 1 else 0)
  {
    if Judge(answers[id].status) == v {
      assert Judged(done + {id}, answers, v) == Judged(done, answers, v) + {id};
    } else {
      assert Judged(done + {id}, answers, v) == Judged(done, answers, v);
    }
  }

  /** The record one answer leaves behind. */
  method ProbeRecord(lc: Lifecycle, a: Answer) returns (r: Lifecycle, v: Judgement)
    ensures r == Probed(lc, a) && v == Judge(a.status)
  {
    if 200 <= a.status < 300 {
      r, v := lc.(lastVerifiedAt := Some(Num(a.at as real)), permanentErrors := ZERO), Confirmed;
    } else if a.status == 404 || a.status == 410 {
      r, v := lc.(state := EOL, eolReason := Some(Str("probe_failed")), eolAt := Some(Num(a.at as real))), Failed;
    } else {
      r, v := lc, Inconclusive;
    }
  }

  datatype Tally = Tally(ok: nat, retired: nat, skipped: nat)

  function Counted(t: Tally, v: Judgement): Tally {
    match v
    case Confirmed => t.(ok := t.ok + 1)
    case Failed => t.(retired := t.retired + 1)
    case Inconclusive => t.(skipped := t.skipped + 1)
  }

  /** Targets not in `rest` carry their answer's outcome, everything else is as before. */
  predicate Written(next: Store, answers: map<string, Answer>, rest: set<string>, after: Store)
    requires Targets(next) <= answers.Keys
  {
    && after.Keys == next.Keys
    && forall id | id in next ::
      after[id] == if IsTarget(next[id]) && id !in rest then Probed(next[id], answers[id]) else next[id]
  }

  predicate Tallied(answers: map<string, Answer>, done: set<string>, t: Tally)
    requires done <= answers.Keys
  {
    && t.ok == |Judged(done, answers, Confirmed)| && t.retired == |Judged(done, answers, Failed)|
    && t.ok + t.retired + t.skipped == |done|
  }

  predicate ProbedBut(next: Store, answers: map<string, Answer>, rest: set<string>, after: Store, t: Tally)
    requires Targets(next) <= answers.Keys
  {
    rest <= Targets(next) && Written(next, answers, rest, after) && Tallied(answers, Targets(next) - rest, t)
  }

  lemma TallyTurn(answers: map<string, Answer>, done: set<string>, t: Tally, id: string)
    requires done <= answers.Keys && id in answers && id !in done && Tallied(answers, done, t)
    ensures Tallied(answers, done + {id}, Counted(t, Judge(answers[id].status)))
  {
    OneMoreJudged(done, answers, id, Failed);
    OneMoreJudged(done, answers, id, Confirmed);
  }

  lemma WrittenTurn(next: Store, answers: map<string, Answer>, rest: set<string>, after: Store, id: string)
    requires Targets(next) <= answers.Keys && id in rest && id in Targets(next) && Written(next, answers, rest, after)
    ensures Written(next, answers, rest - {id}, after[id := Probed(next[id], answers[id])])
    ensures id in after && after[id] == next[id]
  {
  }

  lemma ProbeTurn(next: Store, answers: map<string, Answer>, rest: set<string>, after: Store, t: Tally, id: string)
    requires Targets(next) <= answers.Keys && id in rest
    requires ProbedBut(next, answers, rest, after, t)
    ensures ProbedBut(next, answers, rest - {id}, after[id := Probed(next[id], answers[id])],
      Counted(t, Judge(answers[id].status)))
    ensures id in after && after[id] == next[id] && |rest - {id}| < |rest|
  {
    TallyTurn(answers, Targets(next) - rest, t, id);
    WrittenTurn(next, answers, rest, after, id);
    GiveBack(Targets(next), rest, id);
  }

  lemma GiveBack(all: set<string>, rest: set<string>, id: string)
    requires id in rest && rest <= all
    ensures all - (rest - {id}) == all - rest + {id} && |rest - {id}| < |rest|
  {
  }

  /** The pass touches the targets alone, each by its own answer, and counts each once. */
  method VerifyPass(next: Store, answers: map<string, Answer>) returns (after: Store, tally: Tally)
    requires Targets(next) <= answers.Keys
    ensures after.Keys == next.Keys
    ensures forall id | id in next ::
      after[id] == if IsTarget(next[id]) then Probed(next[id], answers[id]) else next[id]
    ensures tally.ok + tally.retired + tally.skipped == |Targets(next)|
    ensures tally.ok == |Judged(Targets(next), answers, Confirmed)| &&
      tally.retired == |Judged(Targets(next), answers, Failed)|
  {
    after, tally := next, Tally(0, 0, 0);
    var rest := Targets(next);
    assert ProbedBut(next, answers, rest, after, tally) by {
      assert Targets(next) - rest == {};
    }
    while rest != {}
      invariant ProbedBut(next, answers, rest, after, tally)
      decreases |rest|
    {
      var id :| id in rest;
      ProbeTurn(next, answers, rest, after, tally, id);
      var record, verdict := ProbeRecord(after[id], answers[id]);
      after := after[id := record];
      tally := Counted(tally, verdict);
      rest := rest - {id};
    }
    assert Targets(next) - rest == Targets(next);
  }

  /** Whatever a probe found, the next plain run shows a probed model exactly when a catalogue lists it:
    * a retirement is undone, and a confirmation does not help. */
  lemma PlainRunOverrulesProbes(store: Store, id: string, lc: Lifecycle, a: Answer, ev: Evidence, now: int)
    requires id in store && store[id] == Probed(lc, a) && IsTarget(lc) && !IsSyntheticId(id)
    ensures id in Repaired(store, ev, now) && Repaired(store, ev, now)[id].state == ACTIVE <==> Live(id, ev)
    ensures Live(id, ev) && Judge(a.status) == Failed ==> Decide(id, store[id], ev, now).action == Restored
  {
  }

  /** A probed model ends up hidden exactly on a 404 or 410, so never for being throttled. */
  lemma HiddenByTheProbeIff(next: Store, answers: map<string, Answer>, after: Store, id: string)
    requires Targets(next) <= answers.Keys && after.Keys == next.Keys && id in next
    requires forall x | x in next :: after[x] == if IsTarget(next[x]) then Probed(next[x], answers[x]) else next[x]
    ensures Hidden(after[id]) <==>
      Hidden(next[id]) || (id in Targets(next) && (answers[id].status == 404 || answers[id].status == 410))
    ensures id in Targets(next) && answers[id].status == 429 ==> after[id] == next[id]
  {
  }

  // ----- the same, said of the records and the catalogues alone -----

  predicate Fixture(id: string) {
    || |id| == 0 || (|id| <= 2 && forall i | 0 <= i < |id| :: id[i] != '/')
    || id in ["qwen/a", "qwen/b", "g/c", "g/c:free"]
  }

  predicate Stamped(lc: Lifecycle) {
    lc.eolAt.Some? && lc.eolAt.value.Num? && 0.0 < lc.eolAt.value.n < 1000000000000.0
  }

  predicate Catalogued(id: string, ev: Evidence) {
    id in ev.nvidia + ev.openrouter
  }

  predicate Marked(lc: Lifecycle) {
    lc.state == Some(Str("eol")) || lc.state == Some(Str("dead"))
  }

  predicate Untagged(lc: Lifecycle) {
    lc.provider in [None, Some(Null), Some(Bool(false)), Some(Num(0.0)), Some(Str(""))]
  }

  /** The provider in charge, by tag, else by catalogue or declaration, openrouter first; "" for none. */
  function Charge(id: string, lc: Lifecycle, ev: Evidence): string {
    if lc.provider == Some(Str("nvidia")) then "nvidia"
    else if lc.provider == Some(Str("openrouter")) then "openrouter"
    else if id in ev.openrouter + ev.declaredOpenrouter then "openrouter"
    else if id in ev.nvidia + ev.declaredNvidia then "nvidia"
    else ""
  }

  lemma SameTerms(id: string, lc: Lifecycle, ev: Evidence)
    ensures Fixture(id) <==> IsSyntheticId(id)
    ensures Stamped(lc) <==> TestClock(lc.eolAt)
    ensures Catalogued(id, ev) <==> Live(id, ev)
    ensures Marked(lc) <==> Hidden(lc)
    ensures Charge(id, lc, ev) == "" <==> ProviderOf(id, lc, ev).None?
    ensures ProviderOf(id, lc, ev).Some? ==> Tag(ProviderOf(id, lc, ev).value) == Some(Str(Charge(id, lc, ev)))
  {
    UntaggedIff(lc);
    assert '/' !in id <==> forall i | 0 <= i < |id| :: id[i] != '/';
  }

  lemma UntaggedIff(lc: Lifecycle)
    ensures Untagged(lc) <==> !Truthy(lc.provider)
  {
  }

  /** Exactly which records survive. */
  lemma SurvivesIff(store: Store, ev: Evidence, now: int, id: string)
    requires id in store
    ensures id in Repaired(store, ev, now) <==>
      !Fixture(id) && (Stamped(store[id]) ==> Catalogued(id, ev) || Charge(id, store[id], ev) == "")
  {
    SameTerms(id, store[id], ev);
  }

  /** The record with the provider in charge filled in where no tag was. */
  function Filled(id: string, lc: Lifecycle, ev: Evidence): Lifecycle {
    if Untagged(lc) then lc.(provider := Some(Str(Charge(id, lc, ev)))) else lc
  }

  /** What becomes of a record no test wrote: local ones stay; a hidden one in no catalogue only gains its
    * missing tag; a hidden one in a catalogue is shown again; a shown one in a catalogue has its absences
    * forgotten; a shown one in none is hidden. */
  lemma SurvivorIs(store: Store, ev: Evidence, now: int, id: string)
    requires id in store && !Fixture(id) && !Stamped(store[id])
    ensures id in Repaired(store, ev, now)
    ensures var lc, filled := store[id], Filled(id, store[id], ev);
      Repaired(store, ev, now)[id] ==
        if Charge(id, lc, ev) == "" then lc
        else if Marked(lc) && !Catalogued(id, ev) then filled
        else if Marked(lc) then
          filled.(state := Some(Str("active")), permanentErrors := Some(Num(0.0)), absentCycles := Some(Num(0.0)),
                  eolReason := Some(Null), eolAt := Some(Null))
        else if Catalogued(id, ev) then filled.(absentCycles := Some(Num(0.0)))
        else
          filled.(state := Some(Str("eol")), eolReason := Some(Str("dropped_from_catalog")),
                  eolAt := Some(Num(now as real)))
  {
    SameTerms(id, store[id], ev);
    UntaggedIff(store[id]);
  }

  /** What becomes of a surviving record a test wrote. */
  lemma RebuiltIs(store: Store, ev: Evidence, now: int, id: string)
    requires id in store && Stamped(store[id]) && id in Repaired(store, ev, now)
    ensures var lc, owner := store[id], Charge(id, store[id], ev);
      var verified := lc.lastVerifiedAt;
      Repaired(store, ev, now)[id] ==
        Lifecycle(Some(Str("active")), if owner == "" then None else Some(Str(owner)),
          if verified.Some? && (verified.value.Num? || verified.value.NotFinite?) then verified else Some(Null),
          Some(Num(0.0)), Some(Num(0.0)), Some(Null), Some(Null), map[])
  {
    SameTerms(id, store[id], ev);
  }

  /** Which list a record's id is printed in. */
  function ListOf(id: string, lc: Lifecycle, ev: Evidence): Action {
    var owned, listed := Charge(id, lc, ev) != "", Catalogued(id, ev);
    if Fixture(id) || (Stamped(lc) && owned && !listed) then Dropped
    else if Stamped(lc) || (owned && Marked(lc) && listed) then Restored
    else if owned && !Marked(lc) && !listed then Retired
    else if owned && Untagged(lc) then Tagged
    else Untouched
  }

  lemma ListIs(store: Store, ev: Evidence, now: int, action: Action)
    ensures Ids(store, ev, now, action) == set id | id in store && ListOf(id, store[id], ev) == action
  {
    forall id | id in store ensures Decide(id, store[id], ev, now).action == ListOf(id, store[id], ev) {
      SameTerms(id, store[id], ev);
      UntaggedIff(store[id]);
    }
  }

  /** The dropped list holds exactly the ids that did not survive, each once. */
  lemma DroppedIsTheRest(store: Store, ev: Evidence, now: int)
    ensures Ids(store, ev, now, Dropped) == store.Keys - Repaired(store, ev, now).Keys
  {
  }

  /** What the probing pass does to a record, by the status of the answer. */
  lemma ProbedIs(lc: Lifecycle, a: Answer)
    ensures Probed(lc, a) ==
      if a.status / 100 == 2 then lc.(lastVerifiedAt := Some(Num(a.at as real)), permanentErrors := Some(Num(0.0)))
      else if a.status == 404 || a.status == 410 then
        lc.(state := Some(Str("eol")), eolReason := Some(Str("probe_failed")), eolAt := Some(Num(a.at as real)))
      else lc
    ensures IsTarget(lc) <==>
      lc.state == Some(Str("active")) && (lc.provider == Some(Str("nvidia")) || lc.provider == Some(Str("openrouter")))
    ensures Judge(a.status) == (if a.status / 100 == 2 then Confirmed
                                else if a.status == 404 || a.status == 410 then Failed else Inconclusive)
  {
  }
}
