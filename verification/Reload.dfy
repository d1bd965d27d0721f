/** The active configuration over whole runs of loads and reloads. */
module Reload {
  import opened Json
  import opened Objects
  import opened Document
  import opened Pipeline

  // ----- the state machine -----

  datatype Emission = Emission(next: Fields, prev: Option<Fields>)

  /** `path` is the file being watched; `emitted` lists the change events in order. */
  datatype State = State(active: Option<Fields>, path: Option<string>, emitted: seq<Emission>)

  const Init := State(None, None, [])

  /** `resolved` is the path a load settles on, if any; `w.file` is what is found there.
    * A reload finds, at the time of the signal, `at(path)` under the watched path. */
  datatype Event =
    | Load(resolved: Option<string>, w: World)
    | ReloadSignal(at: Option<string> -> World, listenerThrows: bool)

  /** A load throws on failure; a reload reports. */
  datatype Outcome = Loaded | Threw | Reported(ok: bool)

  /** Before any load there is no path to look at, so a reload finds no file. */
  function InView(st: State, ev: Event): World {
    match ev
    case Load(_, w) => w
    case ReloadSignal(at, _) => if st.path.Some? then at(st.path) else at(None).(file := Absent)
  }

  /** One event, given what building from the world it sees yields. */
  function Apply(st: State, ev: Event, built: Result<Fields, Failure>): (State, Outcome) {
    match ev
    case Load(None, _) => (st, Threw)
    case Load(path, _) =>
      if built.Ok? then (st.(path := path, active := Some(built.value)), Loaded)
      else (st.(path := path), Threw)
    case ReloadSignal(_, throws) =>
      if built.Ok? then
        (st.(active := Some(built.value), emitted := st.emitted + [Emission(built.value, st.active)]),
          Reported(!throws))
      else (st, Reported(false))
  }

  /** Building is a function of the world alone: the defaults never change. */
  type Builder = World -> Result<Fields, Failure>

  ghost function Building(defaults: Fields): Builder
    requires DefaultsOk(defaults)
  {
    w => Build(defaults, w)
  }

  function Step(build: Builder, st: State, ev: Event): (State, Outcome) {
    Apply(st, ev, build(InView(st, ev)))
  }

  type Run = seq<Event>

  function From(build: Builder, st: State, run: Run): State
    decreases |run|
  {
    if run == [] then st else Step(build, From(build, st, run[..|run| - 1]), run[|run| - 1]).0
  }

  function After(build: Builder, run: Run): State {
    From(build, Init, run)
  }

  /** The configuration an event activates, if it activates one. */
  function Activation(build: Builder, st: State, ev: Event): Option<Fields> {
    var built := build(InView(st, ev));
    if built.Err? || (ev.Load? && ev.resolved.None?) then None else Some(built.value)
  }

  function Activated(build: Builder, run: Run, i: nat): Option<Fields>
    requires i < |run|
  {
    Activation(build, After(build, run[..i]), run[i])
  }

  /** The configuration the latest activating event of a stretch put in force. */
  function LastActivation(build: Builder, st: State, run: Run): Option<Fields>
    decreases |run|
  {
    if run == [] then None
    else
      var n := |run| - 1;
      var last := Activation(build, From(build, st, run[..n]), run[n]);
      if last.Some? then last else LastActivation(build, st, run[..n])
  }

  lemma {:induction false} FromSplit(build: Builder, st: State, a: Run, b: Run)
    ensures From(build, st, a + b) == From(build, From(build, st, a), b)
    decreases |b|
  {
    if b == [] {
      assert a + b == a;
    } else {
      var n := |b| - 1;
      assert (a + b)[..|a + b| - 1] == a + b[..n];
      FromSplit(build, st, a, b[..n]);
    }
  }

  // ----- what is in force -----

  /** The active configuration is the one the latest activating event built and accepted. */
  lemma {:induction false} ActiveIsTheLastAccepted(build: Builder, run: Run) returns (i: nat)
    ensures After(build, run).active.None? ==> forall k: nat | k < |run| :: Activated(build, run, k).None?
    ensures After(build, run).active.Some? ==>
      && i < |run| && Activated(build, run, i) == After(build, run).active
      && forall k: nat | i < k < |run| :: Activated(build, run, k).None?
    decreases |run|
  {
    i := 0;
    if run != [] {
      var n := |run| - 1;
      var init := run[..n];
      i := ActiveIsTheLastAccepted(build, init);
      forall k: nat | k < n ensures Activated(build, run, k) == Activated(build, init, k) {
        assert run[..k] == init[..k];
      }
      if Activated(build, run, n).Some? {
        i := n;
      }
    }
  }

  /** `cfg` came out of every stage of building from `w`, the validation included. */
  ghost predicate PassedFrom(defaults: Fields, w: World, cfg: Fields) {
    && DefaultsOk(defaults)
    && exists m ::
        && LoadDocument(defaults, w.file) == Ok(m)
        && ApplyEnv(DisableOrphans(m.cfg), w.site.env).Some?
        && Edited(Prepared(m, w.site), w.site.elsewhere(Prepared(m, w.site))) == Some(cfg)
        && Accepted(cfg, m.removed, w.site.others)
  }

  /** Over every run, whatever is active passed validation when the last activating event built it. */
  lemma ActivePassedValidation(defaults: Fields, run: Run) returns (i: nat)
    requires DefaultsOk(defaults) && After(Building(defaults), run).active.Some?
    ensures i < |run|
    ensures PassedFrom(defaults, InView(After(Building(defaults), run[..i]), run[i]),
      After(Building(defaults), run).active.value)
    ensures forall k: nat | i < k < |run| :: Activated(Building(defaults), run, k).None?
  {
    var build := Building(defaults);
    i := ActiveIsTheLastAccepted(build, run);
    var m := BuildStages(defaults, InView(After(build, run[..i]), run[i]), After(build, run).active.value);
  }

  lemma {:induction false} ActiveAfter(build: Builder, st: State, run: Run)
    ensures From(build, st, run).active ==
      if LastActivation(build, st, run).Some? then LastActivation(build, st, run) else st.active
    decreases |run|
  {
    if run != [] {
      ActiveAfter(build, st, run[..|run| - 1]);
    }
  }

  /** Once some event has activated a configuration, one stays active for ever. */
  lemma NeverUnloaded(build: Builder, run: Run, more: Run)
    requires After(build, run).active.Some?
    ensures After(build, run + more).active.Some?
  {
    FromSplit(build, Init, run, more);
    ActiveAfter(build, After(build, run), more);
  }

  /** If nothing is activated after a reload, its report tells what is in force: `ok` is true exactly when
    * the build succeeded and no listener threw, and only a failed build leaves the old configuration. */
  lemma LastReportIsInForce(build: Builder, run: Run, i: nat)
    requires i < |run| && run[i].ReloadSignal?
    requires LastActivation(build, After(build, run[..i + 1]), run[i + 1..]).None?
    ensures var st := After(build, run[..i]);
      var built, out := build(InView(st, run[i])), Step(build, st, run[i]).1;
      && (out == Reported(true) <==> built.Ok? && !run[i].listenerThrows)
      && After(build, run).active == if built.Ok? then Some(built.value) else st.active
  {
    assert run == run[..i + 1] + run[i + 1..];
    FromSplit(build, Init, run[..i + 1], run[i + 1..]);
    ActiveAfter(build, After(build, run[..i + 1]), run[i + 1..]);
    assert run[..i + 1][..i] == run[..i];
  }

  // ----- failed builds -----

  /** A load that fails after settling on another path than the one watched. */
  predicate Moves(st: State, ev: Event) {
    ev.Load? && ev.resolved.Some? && ev.resolved != st.path
  }

  /** The run without the events that activate nothing and watch the same path as before. */
  function WithoutFailures(build: Builder, st: State, run: Run): Run
    decreases |run|
  {
    if run == [] then []
    else
      var n := |run| - 1;
      var front, mid := WithoutFailures(build, st, run[..n]), From(build, st, run[..n]);
      if Activation(build, mid, run[n]).None? && !Moves(mid, run[n]) then front else front + [run[n]]
  }

  /** Those events leave no trace: neither in force, nor in what was emitted, nor in what is watched. */
  lemma {:induction false} FailuresLeaveNoTrace(build: Builder, st: State, run: Run)
    ensures From(build, st, WithoutFailures(build, st, run)) == From(build, st, run)
    decreases |run|
  {
    if run != [] {
      var n := |run| - 1;
      FailuresLeaveNoTrace(build, st, run[..n]);
      FromSplit(build, st, WithoutFailures(build, st, run[..n]), [run[n]]);
      FromOne(build, From(build, st, run[..n]), run[n]);
    }
  }

  lemma FromOne(build: Builder, st: State, ev: Event)
    ensures From(build, st, [ev]) == Step(build, st, ev).0
  {
    assert [ev][..0] == [];
    assert From(build, st, [ev][..0]) == st;
  }

  predicate SameToAll(a: State, b: State) {
    a.active == b.active && a.emitted == b.emitted
  }

  /** One failed event may be left out, whatever follows, exactly when it does not move the watched path:
    * provided the build tells some document from a missing file. */
  lemma FailureIsForgottenIff(build: Builder, st: State, ev: Event, a: World, b: World)
    requires Activation(build, st, ev).None?
    requires b.file.Absent? && build(a).Ok? && build(b).Ok? && build(a).value != build(b).value
    ensures (forall more :: SameToAll(From(build, Step(build, st, ev).0, more), From(build, st, more))) <==>
      !Moves(st, ev)
  {
    var st' := Step(build, st, ev).0;
    if Moves(st, ev) {
      var signal := ReloadSignal(p => if p == ev.resolved then a else b, false);
      FromOne(build, st, signal);
      FromOne(build, st', signal);
      assert InView(st', signal) == a && InView(st, signal) == b;
      assert !SameToAll(From(build, st', [signal]), From(build, st, [signal]));
    } else {
      assert st' == st;
    }
  }

  // ----- emissions -----

  /** The reload that made emission `j`, and the states around it. */
  lemma {:induction false} EmittedAt(build: Builder, run: Run, j: nat) returns (q: nat)
    requires j < |After(build, run).emitted|
    ensures q < |run| && run[q].ReloadSignal?
    ensures var es, st := After(build, run).emitted, After(build, run[..q]);
      && st.emitted == es[..j] && After(build, run[..q + 1]) == Step(build, st, run[q]).0
      && After(build, run[..q + 1]).emitted == es[..j + 1]
      && es[j] == Emission(es[j].next, st.active) && After(build, run[..q + 1]).active == Some(es[j].next)
    decreases |run|
  {
    var n := |run| - 1;
    var front := run[..n];
    var es, was := After(build, run).emitted, After(build, front).emitted;
    if j < |was| {
      q := EmittedAt(build, front, j);
      assert run[..q] == front[..q] && run[..q + 1] == front[..q + 1];
      assert es[..j] == was[..j] && es[..j + 1] == was[..j + 1];
    } else {
      q := n;
      assert run[..n + 1] == run;
      assert es[..j] == was && es[..j + 1] == es;
    }
  }

  /** Consecutive emissions link up exactly when, between the two reloads that made them, nothing was
    * activated or the configuration activated last is the one the first of them announced. */
  lemma LinkIff(build: Builder, run: Run, j: nat) returns (p: nat, q: nat)
    requires 0 < j < |After(build, run).emitted|
    ensures p < q < |run| && run[p].ReloadSignal? && run[q].ReloadSignal?
    ensures var es := After(build, run).emitted;
      && After(build, run[..p + 1]).emitted == es[..j] == After(build, run[..q]).emitted
      && After(build, run[..q + 1]).emitted == es[..j + 1]
      && var between := LastActivation(build, After(build, run[..p + 1]), run[p + 1..q]);
        es[j].prev == Some(es[j - 1].next) <==> between.None? || between == Some(es[j - 1].next)
  {
    var es := After(build, run).emitted;
    q := EmittedAt(build, run, j);
    p := EmittedAt(build, run[..q], j - 1);
    assert run[..q][..p + 1] == run[..p + 1] && es[..j][..j - 1 + 1] == es[..j];
    assert run[..q] == run[..p + 1] + run[p + 1..q];
    FromSplit(build, Init, run[..p + 1], run[p + 1..q]);
    ActiveAfter(build, After(build, run[..p + 1]), run[p + 1..q]);
  }

  /** Consecutive emissions link up: each one starts from what the one before put in force. */
  predicate Chained(es: seq<Emission>, from: Option<Fields>) {
    && (es != [] ==> es[0].prev == from)
    && forall i | 0 < i < |es| :: es[i].prev == Some(es[i - 1].next)
  }

  function Last(es: seq<Emission>, from: Option<Fields>): Option<Fields> {
    if es == [] then from else Some(es[|es| - 1].next)
  }

  lemma OneMore(build: Builder, run: Run, ev: Event)
    ensures After(build, run + [ev]) == Step(build, After(build, run), ev).0
  {
    assert (run + [ev])[..|run + [ev]| - 1] == run;
  }

  /** With no load in between, the emissions of a stretch of reloads chain from start to end. */
  lemma {:induction false} EmissionsChain(build: Builder, run: Run, reloads: Run)
    requires forall ev | ev in reloads :: ev.ReloadSignal?
    ensures var before, after := After(build, run), After(build, run + reloads);
      && before.emitted <= after.emitted && after.path == before.path
      && Chained(after.emitted[|before.emitted|..], before.active)
      && after.active == Last(after.emitted[|before.emitted|..], before.active)
    decreases |reloads|
  {
    var before := After(build, run);
    if reloads == [] {
      assert run + reloads == run;
    } else {
      var n := |reloads| - 1;
      assert reloads[n] in reloads;
      EmissionsChain(build, run, reloads[..n]);
      assert run + reloads == (run + reloads[..n]) + [reloads[n]];
      OneMore(build, run + reloads[..n], reloads[n]);
      var mid, after := After(build, run + reloads[..n]), After(build, run + reloads);
      var sofar, all := mid.emitted[|before.emitted|..], after.emitted[|before.emitted|..];
      var built := build(InView(mid, reloads[n]));
      if built.Ok? {
        var e := Emission(built.value, mid.active);
        assert after.emitted == mid.emitted + [e];
        assert all == sofar + [e];
        ChainedSnoc(sofar, before.active, e);
      } else {
        assert after == mid;
      }
    }
  }

  lemma ChainedSnoc(es: seq<Emission>, from: Option<Fields>, e: Emission)
    requires Chained(es, from) && e.prev == Last(es, from)
    ensures Chained(es + [e], from)
  {
  }

  /** Reloads read the path of the latest load that settled on one, even when that load was rejected. */
  lemma {:induction false} ReloadsFollowTheLastPath(build: Builder, run: Run)
    ensures After(build, run).path == LastPath(run)
    decreases |run|
  {
    if run != [] {
      ReloadsFollowTheLastPath(build, run[..|run| - 1]);
    }
  }

  function LastPath(run: Run): Option<string> {
    if run == [] then None
    else
      var ev := run[|run| - 1];
      if ev.Load? && ev.resolved.Some? then ev.resolved else LastPath(run[..|run| - 1])
  }

  /** What an event builds from: a load from what it found, a reload from what lies under the path of the latest
    * load that resolved one, and from no file at all if none did. */
  lemma EventBuilds(build: Builder, run: Run, i: nat)
    requires i < |run|
    ensures Activated(build, run, i) ==
      match run[i]
      case Load(None, _) => None
      case Load(Some(_), w) => if build(w).Ok? then Some(build(w).value) else None
      case ReloadSignal(at, _) =>
        var path := LastPath(run[..i]);
        var w := if path.Some? then at(path) else at(None).(file := Absent);
        if build(w).Ok? then Some(build(w).value) else None
  {
    ReloadsFollowTheLastPath(build, run[..i]);
  }

  /** What a caller is told, event by event: a load returns exactly when it activates and throws otherwise; a reload
    * never throws, and reports success exactly when it activates and no listener throws. */
  lemma EventTells(build: Builder, run: Run, i: nat)
    requires i < |run|
    ensures var told, active := Step(build, After(build, run[..i]), run[i]).1, Activated(build, run, i).Some?;
      match run[i]
      case Load(_, _) => told == if active then Loaded else Threw
      case ReloadSignal(_, throws) => told == Reported(active && !throws)
  {
  }

  /** The configurations that reloads activated, in order. */
  function Reloaded(build: Builder, run: Run): seq<Fields>
    decreases |run|
  {
    if run == [] then []
    else
      var n := |run| - 1;
      var front := Reloaded(build, run[..n]);
      if run[n].ReloadSignal? && Activated(build, run, n).Some? then front + [Activated(build, run, n).value] else front
  }

  /** Every reload that activates a configuration announces it, changed or not, and nothing else is announced. */
  lemma {:induction false} EmissionsAre(build: Builder, run: Run)
    ensures var es, rs := After(build, run).emitted, Reloaded(build, run);
      |es| == |rs| && forall j | 0 <= j < |es| :: es[j].next == rs[j]
    decreases |run|
  {
    if run != [] {
      EmissionsAre(build, run[..|run| - 1]);
    }
  }

  // ----- the module's own state -----

  class ConfigStore {
    const defaults: JsObject
    var current: JsObject?
    var path: Option<string>
    ghost var emitted: seq<Emission>
    ghost var history: Run

    ghost predicate Sound()
      reads this, defaults, defaults.repr, if current != null then {current} + current.repr else {}
    {
      && defaults.Valid() && DefaultsOk(defaults.View())
      && (current != null ==> current.Valid() && current.repr !! defaults.repr)
    }

    ghost function Now(): State
      requires Sound()
      reads this, defaults, defaults.repr, if current != null then {current} + current.repr else {}
    {
      State(if current == null then None else Some(current.View()), path, emitted)
    }

    /** The object stands where the run of all its calls so far leads. */
    ghost predicate Valid()
      reads this, defaults, defaults.repr, if current != null then {current} + current.repr else {}
    {
      Sound() && Now() == After(Building(defaults.View()), history)
    }

    constructor (defaults: JsObject)
      requires defaults.Valid() && DefaultsOk(defaults.View())
      ensures Valid() && this.defaults == defaults && history == []
    {
      this.defaults := defaults;
      current, path, emitted, history := null, None, [], [];
    }

    /** Build a candidate; nothing becomes active yet. */
    method Candidate(file: OnDisk, site: Site) returns (built: Result<JsObject, Failure>)
      requires Sound() && file.Valid() && file.Repr() !! defaults.repr
      requires current != null ==> current.repr !! file.Repr()
      modifies file.Repr()
      ensures Kept(defaults) && Sound() && Now() == old(Now())
      ensures Built(Build(old(defaults.View()), World(old(file.View()), site)), built)
      ensures built.Ok? ==> built.value.repr !! defaults.repr
    {
      built := ReadAndBuild(defaults, file, site);
      if current != null {
        Framed(current);
      }
    }

    /** Make `next` the active configuration, telling the listeners if `announce` is set. */
    method Activate(next: JsObject, announce: bool)
      requires Sound() && next.Valid() && next.repr !! defaults.repr
      modifies this`current, this`emitted
      ensures Sound() && Kept(defaults) && path == old(path)
      ensures Now() == old(Now()).(active := Some(next.View()),
        emitted := if announce then old(emitted) + [Emission(next.View(), old(Now()).active)] else old(emitted))
    {
      if announce {
        emitted := emitted + [Emission(next.View(), Now().active)];
      }
      current := next;
      Framed(defaults);
      Framed(next);
    }

    method Settle(resolved: Option<string>, file: OnDisk, site: Site) returns (out: Outcome)
      requires Sound() && file.Valid() && file.Repr() !! defaults.repr
      requires current != null ==> current.repr !! file.Repr()
      modifies this`path, this`current, this`emitted, file.Repr()
      ensures Sound() && Kept(defaults)
      ensures var w := World(old(file.View()), site);
        (Now(), out) == Apply(old(Now()), Load(resolved, w), Build(old(defaults.View()), w))
    {
      out := Threw;
      if resolved.Some? {
        Watch(resolved.value);
        out := LoadWatched(file, site);
      }
    }

    /** Note a call: the object stands where one more step leads. */
    ghost method Note(before: State, ev: Event, out: Outcome)
      requires Sound() && before == After(Building(defaults.View()), history)
      requires (Now(), out) == Step(Building(defaults.View()), before, ev)
      modifies this`history
      ensures Valid() && Kept(defaults) && history == old(history) + [ev]
    {
      OneMore(Building(defaults.View()), history, ev);
      ghost var now := Now();
      history := history + [ev];
      Framed(defaults);
      if current != null {
        Framed(current);
      }
      assert Now() == now;
    }

    /** `resolved` is the outcome of path resolution, `file` what is found there. */
    method LoadConfig(resolved: Option<string>, file: OnDisk, site: Site) returns (out: Outcome)
      requires Valid() && file.Valid() && file.Repr() !! defaults.repr
      requires current != null ==> current.repr !! file.Repr()
      modifies this, file.Repr()
      ensures Valid() && Kept(defaults)
      ensures var ev := Load(resolved, World(old(file.View()), site));
        && history == old(history) + [ev]
        && out == Step(Building(defaults.View()), old(Now()), ev).1
    {
      ghost var before, ev := Now(), Load(resolved, World(file.View(), site));
      out := Settle(resolved, file, site);
      Note(before, ev, out);
    }

    method Watch(file: string)
      requires Sound()
      modifies this`path
      ensures Sound() && Kept(defaults) && Now() == old(Now()).(path := Some(file))
    {
      path := Some(file);
    }

    method LoadWatched(file: OnDisk, site: Site) returns (out: Outcome)
      requires Sound() && file.Valid() && file.Repr() !! defaults.repr
      requires current != null ==> current.repr !! file.Repr()
      modifies this`current, this`emitted, file.Repr()
      ensures Sound() && Kept(defaults)
      ensures var built := Build(old(defaults.View()), World(old(file.View()), site));
        (Now(), out) == if built.Ok? then (old(Now()).(active := Some(built.value)), Loaded) else (old(Now()), Threw)
    {
      var built := Candidate(file, site);
      out := Threw;
      if built.Ok? {
        Activate(built.value, false);
        out := Loaded;
      }
    }

    method Reread(file: OnDisk, site: Site, listenerThrows: bool) returns (out: Outcome)
      requires Sound() && file.Valid() && file.Repr() !! defaults.repr
      requires current != null ==> current.repr !! file.Repr()
      modifies this`current, this`emitted, file.Repr()
      ensures Sound() && Kept(defaults)
      ensures var w := World(old(file.View()), site);
        var ev := ReloadSignal(_ => w, listenerThrows);
        (Now(), out) == Apply(old(Now()), ev, Build(old(defaults.View()), InView(old(Now()), ev)))
    {
      ghost var want := Build(defaults.View(), World(if path.Some? then file.View() else Absent, site));
      var built := Candidate(if path.Some? then file else Nothing, site);
      out := Adopt(built, want, listenerThrows);
    }

    /** Put a successful build in force and tell the listeners. */
    method Adopt(built: Result<JsObject, Failure>, ghost want: Result<Fields, Failure>, listenerThrows: bool)
        returns (out: Outcome)
      requires Sound() && Built(want, built) && (built.Ok? ==> built.value.repr !! defaults.repr)
      modifies this`current, this`emitted
      ensures Sound() && Kept(defaults)
      ensures (Now(), out) ==
        if want.Err? then (old(Now()), Reported(false))
        else
          var e := Emission(want.value, old(Now()).active);
          (old(Now()).(active := Some(want.value), emitted := old(emitted) + [e]), Reported(!listenerThrows))
    {
      out := Reported(false);
      if built.Ok? {
        Activate(built.value, true);
        out := Reported(!listenerThrows);
      }
    }

    /** The SIGHUP handler. It never throws. */
    method HandleSighup(file: OnDisk, site: Site, listenerThrows: bool) returns (out: Outcome)
      requires Valid() && file.Valid() && file.Repr() !! defaults.repr
      requires current != null ==> current.repr !! file.Repr()
      modifies this, file.Repr()
      ensures Valid() && Kept(defaults)
      ensures var w := World(old(file.View()), site);
        var ev := ReloadSignal(_ => w, listenerThrows);
        && history == old(history) + [ev]
        && out == Step(Building(defaults.View()), old(Now()), ev).1
    {
      ghost var w := World(file.View(), site);
      ghost var before, ev := Now(), ReloadSignal(_ => w, listenerThrows);
      out := Reread(file, site, listenerThrows);
      Note(before, ev, out);
    }

    /** What a consumer gets passed validation when one of the calls so far built it. */
    method GetConfig() returns (r: Option<JsObject>)
      requires Valid()
      ensures r.None? <==> current == null
      ensures r.Some? ==> r.value.Valid() && exists w :: PassedFrom(defaults.View(), w, r.value.View())
    {
      if current == null {
        return None;
      }
      ghost var i := ActivePassedValidation(defaults.View(), history);
      r := Some(current);
    }
  }
}
