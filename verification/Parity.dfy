/** Declared configuration against the live gateway: what counts as drift. */
module Parity {
  import opened Json
  import opened Glob

  // ----- inputs -----

  /** The `models` list of each declared backend, entries as parsed. */
  type Declared = map<string, seq<Value>>

  datatype Health = Health(status: string, quarantined: bool)

  /** The backends the gateway reports; a reported backend may carry no snapshot. */
  type Live = map<string, Option<Health>>

  predicate BackendServing(h: Option<Health>) {
    h.Some? && !h.value.quarantined && (h.value.status == "up" || h.value.status == "degraded")
  }

  predicate Stopped(h: Option<Health>) {
    h.Some? && (h.value.quarantined || h.value.status == "down")
  }

  // ----- what is declared -----

  /** Backend and model of one declaration; patterns are declarations with a `*`. */
  datatype Declaration = Declaration(backend: string, model: string)

  predicate Usable(v: Value) {
    v.Str? && v.s != ""
  }

  predicate IsPattern(m: string) {
    '*' in m
  }

  predicate Declares(d: Declared, b: string, m: string) {
    b in d && m != "" && Str(m) in d[b]
  }

  ghost predicate Named(d: Declared, m: string) {
    exists b :: Declares(d, b, m)
  }

  ghost predicate NamedIn(seen: set<Declaration>, m: string) {
    exists b :: Declaration(b, m) in seen
  }

  /** The concrete models with their owners, and the patterns. */
  datatype Index = Index(owner: map<string, seq<string>>, wildcards: seq<string>)

  /** The index of a set of declarations: nothing more and nothing less. */
  ghost predicate Indexes(ix: Index, seen: set<Declaration>) {
    && (forall m :: m in ix.owner <==> !IsPattern(m) && NamedIn(seen, m))
    && (forall m, b | m in ix.owner :: b in ix.owner[m] <==> Declaration(b, m) in seen)
    && (forall w :: w in ix.wildcards <==> IsPattern(w) && NamedIn(seen, w))
  }

  /** The index of a whole configuration. */
  ghost predicate IndexOf(ix: Index, d: Declared) {
    && (forall m :: m in ix.owner <==> !IsPattern(m) && Named(d, m))
    && (forall m, b | m in ix.owner :: b in ix.owner[m] <==> Declares(d, b, m))
    && (forall w :: w in ix.wildcards <==> IsPattern(w) && Named(d, w))
  }

  function WithOwner(ix: Index, b: string, m: string): Index {
    ix.(owner := ix.owner[m := (if m in ix.owner then ix.owner[m] else []) + [b]])
  }

  function Added(ix: Index, b: string, m: string): Index {
    if IsPattern(m) then ix.(wildcards := ix.wildcards + [m]) else WithOwner(ix, b, m)
  }

  lemma NamedOneMore(seen: set<Declaration>, b: string, m: string, k: string)
    ensures NamedIn(seen + {Declaration(b, m)}, k) <==> k == m || NamedIn(seen, k)
  {
    var after := seen + {Declaration(b, m)};
    assert Declaration(b, m) in after;
    if c :| Declaration(c, k) in seen {
      assert Declaration(c, k) in after;
    }
  }

  lemma AddedIndexes(ix: Index, seen: set<Declaration>, b: string, m: string)
    requires Indexes(ix, seen)
    ensures Indexes(Added(ix, b, m), seen + {Declaration(b, m)})
  {
    if IsPattern(m) {
      PatternAdded(ix, seen, b, m);
    } else {
      OwnerAdded(ix, seen, b, m);
    }
  }

  lemma PatternAdded(ix: Index, seen: set<Declaration>, b: string, m: string)
    requires Indexes(ix, seen) && IsPattern(m)
    ensures Indexes(ix.(wildcards := ix.wildcards + [m]), seen + {Declaration(b, m)})
  {
    forall k ensures NamedIn(seen + {Declaration(b, m)}, k) <==> k == m || NamedIn(seen, k) {
      NamedOneMore(seen, b, m, k);
    }
  }

  lemma OwnerAdded(ix: Index, seen: set<Declaration>, b: string, m: string)
    requires Indexes(ix, seen) && !IsPattern(m)
    ensures Indexes(WithOwner(ix, b, m), seen + {Declaration(b, m)})
  {
    forall k ensures NamedIn(seen + {Declaration(b, m)}, k) <==> k == m || NamedIn(seen, k) {
      NamedOneMore(seen, b, m, k);
    }
  }

  /** Add one backend's list. */
  method IndexBackend(ix: Index, b: string, models: seq<Value>, ghost seen: set<Declaration>) returns (out: Index)
    requires Indexes(ix, seen)
    ensures Indexes(out, seen + set v | v in models && Usable(v) :: Declaration(b, v.s))
  {
    out := ix;
    ghost var known := seen;
    for i := 0 to |models|
      invariant Indexes(out, known)
      invariant known == seen + set v | v in models[..i] && Usable(v) :: Declaration(b, v.s)
    {
      assert models[..i + 1] == models[..i] + [models[i]];
      var v := models[i];
      if v.Str? && v.s != "" {
        AddedIndexes(out, known, b, v.s);
        out := Added(out, b, v.s);
        known := known + {Declaration(b, v.s)};
      }
    }
    assert models[..|models|] == models;
  }

  method DeclaredModelIndex(d: Declared) returns (ix: Index)
    ensures IndexOf(ix, d)
  {
    ix := Index(map[], []);
    var rest := d.Keys;
    ghost var seen: set<Declaration> := {};
    while rest != {}
      invariant rest <= d.Keys
      invariant Indexes(ix, seen)
      invariant forall b, m :: Declaration(b, m) in seen <==> b !in rest && Declares(d, b, m)
      decreases |rest|
    {
      var b :| b in rest;
      ix := IndexBackend(ix, b, d[b], seen);
      ghost var news := set v | v in d[b] && Usable(v) :: Declaration(b, v.s);
      forall c, m ensures Declaration(c, m) in news <==> c == b && Declares(d, b, m) {
        assert Declares(d, b, m) ==> Usable(Str(m));
      }
      seen := seen + news;
      rest := rest - {b};
    }
    forall m ensures NamedIn(seen, m) <==> Named(d, m) {
      if b :| Declares(d, b, m) {
        assert Declaration(b, m) in seen;
      }
    }
  }

  // ----- the classes of drift -----

  /** A declared concrete model. */
  ghost predicate Concrete(d: Declared, m: string) {
    !IsPattern(m) && Named(d, m)
  }

  /** Some backend that declares the model is serving. */
  ghost predicate Served(d: Declared, live: Live, m: string) {
    exists b :: Declares(d, b, m) && b in live && BackendServing(live[b])
  }

  ghost predicate Known(d: Declared, live: Live, m: string) {
    exists b :: Declares(d, b, m) && b in live
  }

  datatype Reason = NotAdvertised | BackendNotServing | BackendUnreachable | GatewayUnreachable

  datatype NotWorking = NotWorking(model: string, backends: seq<string>, reason: Reason)

  predicate SomeServing(owners: seq<string>, live: Live) {
    exists b | b in owners :: b in live && BackendServing(live[b])
  }

  predicate SomeKnown(owners: seq<string>, live: Live) {
    exists b | b in owners :: b in live
  }

  /** What is reported about one declared model, given its owners. */
  function Finding(m: string, owners: seq<string>, live: Live, advertised: set<string>): Option<NotWorking> {
    if m !in advertised then Some(NotWorking(m, owners, NotAdvertised))
    else if SomeServing(owners, live) then None
    else Some(NotWorking(m, owners, if SomeKnown(owners, live) then BackendNotServing else BackendUnreachable))
  }

  predicate Once<T(==)>(s: seq<T>) {
    forall i, j | 0 <= i < j < |s| :: s[i] != s[j]
  }

  method DeclaredNotWorking(ix: Index, live: Live, advertised: set<string>) returns (entries: seq<NotWorking>)
    ensures forall e :: e in entries <==>
      e.model in ix.owner && Finding(e.model, ix.owner[e.model], live, advertised) == Some(e)
    ensures Once(entries)
  {
    entries := [];
    var rest := ix.owner.Keys;
    while rest != {}
      invariant rest <= ix.owner.Keys
      invariant forall e :: e in entries <==>
        e.model in ix.owner && e.model !in rest && Finding(e.model, ix.owner[e.model], live, advertised) == Some(e)
      invariant Once(entries)
      decreases |rest|
    {
      var m :| m in rest;
      rest := rest - {m};
      var f := Finding(m, ix.owner[m], live, advertised);
      if f.Some? {
        entries := entries + [f.value];
      }
    }
  }

  method StoppedBackends(live: Live) returns (ids: seq<string>)
    ensures Once(ids) && forall b :: b in ids <==> b in live && Stopped(live[b])
  {
    ids := [];
    var rest := live.Keys;
    while rest != {}
      invariant rest <= live.Keys
      invariant Once(ids) && forall b :: b in ids <==> b in live && b !in rest && Stopped(live[b])
      decreases |rest|
    {
      var b :| b in rest;
      rest := rest - {b};
      if Stopped(live[b]) {
        ids := ids + [b];
      }
    }
  }

  method MissingBackends(d: Declared, live: Live) returns (ids: seq<string>)
    ensures Once(ids) && forall b :: b in ids <==> b in d && b !in live
  {
    ids := [];
    var rest := d.Keys;
    while rest != {}
      invariant rest <= d.Keys
      invariant Once(ids) && forall b :: b in ids <==> b in d && b !in rest && b !in live
      decreases |rest|
    {
      var b :| b in rest;
      rest := rest - {b};
      if b !in live {
        ids := ids + [b];
      }
    }
  }

  /** Covered by a declared pattern, read as a glob. */
  ghost predicate Covered(wildcards: seq<string>, m: string) {
    exists w | w in wildcards :: Denotes(w, m, Exact)
  }

  method WorkingNotDeclared(ix: Index, advertised: set<string>) returns (ids: seq<string>)
    ensures Once(ids) && forall m :: m in ids <==> m in advertised && m !in ix.owner && !Covered(ix.wildcards, m)
  {
    ids := [];
    var rest := advertised;
    while rest != {}
      invariant rest <= advertised
      invariant Once(ids) && forall m ::
        m in ids <==> m in advertised && m !in rest && m !in ix.owner && !Covered(ix.wildcards, m)
      decreases |rest|
    {
      var m :| m in rest;
      rest := rest - {m};
      if m !in ix.owner {
        var covered := MatchesWildcard(m, ix.wildcards);
        if !covered {
          ids := ids + [m];
        }
      }
    }
  }

  // ----- the verdict -----

  datatype Report = Report(drift: bool, reachable: bool, notWorking: seq<NotWorking>, undeclared: seq<string>,
                           stopped: seq<string>, unreachable: seq<string>)

  const GATEWAY := "<gateway>"

  /** Some backend lists the id. */
  ghost predicate ListedBy(d: Declared, b: string, m: string) {
    b in d && exists k | 0 <= k < |d[b]| :: d[b][k] == Str(m)
  }

  /** Every declared model is advertised, and one of its backends is up or degraded and not quarantined; every
    * declared backend is there; none that is there is down or quarantined. */
  ghost predicate InParity(d: Declared, live: Live, advertised: set<string>) {
    && (forall m, b | m != "" && '*' !in m && ListedBy(d, b, m) ::
          && m in advertised
          && exists c :: ListedBy(d, c, m) && c in live && live[c].Some? && !live[c].value.quarantined
                         && live[c].value.status in ["up", "degraded"])
    && (forall b | b in d :: b in live)
    && (forall b | b in live && live[b].Some? :: !live[b].value.quarantined && live[b].value.status != "down")
  }

  /** Every advertised id is listed by name, or denoted by a listed pattern. */
  ghost predicate AllDeclared(d: Declared, advertised: set<string>) {
    forall m | m in advertised :: IsDeclared(d, m)
  }

  ghost predicate IsDeclared(d: Declared, m: string) {
    || (m != "" && '*' !in m && exists b :: ListedBy(d, b, m))
    || exists b, w :: w != "" && '*' in w && ListedBy(d, b, w) && Denotes(w, m, Exact)
  }

  lemma ListedIff(d: Declared, b: string, m: string)
    ensures Declares(d, b, m) <==> m != "" && ListedBy(d, b, m)
  {
  }

  /** The same in the terms of the index. */
  ghost predicate AllServed(d: Declared, live: Live, advertised: set<string>) {
    forall m | Concrete(d, m) :: m in advertised && Served(d, live, m)
  }

  lemma InParityIff(d: Declared, live: Live, advertised: set<string>)
    ensures InParity(d, live, advertised) <==>
      AllServed(d, live, advertised) && (forall b | b in d :: b in live) && forall b | b in live :: !Stopped(live[b])
  {
    forall b, m ensures Declares(d, b, m) <==> m != "" && ListedBy(d, b, m) {
      ListedIff(d, b, m);
    }
    forall b | b in live ensures BackendServing(live[b]) <==>
      live[b].Some? && !live[b].value.quarantined && live[b].value.status in ["up", "degraded"]
    {
    }
    if AllServed(d, live, advertised) {
      forall m, b | m != "" && '*' !in m && ListedBy(d, b, m)
        ensures m in advertised
        ensures exists c :: ListedBy(d, c, m) && c in live && live[c].Some? && !live[c].value.quarantined
                            && live[c].value.status in ["up", "degraded"]
      {
        assert Declares(d, b, m) && Concrete(d, m);
        var c :| Declares(d, c, m) && c in live && BackendServing(live[c]);
        assert ListedBy(d, c, m);
      }
    }
    if InParity(d, live, advertised) {
      forall m | Concrete(d, m) ensures m in advertised && Served(d, live, m) {
        var b :| Declares(d, b, m);
        assert ListedBy(d, b, m);
        var c :| ListedBy(d, c, m) && c in live && live[c].Some? && !live[c].value.quarantined
                 && live[c].value.status in ["up", "degraded"];
        assert Declares(d, c, m) && BackendServing(live[c]);
      }
    }
  }

  lemma IsDeclaredIff(d: Declared, m: string)
    ensures IsDeclared(d, m) <==> DeclaredSomehow(d, m)
  {
    forall b, w ensures Declares(d, b, w) <==> w != "" && ListedBy(d, b, w) {
      ListedIff(d, b, w);
    }
    if b, w :| Declares(d, b, w) && IsPattern(w) && Denotes(w, m, Exact) {
      assert ListedBy(d, b, w);
    }
    if b, w :| w != "" && '*' in w && ListedBy(d, b, w) && Denotes(w, m, Exact) {
      assert Declares(d, b, w);
    }
    if b :| Declares(d, b, m) {
      assert ListedBy(d, b, m);
    }
    if b :| m != "" && ListedBy(d, b, m) {
      assert Declares(d, b, m);
    }
  }

  /** Declared by name or by pattern. */
  ghost predicate DeclaredSomehow(d: Declared, m: string) {
    Concrete(d, m) || exists b, w :: Declares(d, b, w) && IsPattern(w) && Denotes(w, m, Exact)
  }

  lemma OwnersAre(ix: Index, d: Declared, live: Live, m: string)
    requires IndexOf(ix, d) && m in ix.owner
    ensures SomeServing(ix.owner[m], live) <==> Served(d, live, m)
    ensures SomeKnown(ix.owner[m], live) <==> Known(d, live, m)
  {
    if SomeServing(ix.owner[m], live) {
      var b :| b in ix.owner[m] && b in live && BackendServing(live[b]);
      assert Declares(d, b, m);
    }
    if Served(d, live, m) {
      var b :| Declares(d, b, m) && b in live && BackendServing(live[b]);
      assert b in ix.owner[m];
    }
    if SomeKnown(ix.owner[m], live) {
      var b :| b in ix.owner[m] && b in live;
      assert Declares(d, b, m);
    }
    if Known(d, live, m) {
      var b :| Declares(d, b, m) && b in live;
      assert b in ix.owner[m];
    }
  }

  /** A model is reported exactly when it is declared and is not advertised by a serving owner. */
  ghost predicate ReportsModels(entries: seq<NotWorking>, d: Declared, live: Live, advertised: set<string>) {
    && (forall m :: (exists e :: e in entries && e.model == m) <==>
      Concrete(d, m) && !(m in advertised && Served(d, live, m)))
    && (forall e | e in entries ::
      && (forall b :: b in e.backends <==> Declares(d, b, e.model))
      && e.reason == (if e.model !in advertised then NotAdvertised
                      else if Known(d, live, e.model) then BackendNotServing else BackendUnreachable))
  }

  lemma EntriesReportModels(entries: seq<NotWorking>, ix: Index, d: Declared, live: Live, advertised: set<string>)
    requires IndexOf(ix, d)
    requires forall e :: e in entries <==>
      e.model in ix.owner && Finding(e.model, ix.owner[e.model], live, advertised) == Some(e)
    ensures ReportsModels(entries, d, live, advertised)
  {
    forall m ensures (exists e :: e in entries && e.model == m) <==>
      Concrete(d, m) && !(m in advertised && Served(d, live, m)) {
      if m in ix.owner {
        OwnersAre(ix, d, live, m);
        var f := Finding(m, ix.owner[m], live, advertised);
        if f.Some? {
          assert f.value in entries;
        }
      }
    }
    forall e | e in entries
      ensures forall b :: b in e.backends <==> Declares(d, b, e.model)
      ensures e.reason == (if e.model !in advertised then NotAdvertised
                           else if Known(d, live, e.model) then BackendNotServing else BackendUnreachable)
    {
      OwnersAre(ix, d, live, e.model);
    }
  }

  /** An advertised model with a dead backend is told apart by whether any owner is live. */
  lemma ReasonsMean(r: Report, d: Declared, live: Live, advertised: set<string>, e: NotWorking)
    requires ReportsModels(r.notWorking, d, live, advertised) && e in r.notWorking
    requires forall b :: b in r.unreachable <==> b in d && b !in live
    ensures e.reason == BackendUnreachable ==> e.model in advertised && forall b | b in e.backends :: b in r.unreachable
    ensures e.reason == BackendNotServing ==> exists b :: b in e.backends && b in live && !BackendServing(live[b])
    ensures e.reason != NotAdvertised ==> forall b | b in e.backends && b in live :: !BackendServing(live[b])
    ensures forall b :: b in e.backends <==> ListedBy(d, b, e.model)
    ensures e.reason == NotAdvertised <==> e.model !in advertised
    ensures e.reason == BackendUnreachable <==>
      e.model in advertised && forall b | ListedBy(d, b, e.model) :: b !in live
    ensures e.reason != GatewayUnreachable
  {
    forall b ensures Declares(d, b, e.model) <==> e.model != "" && ListedBy(d, b, e.model) {
      ListedIff(d, b, e.model);
    }
    assert !(e.model in advertised && Served(d, live, e.model));
    if e.reason == BackendNotServing {
      var b :| Declares(d, b, e.model) && b in live;
      assert b in e.backends;
    }
  }

  lemma NothingReportedIff(entries: seq<NotWorking>, d: Declared, live: Live, advertised: set<string>)
    requires ReportsModels(entries, d, live, advertised)
    ensures entries == [] <==> forall m | Concrete(d, m) :: m in advertised && Served(d, live, m)
  {
    if entries != [] {
      assert entries[0] in entries;
    } else {
      forall m | Concrete(d, m) ensures m in advertised && Served(d, live, m) {
        assert !exists e :: e in entries && e.model == m;
      }
    }
  }

  lemma CoveredIff(ix: Index, d: Declared, m: string)
    requires IndexOf(ix, d)
    ensures Covered(ix.wildcards, m) <==> exists b, w :: Declares(d, b, w) && IsPattern(w) && Denotes(w, m, Exact)
  {
    if Covered(ix.wildcards, m) {
      var w :| w in ix.wildcards && Denotes(w, m, Exact);
      var b :| Declares(d, b, w);
    }
    if b, w :| Declares(d, b, w) && IsPattern(w) && Denotes(w, m, Exact) {
      assert w in ix.wildcards;
    }
  }

  /** What a reachable gateway's report says. */
  ghost predicate Reports(r: Report, d: Declared, live: Live, advertised: set<string>) {
    && Once(r.notWorking) && Once(r.stopped) && Once(r.unreachable) && Once(r.undeclared)
    && ReportsModels(r.notWorking, d, live, advertised)
    && (forall b :: b in r.stopped <==> b in live && Stopped(live[b]))
    && (forall b :: b in r.unreachable <==> b in d && b !in live)
    && (forall m :: m in r.undeclared <==> m in advertised && !IsDeclared(d, m))
  }

  lemma ParityIff(r: Report, d: Declared, live: Live, advertised: set<string>)
    requires Reports(r, d, live, advertised)
    ensures r.notWorking == [] && r.stopped == [] && r.unreachable == [] <==> InParity(d, live, advertised)
  {
    NothingReportedIff(r.notWorking, d, live, advertised);
    InParityIff(d, live, advertised);
    if r.stopped != [] {
      assert r.stopped[0] in r.stopped;
    }
    if r.unreachable != [] {
      assert r.unreachable[0] in r.unreachable;
    }
  }

  lemma UndeclaredIff(undeclared: seq<string>, ix: Index, d: Declared, advertised: set<string>)
    requires IndexOf(ix, d)
    requires forall m :: m in undeclared <==> m in advertised && m !in ix.owner && !Covered(ix.wildcards, m)
    ensures forall m :: m in undeclared <==> m in advertised && !IsDeclared(d, m)
    ensures undeclared == [] <==> AllDeclared(d, advertised)
  {
    forall m ensures m in ix.owner || Covered(ix.wildcards, m) <==> IsDeclared(d, m) {
      assert m in ix.owner <==> Concrete(d, m);
      CoveredIff(ix, d, m);
      IsDeclaredIff(d, m);
    }
    if undeclared != [] {
      assert undeclared[0] in undeclared;
    }
  }

  /** Drift exactly when the gateway is away, something declared is not served as
    * declared, or, under the strict flag, something is served that nobody declared. */
  method ComputeParity(d: Declared, live: Live, advertised: set<string>, reachable: bool, strict: bool)
      returns (r: Report)
    ensures r.reachable == reachable
    ensures reachable ==> Reports(r, d, live, advertised)
    ensures !reachable ==>
      r.unreachable == [GATEWAY] && r.stopped == [] && r.undeclared == [] && ReportsAll(r.notWorking, d)
    ensures r.drift <==> !reachable || !InParity(d, live, advertised) || (strict && !AllDeclared(d, advertised))
  {
    var ix := DeclaredModelIndex(d);
    if !reachable {
      var entries := AllNotWorking(ix);
      AllReported(entries, ix, d);
      return Report(true, false, entries, [], [], [GATEWAY]);
    }
    var stopped := StoppedBackends(live);
    var missing := MissingBackends(d, live);
    var entries := DeclaredNotWorking(ix, live, advertised);
    EntriesReportModels(entries, ix, d, live, advertised);
    var undeclared := WorkingNotDeclared(ix, advertised);
    UndeclaredIff(undeclared, ix, d, advertised);
    var drift := entries != [] || stopped != [] || missing != [] || (strict && undeclared != []);
    r := Report(drift, true, entries, undeclared, stopped, missing);
    ParityIff(r, d, live, advertised);
  }

  /** Every declared model is listed, with its backends, as out of reach. */
  ghost predicate ReportsAll(entries: seq<NotWorking>, d: Declared) {
    && (forall m :: (exists e :: e in entries && e.model == m) <==>
         m != "" && '*' !in m && exists b :: ListedBy(d, b, m))
    && (forall e | e in entries :: e.reason == GatewayUnreachable)
    && (forall e, b | e in entries :: b in e.backends <==> ListedBy(d, b, e.model))
  }

  lemma AllReported(entries: seq<NotWorking>, ix: Index, d: Declared)
    requires IndexOf(ix, d)
    requires forall m :: (exists e :: e in entries && e.model == m) <==> m in ix.owner
    requires forall e | e in entries ::
      e.model in ix.owner && e == NotWorking(e.model, ix.owner[e.model], GatewayUnreachable)
    ensures ReportsAll(entries, d)
  {
    forall b, m ensures Declares(d, b, m) <==> m != "" && ListedBy(d, b, m) {
      ListedIff(d, b, m);
    }
    forall m ensures m in ix.owner <==> m != "" && '*' !in m && exists b :: ListedBy(d, b, m) {
      if m in ix.owner {
        var b :| Declares(d, b, m);
      }
      if b :| m != "" && '*' !in m && ListedBy(d, b, m) {
        assert Declares(d, b, m);
      }
    }
  }

  /** With the gateway away every declared model is listed. */
  method AllNotWorking(ix: Index) returns (entries: seq<NotWorking>)
    ensures forall m :: (exists e :: e in entries && e.model == m) <==> m in ix.owner
    ensures forall e | e in entries ::
      e.model in ix.owner && e == NotWorking(e.model, ix.owner[e.model], GatewayUnreachable)
  {
    entries := [];
    var rest := ix.owner.Keys;
    while rest != {}
      invariant rest <= ix.owner.Keys
      invariant forall m :: (exists e :: e in entries && e.model == m) <==> m in ix.owner && m !in rest
      invariant forall e | e in entries ::
        e.model in ix.owner && e == NotWorking(e.model, ix.owner[e.model], GatewayUnreachable)
      decreases |rest|
    {
      var m :| m in rest;
      rest := rest - {m};
      var e := NotWorking(m, ix.owner[m], GatewayUnreachable);
      assert e in entries + [e];
      entries := entries + [e];
    }
  }

  /** The script's exit status: 2 unreachable, 1 drift, 0 parity. */
  method RunParityCheck(d: Declared, live: Live, advertised: set<string>, reachable: bool, strict: bool)
      returns (exit: nat)
    ensures exit == 0 <==> reachable && InParity(d, live, advertised) && (strict ==> AllDeclared(d, advertised))
    ensures exit == 2 <==> !reachable
    ensures exit <= 2
  {
    var r := ComputeParity(d, live, advertised, reachable, strict);
    exit := if !r.reachable then 2 else if r.drift then 1 else 0;
  }
}
