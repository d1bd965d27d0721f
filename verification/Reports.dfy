/** The two ledger reports: grouping, medians, and what they add up to. */
module Reports {
  import opened Json
  import opened Sums

  // ----- picking from a ledger -----

  /** What `pick` finds in the events, in order. */
  function Collect<E, V>(es: seq<E>, pick: E -> Option<V>): (vs: seq<V>)
    ensures |vs| <= |es|
  {
    if es == [] then []
    else Collect(es[..|es| - 1], pick) + Picked(es[|es| - 1], pick)
  }

  function Picked<E, V>(e: E, pick: E -> Option<V>): seq<V> {
    if pick(e).Some? then [pick(e).value] else []
  }

  lemma CollectSnoc<E, V>(es: seq<E>, e: E, pick: E -> Option<V>)
    ensures Collect(es + [e], pick) == Collect(es, pick) + Picked(e, pick)
  {
    assert (es + [e])[..|es|] == es;
  }

  lemma {:induction false} CollectSplit<E, V>(a: seq<E>, b: seq<E>, pick: E -> Option<V>)
    ensures Collect(a + b, pick) == Collect(a, pick) + Collect(b, pick)
  {
    if b == [] {
      assert a + b == a;
    } else {
      var front, last := b[..|b| - 1], b[|b| - 1];
      assert a + b == (a + front) + [last];
      CollectSnoc(a + front, last, pick);
      CollectSplit(a, front, pick);
    }
  }

  lemma WithoutOne<E>(front: seq<E>, last: E, x: seq<E>, y: seq<E>)
    requires multiset(front + [last]) == multiset(x + [last] + y)
    ensures multiset(front) == multiset(x + y)
  {
    assert multiset(front) == multiset(front + [last]) - multiset{last};
    assert multiset(x + y) == multiset(x + [last] + y) - multiset{last};
  }

  /** Reordering the events only reorders what is picked. */
  lemma {:induction false} CollectPermuted<E, V>(a: seq<E>, b: seq<E>, pick: E -> Option<V>)
    requires multiset(a) == multiset(b)
    ensures multiset(Collect(a, pick)) == multiset(Collect(b, pick))
  {
    if a == [] {
      assert |multiset(b)| == 0;
    } else {
      var front, last := a[..|a| - 1], a[|a| - 1];
      assert a == front + [last] && last in multiset(a);
      var k :| 0 <= k < |b| && b[k] == last;
      var x, y := b[..k], b[k + 1..];
      assert b == x + [last] + y;
      WithoutOne(front, last, x, y);
      CollectPermuted(front, x + y, pick);
      CollectInserted(x, last, y, pick);
      CollectSnoc(front, last, pick);
    }
  }

  lemma CollectInserted<E, V>(x: seq<E>, e: E, y: seq<E>, pick: E -> Option<V>)
    ensures multiset(Collect(x + [e] + y, pick)) == multiset(Collect(x + y, pick)) + multiset(Picked(e, pick))
  {
    CollectSplit(x + [e], y, pick);
    CollectSnoc(x, e, pick);
    CollectSplit(x, y, pick);
  }

  /** Everything is picked from a list of which each member is. */
  lemma {:induction false} CollectAll<E, V>(es: seq<E>, pick: E -> Option<V>)
    requires forall e | e in es :: pick(e).Some?
    ensures |Collect(es, pick)| == |es|
  {
    if es != [] {
      CollectAll(es[..|es| - 1], pick);
    }
  }

  // ----- counting by key -----

  function Under<E>(key: E -> Option<string>, k: string): E -> Option<E> {
    e => if key(e) == Some(k) then Some(e) else None
  }

  function KeyCount<E>(es: seq<E>, key: E -> Option<string>, k: string): nat {
    |Collect(es, Under(key, k))|
  }

  function Counts<E>(es: seq<E>, key: E -> Option<string>, keys: set<string>): map<string, nat> {
    map k | k in keys :: KeyCount(es, key, k)
  }

  lemma KeyCountSnoc<E>(es: seq<E>, e: E, key: E -> Option<string>, k: string)
    ensures KeyCount(es + [e], key, k) == KeyCount(es, key, k) + if key(e) == Some(k) then 1 else 0
  {
    CollectSnoc(es, e, Under(key, k));
  }

  /** Counting each key separately and adding up gives every keyed event once. */
  lemma {:induction false} CountsSum<E>(es: seq<E>, key: E -> Option<string>, keys: set<string>)
    requires forall k | k in Collect(es, key) :: k in keys
    ensures Sum(Counts(es, key, keys)) == |Collect(es, key)|
  {
    if es == [] {
      AllZero(Counts(es, key, keys));
    } else {
      var front, last := es[..|es| - 1], es[|es| - 1];
      assert es == front + [last];
      CountsSum(front, key, keys);
      forall k | k in keys
        ensures KeyCount(es, key, k) == KeyCount(front, key, k) + if key(last) == Some(k) then 1 else 0
      {
        KeyCountSnoc(front, last, key, k);
      }
      if key(last).Some? {
        assert key(last).value in Collect(es, key);
        SumBump(Counts(front, key, keys), Counts(es, key, keys), key(last).value, 1);
      } else {
        assert Counts(es, key, keys) == Counts(front, key, keys);
      }
    }
  }

  // ----- sorting -----

  predicate Ascending(s: seq<real>) {
    forall i, j | 0 <= i < j < |s| :: s[i] <= s[j]
  }

  function Insert(s: seq<real>, x: real): seq<real> {
    if s == [] then [x]
    else if s[|s| - 1] <= x then s + [x]
    else Insert(s[..|s| - 1], x) + [s[|s| - 1]]
  }

  function Sort(s: seq<real>): seq<real> {
    if s == [] then [] else Insert(Sort(s[..|s| - 1]), s[|s| - 1])
  }

  lemma {:induction false} InsertKeepsOrder(s: seq<real>, x: real)
    requires Ascending(s)
    ensures Ascending(Insert(s, x)) && multiset(Insert(s, x)) == multiset(s) + multiset{x}
  {
    if s != [] {
      FrontIsSmaller(s);
      var front, last := s[..|s| - 1], s[|s| - 1];
      if last > x {
        InsertKeepsOrder(front, x);
        AppendLargest(front, x, Insert(front, x), last);
      } else {
        AppendGreater(s, x);
      }
    }
  }

  lemma AppendGreater(s: seq<real>, x: real)
    requires s != [] && Ascending(s) && s[|s| - 1] <= x
    ensures Ascending(s + [x]) && multiset(s + [x]) == multiset(s) + multiset{x}
  {
  }

  lemma FrontIsSmaller(s: seq<real>)
    requires s != [] && Ascending(s)
    ensures var front, last := s[..|s| - 1], s[|s| - 1];
      s == front + [last] && Ascending(front) && forall v | v in front :: v <= last
  {
  }

  lemma AppendLargest(front: seq<real>, x: real, t: seq<real>, last: real)
    requires multiset(t) == multiset(front) + multiset{x} && Ascending(t)
    requires x <= last && forall v | v in front :: v <= last
    ensures Ascending(t + [last]) && multiset(t + [last]) == multiset(front + [last]) + multiset{x}
  {
    forall i | 0 <= i < |t| ensures t[i] <= last {
      assert t[i] in multiset(t);
      if t[i] != x {
        assert multiset(front)[t[i]] > 0;
        assert t[i] in front;
      }
    }
  }

  lemma {:induction false} SortSorts(s: seq<real>)
    ensures Ascending(Sort(s)) && multiset(Sort(s)) == multiset(s)
  {
    if s != [] {
      SortSorts(s[..|s| - 1]);
      InsertKeepsOrder(Sort(s[..|s| - 1]), s[|s| - 1]);
      assert s == s[..|s| - 1] + [s[|s| - 1]];
    }
  }

  lemma SameGreatest(a: seq<real>, b: seq<real>)
    requires Ascending(a) && Ascending(b) && multiset(a) == multiset(b) && a != []
    ensures |a| == |b| && a[|a| - 1] == b[|b| - 1]
  {
    assert |multiset(a)| == |a| && |multiset(b)| == |b|;
    var n := |a| - 1;
    assert a[n] in multiset(b) && b[n] in multiset(a);
    var i :| 0 <= i <= n && b[i] == a[n];
    var j :| 0 <= j <= n && a[j] == b[n];
  }

  /** There is only one way to sort. */
  lemma {:induction false} SortedIsUnique(a: seq<real>, b: seq<real>)
    requires Ascending(a) && Ascending(b) && multiset(a) == multiset(b)
    ensures a == b
  {
    if a == [] {
      assert |multiset(b)| == 0;
    } else {
      SameGreatest(a, b);
      var n := |a| - 1;
      assert a == a[..n] + [a[n]] && b == b[..n] + [b[n]];
      SameFront(a[..n], b[..n], a[n]);
      SortedIsUnique(a[..n], b[..n]);
    }
  }

  lemma SameFront(a: seq<real>, b: seq<real>, last: real)
    requires multiset(a + [last]) == multiset(b + [last])
    ensures multiset(a) == multiset(b)
  {
    assert multiset(a) == multiset(a + [last]) - multiset{last};
    assert multiset(b) == multiset(b + [last]) - multiset{last};
  }

  lemma SortForgetsOrder(a: seq<real>, b: seq<real>)
    requires multiset(a) == multiset(b)
    ensures Sort(a) == Sort(b)
  {
    SortSorts(a);
    SortSorts(b);
    SortedIsUnique(Sort(a), Sort(b));
  }

  method SortNumbers(values: seq<real>) returns (s: seq<real>)
    ensures s == Sort(values)
  {
    s := [];
    for i := 0 to |values|
      invariant s == Sort(values[..i])
    {
      assert values[..i + 1][..i] == values[..i];
      s := Insert(s, values[i]);
    }
    assert values[..|values|] == values;
  }

  // ----- medians -----

  /** The middle value, or the mean of the two middle ones. */
  function Median(s: seq<real>): real
    requires s != []
  {
    var mid := |s| / 2;
    if |s| % 2 == 0 then (s[mid - 1] + s[mid]) / 2.0 else s[mid]
  }

  function Below(x: real): real -> Option<real> {
    v => if v <= x then Some(v) else None
  }

  function Above(x: real): real -> Option<real> {
    v => if v >= x then Some(v) else None
  }

  function AtMost(s: seq<real>, x: real): nat {
    |Collect(s, Below(x))|
  }

  function AtLeast(s: seq<real>, x: real): nat {
    |Collect(s, Above(x))|
  }

  /** At least half the values lie on either side of `x`. */
  predicate Halves(values: seq<real>, x: real) {
    2 * AtMost(values, x) >= |values| && 2 * AtLeast(values, x) >= |values|
  }

  lemma PrefixAtMost(s: seq<real>, k: nat, x: real)
    requires k <= |s| && forall i | 0 <= i < k :: s[i] <= x
    ensures AtMost(s, x) >= k
  {
    assert s == s[..k] + s[k..];
    CollectSplit(s[..k], s[k..], Below(x));
    CollectAll(s[..k], Below(x));
  }

  lemma SuffixAtLeast(s: seq<real>, k: nat, x: real)
    requires k <= |s| && forall i | k <= i < |s| :: s[i] >= x
    ensures AtLeast(s, x) >= |s| - k
  {
    assert s == s[..k] + s[k..];
    CollectSplit(s[..k], s[k..], Above(x));
    CollectAll(s[k..], Above(x));
  }

  lemma HalvesForgetsOrder(a: seq<real>, b: seq<real>, x: real)
    requires multiset(a) == multiset(b)
    ensures Halves(a, x) <==> Halves(b, x)
  {
    CollectPermuted(a, b, Below(x));
    CollectPermuted(a, b, Above(x));
    assert |multiset(a)| == |multiset(b)|;
    assert |multiset(Collect(a, Below(x)))| == |multiset(Collect(b, Below(x)))|;
    assert |multiset(Collect(a, Above(x)))| == |multiset(Collect(b, Above(x)))|;
  }

  /** Any value between the two middle ones halves the samples. */
  lemma MiddleHalves(values: seq<real>, s: seq<real>, x: real)
    requires s != [] && Ascending(s) && multiset(s) == multiset(values)
    requires s[(|s| - 1) / 2] <= x <= s[|s| / 2]
    ensures Halves(values, x)
  {
    PrefixAtMost(s, (|s| - 1) / 2 + 1, x);
    SuffixAtLeast(s, |s| / 2, x);
    HalvesForgetsOrder(s, values, x);
  }

  lemma SortKeepsLength(values: seq<real>)
    ensures |Sort(values)| == |values|
  {
    SortSorts(values);
    assert |multiset(Sort(values))| == |multiset(values)|;
  }

  /** The median of sorted samples lies between the extremes, which are the least
    * and the greatest sample, and halves them. */
  lemma MedianIsCentral(values: seq<real>, s: seq<real>)
    requires s != [] && Ascending(s) && multiset(s) == multiset(values)
    ensures Halves(values, Median(s)) && s[0] <= Median(s) <= s[|s| - 1]
    ensures s[0] in values && s[|s| - 1] in values && forall v | v in values :: s[0] <= v <= s[|s| - 1]
  {
    assert s[(|s| - 1) / 2] <= Median(s) <= s[|s| / 2] && s[0] <= s[(|s| - 1) / 2] && s[|s| / 2] <= s[|s| - 1];
    MiddleHalves(values, s, Median(s));
    assert s[0] in multiset(values) && s[|s| - 1] in multiset(values);
    forall v | v in values ensures s[0] <= v <= s[|s| - 1] {
      assert v in multiset(s);
    }
  }

  /** JavaScript's rounding: to the nearest integer, halves upward. */
  function Round(x: real): int {
    (x + 0.5).Floor
  }

  /** Rounding the mean of two values stays between them exactly when an integer lies between them. */
  lemma RoundedMeanStaysIff(a: real, b: real)
    requires a <= b
    ensures a <= Round((a + b) / 2.0) as real <= b <==> a <= b.Floor as real
  {
    var m := (a + b) / 2.0;
    var r := Round(m);
    assert r as real <= m + 0.5 < r as real + 1.0;
    var n := b.Floor;
    assert r <= n || r as real >= n as real + 1.0;
    assert r >= n || r as real + 1.0 <= n as real;
  }

  // ----- bytes per token -----

  /** Ledger lines as the ratio report reads them: names that are missing are "",
    * ratios that are not finite numbers are `None`. */
  datatype RatioEvent =
    | Skipped(reason: string)
    | Sample(model: string, bytesPerToken: Option<real>)
    | Unrelated

  const UNNAMED := "unknown"

  function SkipReason(e: RatioEvent): Option<string> {
    if !e.Skipped? then None else if e.reason != "" then Some(e.reason) else Some(UNNAMED)
  }

  function SampledModel(e: RatioEvent): Option<string> {
    if e.Sample? && e.bytesPerToken.Some? && e.model != "" then Some(e.model) else None
  }

  function RatioFor(model: string): RatioEvent -> Option<real> {
    e => if SampledModel(e) == Some(model) then e.bytesPerToken else None
  }

  datatype ModelRow = ModelRow(samples: nat, median: real, min: real, max: real, driftFrom4: real, confident: bool)

  const ASSUMED_BYTES_PER_TOKEN := 4.0
  const MIN_CONFIDENT_SAMPLES := 30

  function RowOf(s: seq<real>): ModelRow
    requires s != []
  {
    ModelRow(|s|, Median(s), s[0], s[|s| - 1], (Median(s) - ASSUMED_BYTES_PER_TOKEN) / ASSUMED_BYTES_PER_TOKEN,
      |s| >= MIN_CONFIDENT_SAMPLES)
  }

  datatype RatioReport = RatioReport(models: map<string, ModelRow>, skipped: map<string, nat>, skippedTotal: nat)

  /** The samples of one model, in ledger order, under its name exactly when there are any. */
  predicate GroupOk(byModel: map<string, seq<real>>, es: seq<RatioEvent>, m: string) {
    var values := Collect(es, RatioFor(m));
    if m in byModel then byModel[m] == values && values != [] else values == []
  }

  ghost predicate GroupsRatios(byModel: map<string, seq<real>>, es: seq<RatioEvent>) {
    forall m :: GroupOk(byModel, es, m)
  }

  /** A key's count, there exactly when it is not 0. */
  predicate CountOk<E>(counts: map<string, nat>, es: seq<E>, key: E -> Option<string>, k: string) {
    var n := KeyCount(es, key, k);
    if k in counts then counts[k] == n && n > 0 else n == 0
  }

  ghost predicate CountsEach<E(!new)>(counts: map<string, nat>, es: seq<E>, key: E -> Option<string>) {
    forall k :: CountOk(counts, es, key, k)
  }

  /** One model's row: there exactly when it has samples. */
  predicate RatioRowOk(models: map<string, ModelRow>, es: seq<RatioEvent>, m: string) {
    var s := Sort(Collect(es, RatioFor(m)));
    if m in models then s != [] && models[m] == RowOf(s) else s == []
  }

  ghost predicate SummarisesRatios(r: RatioReport, es: seq<RatioEvent>) {
    && CountsEach(r.skipped, es, SkipReason) && r.skippedTotal == |Collect(es, SkipReason)|
    && forall m :: RatioRowOk(r.models, es, m)
  }

  function Bumped(counts: map<string, nat>, k: string): map<string, nat> {
    counts[k := (if k in counts then counts[k] else 0) + 1]
  }

  lemma {:induction false} SeenIsCounted<E>(es: seq<E>, key: E -> Option<string>, k: string)
    ensures k in Collect(es, key) <==> KeyCount(es, key, k) > 0
  {
    if es != [] {
      var front, last := es[..|es| - 1], es[|es| - 1];
      assert es == front + [last];
      KeyCountSnoc(front, last, key, k);
      SeenIsCounted(front, key, k);
    }
  }

  lemma CountSnoc<E>(counts: map<string, nat>, es: seq<E>, e: E, key: E -> Option<string>, k: string)
    requires CountOk(counts, es, key, k)
    ensures CountOk(if key(e).Some? then Bumped(counts, key(e).value) else counts, es + [e], key, k)
  {
    KeyCountSnoc(es, e, key, k);
  }

  /** One more keyed event raises its key's count by one. */
  lemma CountsSnoc<E(!new)>(counts: map<string, nat>, es: seq<E>, e: E, key: E -> Option<string>)
    requires CountsEach(counts, es, key)
    ensures CountsEach(if key(e).Some? then Bumped(counts, key(e).value) else counts, es + [e], key)
  {
    var next, after := if key(e).Some? then Bumped(counts, key(e).value) else counts, es + [e];
    forall k ensures CountOk(next, after, key, k) {
      CountSnoc(counts, es, e, key, k);
    }
  }

  function WithRatio(byModel: map<string, seq<real>>, m: string, v: real): map<string, seq<real>> {
    byModel[m := (if m in byModel then byModel[m] else []) + [v]]
  }

  function Grouped(byModel: map<string, seq<real>>, e: RatioEvent): map<string, seq<real>> {
    if SampledModel(e).Some? then WithRatio(byModel, e.model, e.bytesPerToken.value) else byModel
  }

  lemma GroupSnoc(byModel: map<string, seq<real>>, es: seq<RatioEvent>, e: RatioEvent, m: string)
    requires GroupOk(byModel, es, m)
    ensures GroupOk(Grouped(byModel, e), es + [e], m)
  {
    CollectSnoc(es, e, RatioFor(m));
  }

  lemma GroupsSnoc(byModel: map<string, seq<real>>, es: seq<RatioEvent>, e: RatioEvent)
    requires GroupsRatios(byModel, es)
    ensures GroupsRatios(Grouped(byModel, e), es + [e])
  {
    var next, after := Grouped(byModel, e), es + [e];
    forall m ensures GroupOk(next, after, m) {
      GroupSnoc(byModel, es, e, m);
    }
  }

  /** The report is the skip counts, and a row of each model's sorted samples. */
  method SummariseRatios(events: seq<RatioEvent>) returns (r: RatioReport)
    ensures SummarisesRatios(r, events)
  {
    var byModel, skipped, skippedTotal := map[], map[], 0;
    for i := 0 to |events|
      invariant GroupsRatios(byModel, events[..i]) && CountsEach(skipped, events[..i], SkipReason)
      invariant skippedTotal == |Collect(events[..i], SkipReason)|
    {
      var e := events[i];
      assert events[..i + 1] == events[..i] + [e];
      CountsSnoc(skipped, events[..i], e, SkipReason);
      CollectSnoc(events[..i], e, SkipReason);
      GroupsSnoc(byModel, events[..i], e);
      match e {
        case Skipped(reason) =>
          skipped, skippedTotal := Bumped(skipped, if reason != "" then reason else UNNAMED), skippedTotal + 1;
        case Sample(model, ratio) =>
          if ratio.Some? && model != "" {
            byModel := WithRatio(byModel, model, ratio.value);
          }
        case Unrelated =>
      }
    }
    assert events[..|events|] == events;
    var models := RatioRows(byModel, events);
    r := RatioReport(models, skipped, skippedTotal);
  }

  method RatioRows(byModel: map<string, seq<real>>, ghost es: seq<RatioEvent>) returns (models: map<string, ModelRow>)
    requires GroupsRatios(byModel, es)
    ensures forall m :: RatioRowOk(models, es, m)
  {
    models := map[];
    var rest := byModel.Keys;
    while rest != {}
      invariant rest <= byModel.Keys && models.Keys == byModel.Keys - rest
      invariant forall m | m in models :: RatioRowOk(models, es, m)
      decreases |rest|
    {
      var m :| m in rest;
      rest := rest - {m};
      assert GroupOk(byModel, es, m);
      var s := SortNumbers(byModel[m]);
      SortKeepsLength(byModel[m]);
      models := models[m := RowOf(s)];
    }
    forall m ensures RatioRowOk(models, es, m) {
      assert GroupOk(byModel, es, m);
    }
  }

  lemma SameLength<E, V>(a: seq<E>, b: seq<E>, pick: E -> Option<V>)
    requires multiset(a) == multiset(b)
    ensures |Collect(a, pick)| == |Collect(b, pick)|
  {
    CollectPermuted(a, b, pick);
    assert |multiset(Collect(a, pick))| == |multiset(Collect(b, pick))|;
  }

  lemma SameCount<E>(a: seq<E>, b: seq<E>, key: E -> Option<string>, m: map<string, nat>, n: map<string, nat>,
                     k: string)
    requires multiset(a) == multiset(b) && CountOk(m, a, key, k) && CountOk(n, b, key, k)
    ensures if k in m then k in n && m[k] == n[k] else k !in n
  {
    SameLength(a, b, Under(key, k));
  }

  lemma SameRatioRow(a: seq<RatioEvent>, b: seq<RatioEvent>, r: map<string, ModelRow>, q: map<string, ModelRow>,
                     m: string)
    requires multiset(a) == multiset(b) && RatioRowOk(r, a, m) && RatioRowOk(q, b, m)
    ensures if m in r then m in q && r[m] == q[m] else m !in q
  {
    CollectPermuted(a, b, RatioFor(m));
    SortForgetsOrder(Collect(a, RatioFor(m)), Collect(b, RatioFor(m)));
  }

  /** Reordering the ledger leaves the report as it is. */
  lemma RatiosForgetOrder(a: seq<RatioEvent>, b: seq<RatioEvent>, r: RatioReport, q: RatioReport)
    requires multiset(a) == multiset(b) && SummarisesRatios(r, a) && SummarisesRatios(q, b)
    ensures r == q
  {
    SameLength(a, b, SkipReason);
    forall k ensures if k in r.skipped then k in q.skipped && r.skipped[k] == q.skipped[k] else k !in q.skipped {
      SameCount(a, b, SkipReason, r.skipped, q.skipped, k);
    }
    forall m ensures if m in r.models then m in q.models && r.models[m] == q.models[m] else m !in q.models {
      SameRatioRow(a, b, r.models, q.models, m);
    }
  }

  /** Each row's median is central among that model's samples, and its extremes are theirs. */
  lemma RowsAreCentral(r: RatioReport, es: seq<RatioEvent>, m: string)
    requires SummarisesRatios(r, es) && m in r.models
    ensures var values, row := Collect(es, RatioFor(m)), r.models[m];
      && row.samples == |values| && Halves(values, row.median)
      && row.min <= row.median <= row.max
      && row.min in values && row.max in values && forall v | v in values :: row.min <= v <= row.max
  {
    var values := Collect(es, RatioFor(m));
    assert RatioRowOk(r.models, es, m);
    SortSorts(values);
    SortKeepsLength(values);
    MedianIsCentral(values, Sort(values));
  }

  lemma EachSum<E(!new)>(counts: map<string, nat>, es: seq<E>, key: E -> Option<string>)
    requires CountsEach(counts, es, key)
    ensures Sum(counts) == |Collect(es, key)|
  {
    forall k ensures CountOk(counts, es, key, k) && (k in Collect(es, key) <==> k in counts) {
      SeenIsCounted(es, key, k);
    }
    CountsSum(es, key, counts.Keys);
    assert counts == Counts(es, key, counts.Keys);
  }

  lemma {:induction false} SamplesAreCounted(es: seq<RatioEvent>, m: string)
    ensures |Collect(es, RatioFor(m))| == KeyCount(es, SampledModel, m)
  {
    if es != [] {
      var front, last := es[..|es| - 1], es[|es| - 1];
      assert es == front + [last];
      SamplesAreCounted(front, m);
      KeyCountSnoc(front, last, SampledModel, m);
    }
  }

  function SampleCounts(models: map<string, ModelRow>): map<string, nat> {
    map m | m in models :: models[m].samples
  }

  lemma SampleCountsAre(r: RatioReport, es: seq<RatioEvent>)
    requires SummarisesRatios(r, es)
    ensures CountsEach(SampleCounts(r.models), es, SampledModel)
  {
    var counts := SampleCounts(r.models);
    forall m ensures CountOk(counts, es, SampledModel, m) {
      assert RatioRowOk(r.models, es, m);
      SamplesAreCounted(es, m);
      SortKeepsLength(Collect(es, RatioFor(m)));
    }
  }

  /** Skips by reason add up to the total, and samples by model to the usable sample lines. */
  lemma RatioCountsAddUp(r: RatioReport, es: seq<RatioEvent>)
    requires SummarisesRatios(r, es)
    ensures Sum(r.skipped) == r.skippedTotal
    ensures Sum(SampleCounts(r.models)) == |Collect(es, SampledModel)|
  {
    EachSum(r.skipped, es, SkipReason);
    SampleCountsAre(r, es);
    EachSum(SampleCounts(r.models), es, SampledModel);
  }

  // ----- semantic cache -----

  datatype CacheEvent = Shadow(category: string, hit: bool, embedMs: Option<real>) | Other

  function Category(e: CacheEvent): Option<string> {
    if !e.Shadow? then None else if e.category != "" then Some(e.category) else Some(UNNAMED)
  }

  function HitCategory(e: CacheEvent): Option<string> {
    if e.Shadow? && e.hit then Category(e) else None
  }

  function EmbedTime(e: CacheEvent): Option<real> {
    if e.Shadow? then e.embedMs else None
  }

  datatype CategoryRow = CategoryRow(observed: nat, wouldHit: nat)

  datatype CacheReport = CacheReport(observed: nat, wouldHit: nat, hitRate: Option<real>, medianEmbedMs: Option<real>,
                                     byCategory: map<string, CategoryRow>)

  /** The middle time, or the rounded mean of the two middle ones. */
  function RoundedMedian(s: seq<real>): Option<real> {
    if s == [] then None
    else if |s| % 2 == 0 then Some(Round(Median(s)) as real) else Some(Median(s))
  }

  /** A category's row: there exactly when the category was observed, with both counts. */
  predicate RowOk(byCategory: map<string, CategoryRow>, es: seq<CacheEvent>, c: string) {
    var observed := KeyCount(es, Category, c);
    if c in byCategory
    then observed > 0 && byCategory[c] == CategoryRow(observed, KeyCount(es, HitCategory, c)) else observed == 0
  }

  ghost predicate CountsCategories(byCategory: map<string, CategoryRow>, es: seq<CacheEvent>) {
    forall c :: RowOk(byCategory, es, c)
  }

  function Rate(hits: nat, seen: nat): Option<real> {
    if seen == 0 then None else Some(hits as real / seen as real)
  }

  ghost predicate SummarisesCache(r: CacheReport, es: seq<CacheEvent>) {
    && CountsCategories(r.byCategory, es)
    && r.observed == |Collect(es, Category)| && r.wouldHit == |Collect(es, HitCategory)|
    && r.hitRate == Rate(r.wouldHit, r.observed)
    && r.medianEmbedMs == RoundedMedian(Sort(Collect(es, EmbedTime)))
  }

  function Observed(byCategory: map<string, CategoryRow>, c: string, hit: bool): map<string, CategoryRow> {
    var row := if c in byCategory then byCategory[c] else CategoryRow(0, 0);
    byCategory[c := CategoryRow(row.observed + 1, row.wouldHit + if hit then 1 else 0)]
  }

  lemma RowSnoc(byCategory: map<string, CategoryRow>, es: seq<CacheEvent>, e: CacheEvent, c: string)
    requires RowOk(byCategory, es, c)
    ensures RowOk(if e.Shadow? then Observed(byCategory, Category(e).value, e.hit) else byCategory, es + [e], c)
  {
    KeyCountSnoc(es, e, Category, c);
    KeyCountSnoc(es, e, HitCategory, c);
    HitsAreObserved(es, c);
  }

  lemma CategoriesSnoc(byCategory: map<string, CategoryRow>, es: seq<CacheEvent>, e: CacheEvent)
    requires CountsCategories(byCategory, es)
    ensures CountsCategories(if e.Shadow? then Observed(byCategory, Category(e).value, e.hit) else byCategory, es + [e])
  {
    var next, after := if e.Shadow? then Observed(byCategory, Category(e).value, e.hit) else byCategory, es + [e];
    forall c ensures RowOk(next, after, c) {
      RowSnoc(byCategory, es, e, c);
    }
  }

  /** Only what is observed can hit. */
  lemma {:induction false} HitsAreObserved(es: seq<CacheEvent>, c: string)
    ensures KeyCount(es, HitCategory, c) <= KeyCount(es, Category, c)
    ensures |Collect(es, HitCategory)| <= |Collect(es, Category)|
  {
    if es != [] {
      var front, last := es[..|es| - 1], es[|es| - 1];
      assert es == front + [last];
      KeyCountSnoc(front, last, Category, c);
      KeyCountSnoc(front, last, HitCategory, c);
      HitsAreObserved(front, c);
    }
  }

  /** What the loop of the report keeps. */
  ghost predicate Tallied(byCategory: map<string, CategoryRow>, times: seq<real>, observed: nat, wouldHit: nat,
                          es: seq<CacheEvent>) {
    && CountsCategories(byCategory, es) && times == Collect(es, EmbedTime)
    && observed == |Collect(es, Category)| && wouldHit == |Collect(es, HitCategory)|
  }

  method TallyEvent(was: map<string, CategoryRow>, wasTimes: seq<real>, seen: nat, hits: nat, e: CacheEvent,
                    ghost es: seq<CacheEvent>)
    returns (byCategory: map<string, CategoryRow>, times: seq<real>, observed: nat, wouldHit: nat)
    requires Tallied(was, wasTimes, seen, hits, es)
    ensures Tallied(byCategory, times, observed, wouldHit, es + [e])
  {
    byCategory, times, observed, wouldHit := was, wasTimes, seen, hits;
    CategoriesSnoc(was, es, e);
    CollectSnoc(es, e, EmbedTime);
    CollectSnoc(es, e, Category);
    CollectSnoc(es, e, HitCategory);
    if e.Shadow? {
      byCategory := Observed(byCategory, if e.category != "" then e.category else UNNAMED, e.hit);
      observed := observed + 1;
      if e.hit {
        wouldHit := wouldHit + 1;
      }
      if e.embedMs.Some? {
        times := times + [e.embedMs.value];
      }
    }
  }

  method Summarise(events: seq<CacheEvent>) returns (r: CacheReport)
    ensures SummarisesCache(r, events)
  {
    var byCategory, embedTimes, observed, wouldHit := map[], [], 0, 0;
    for i := 0 to |events|
      invariant Tallied(byCategory, embedTimes, observed, wouldHit, events[..i])
    {
      assert events[..i + 1] == events[..i] + [events[i]];
      byCategory, embedTimes, observed, wouldHit :=
        TallyEvent(byCategory, embedTimes, observed, wouldHit, events[i], events[..i]);
    }
    assert events[..|events|] == events;
    var sorted := SortNumbers(embedTimes);
    r := CacheReport(observed, wouldHit, Rate(wouldHit, observed),
      RoundedMedian(sorted), byCategory);
  }

  lemma SameRow(a: seq<CacheEvent>, b: seq<CacheEvent>, r: map<string, CategoryRow>, q: map<string, CategoryRow>,
                c: string)
    requires multiset(a) == multiset(b) && RowOk(r, a, c) && RowOk(q, b, c)
    ensures if c in r then c in q && r[c] == q[c] else c !in q
  {
    SameLength(a, b, Under(Category, c));
    SameLength(a, b, Under(HitCategory, c));
  }

  lemma SameCategories(a: seq<CacheEvent>, b: seq<CacheEvent>, r: map<string, CategoryRow>, q: map<string, CategoryRow>)
    requires multiset(a) == multiset(b) && CountsCategories(r, a) && CountsCategories(q, b)
    ensures r == q
  {
    forall c ensures if c in r then c in q && r[c] == q[c] else c !in q {
      SameRow(a, b, r, q, c);
    }
  }

  /** Reordering the ledger leaves the report as it is. */
  lemma CacheForgetsOrder(a: seq<CacheEvent>, b: seq<CacheEvent>, r: CacheReport, q: CacheReport)
    requires multiset(a) == multiset(b) && SummarisesCache(r, a) && SummarisesCache(q, b)
    ensures r == q
  {
    SameLength(a, b, Category);
    SameLength(a, b, HitCategory);
    SameCategories(a, b, r.byCategory, q.byCategory);
    CollectPermuted(a, b, EmbedTime);
    SortForgetsOrder(Collect(a, EmbedTime), Collect(b, EmbedTime));
  }

  function ObservedCounts(byCategory: map<string, CategoryRow>): map<string, nat> {
    map c | c in byCategory :: byCategory[c].observed
  }

  function HitCounts(byCategory: map<string, CategoryRow>): map<string, nat> {
    map c | c in byCategory :: byCategory[c].wouldHit
  }

  lemma RowsAreCounts(byCategory: map<string, CategoryRow>, es: seq<CacheEvent>)
    requires CountsCategories(byCategory, es)
    ensures ObservedCounts(byCategory) == Counts(es, Category, byCategory.Keys)
    ensures HitCounts(byCategory) == Counts(es, HitCategory, byCategory.Keys)
  {
    forall c | c in byCategory
      ensures byCategory[c] == CategoryRow(KeyCount(es, Category, c), KeyCount(es, HitCategory, c)) {
      assert RowOk(byCategory, es, c);
    }
  }

  lemma SeenHasRow(byCategory: map<string, CategoryRow>, es: seq<CacheEvent>, k: string)
    requires CountsCategories(byCategory, es) && (k in Collect(es, Category) || k in Collect(es, HitCategory))
    ensures k in byCategory
  {
    assert RowOk(byCategory, es, k);
    SeenIsCounted(es, Category, k);
    SeenIsCounted(es, HitCategory, k);
    HitsAreObserved(es, k);
  }

  /** Categories add up to the totals, and would-hits never exceed what was observed. */
  lemma CacheCountsAddUp(r: CacheReport, es: seq<CacheEvent>)
    requires SummarisesCache(r, es)
    ensures Sum(ObservedCounts(r.byCategory)) == r.observed && Sum(HitCounts(r.byCategory)) == r.wouldHit
    ensures r.wouldHit <= r.observed && forall c | c in r.byCategory ::
      r.byCategory[c].wouldHit <= r.byCategory[c].observed
  {
    RowsAreCounts(r.byCategory, es);
    forall k | k in Collect(es, Category) || k in Collect(es, HitCategory) ensures k in r.byCategory {
      SeenHasRow(r.byCategory, es, k);
    }
    CountsSum(es, Category, r.byCategory.Keys);
    CountsSum(es, HitCategory, r.byCategory.Keys);
    HitsAreObserved(es, UNNAMED);
    forall c | c in r.byCategory ensures r.byCategory[c].wouldHit <= r.byCategory[c].observed {
      assert RowOk(r.byCategory, es, c);
      HitsAreObserved(es, c);
    }
  }

  lemma RoundedMedianStaysInside(s: seq<real>)
    requires s != [] && Ascending(s) && s[|s| / 2].Floor as real == s[|s| / 2]
    ensures s[(|s| - 1) / 2] <= RoundedMedian(s).value <= s[|s| / 2]
  {
    RoundedMeanStaysIff(s[(|s| - 1) / 2], s[|s| / 2]);
  }

  /** For whole milliseconds the rounded median still halves the times and lies between the middle two. */
  lemma RoundedMedianIsCentral(r: CacheReport, es: seq<CacheEvent>)
    requires SummarisesCache(r, es) && Collect(es, EmbedTime) != []
    requires forall t | t in Collect(es, EmbedTime) :: t.Floor as real == t
    ensures var times := Collect(es, EmbedTime);
      var s := Sort(times);
      && |s| == |times| && r.medianEmbedMs.Some?
      && s[(|s| - 1) / 2] <= r.medianEmbedMs.value <= s[|s| / 2]
      && Halves(times, r.medianEmbedMs.value)
  {
    var times := Collect(es, EmbedTime);
    SortSorts(times);
    SortKeepsLength(times);
    CentralTime(times, Sort(times));
  }

  lemma CentralTime(times: seq<real>, s: seq<real>)
    requires s != [] && Ascending(s) && multiset(s) == multiset(times)
    requires forall t | t in times :: t.Floor as real == t
    ensures RoundedMedian(s).Some?
    ensures s[(|s| - 1) / 2] <= RoundedMedian(s).value <= s[|s| / 2] && Halves(times, RoundedMedian(s).value)
  {
    assert s[|s| / 2] in multiset(times);
    RoundedMedianStaysInside(s);
    MiddleHalves(times, s, RoundedMedian(s).value);
  }

  // ----- the same, said of the ledger's lines alone -----

  /** Places where `pick` finds `v`. */
  function PlacesOf<E, V(==)>(es: seq<E>, pick: E -> Option<V>, v: V): set<int> {
    set k | 0 <= k < |es| && pick(es[k]) == Some(v)
  }

  function PlacesFound<E, V>(es: seq<E>, pick: E -> Option<V>): set<int> {
    set k | 0 <= k < |es| && pick(es[k]).Some?
  }

  lemma PlacesOfSnoc<E, V>(es: seq<E>, e: E, pick: E -> Option<V>, v: V)
    ensures |es| !in PlacesOf(es, pick, v) && |es| !in PlacesFound(es, pick)
    ensures PlacesOf(es + [e], pick, v) == PlacesOf(es, pick, v) + if pick(e) == Some(v) then {|es|} else {}
    ensures PlacesFound(es + [e], pick) == PlacesFound(es, pick) + if pick(e).Some? then {|es|} else {}
  {
    var all := es + [e];
    assert all[|es|] == e && forall k | 0 <= k < |es| :: all[k] == es[k];
  }

  /** How often a value is picked is the number of places where it is found. */
  lemma {:induction false} PickedAsOften<E, V>(es: seq<E>, pick: E -> Option<V>, v: V)
    ensures multiset(Collect(es, pick))[v] == |PlacesOf(es, pick, v)|
    ensures |Collect(es, pick)| == |PlacesFound(es, pick)|
  {
    if es != [] {
      var front, e := es[..|es| - 1], es[|es| - 1];
      assert es == front + [e];
      PickedAsOften(front, pick, v);
      PlacesOfSnoc(front, e, pick, v);
    }
  }

  predicate InOrder(s: seq<real>) {
    forall i, j | 0 <= i < j < |s| :: s[i] <= s[j]
  }

  /** `s` lists in order the values found at the given places, each as often as it is found. */
  ghost predicate ListsInOrder(s: seq<real>, places: real -> set<int>) {
    InOrder(s) && forall v :: multiset(s)[v] == |places(v)|
  }

  lemma SortedIsTheList<E>(es: seq<E>, pick: E -> Option<real>, s: seq<real>, places: real -> set<int>)
    requires ListsInOrder(s, places) && forall v :: places(v) == PlacesOf(es, pick, v)
    ensures s == Sort(Collect(es, pick))
  {
    var values := Collect(es, pick);
    SortSorts(values);
    forall v: real ensures multiset(s)[v] == multiset(values)[v] {
      PickedAsOften(es, pick, v);
      assert |places(v)| == |PlacesOf(es, pick, v)|;
    }
    assert multiset(s) == multiset(values);
    SortedIsUnique(s, Sort(values));
  }

  /** The lines that carry a ratio for a model. */
  function RatioLines(es: seq<RatioEvent>, m: string): real -> set<int> {
    v => set k | 0 <= k < |es| && es[k] == Sample(m, Some(v))
  }

  lemma RatioLinesAre(es: seq<RatioEvent>, m: string, v: real)
    requires m != ""
    ensures PlacesOf(es, RatioFor(m), v) == RatioLines(es, m)(v)
  {
  }

  lemma RatioLinesAreAll(es: seq<RatioEvent>, m: string)
    requires m != ""
    ensures forall v :: RatioLines(es, m)(v) == PlacesOf(es, RatioFor(m), v)
  {
    forall v ensures RatioLines(es, m)(v) == PlacesOf(es, RatioFor(m), v) {
      RatioLinesAre(es, m, v);
    }
  }

  lemma RowNumbers(s: seq<real>)
    requires s != []
    ensures var row := RowOf(s);
      && row.samples == |s| && row.min == s[0] && row.max == s[|s| - 1]
      && 2.0 * row.median == s[(|s| - 1) / 2] + s[|s| / 2]
      && row.driftFrom4 == (row.median - 4.0) / 4.0
      && (row.confident <==> |s| >= 30)
  {
    assert |s| % 2 == 0 ==> (|s| - 1) / 2 == |s| / 2 - 1;
    assert |s| % 2 == 1 ==> (|s| - 1) / 2 == |s| / 2;
  }

  /** Only a named model has a row. */
  lemma RowsAreNamed(r: RatioReport, es: seq<RatioEvent>)
    requires SummarisesRatios(r, es)
    ensures "" !in r.models
  {
    assert RatioRowOk(r.models, es, "");
    NoRatioWithoutName(es);
  }

  lemma {:induction false} NoRatioWithoutName(es: seq<RatioEvent>)
    ensures Collect(es, RatioFor("")) == []
  {
    if es != [] {
      NoRatioWithoutName(es[..|es| - 1]);
    }
  }

  /** A row in numbers, for the model's ratios in order: the median is the mean of the two middle ones, which
    * for an odd count are the same. A model without ratios has no row. */
  lemma RowIs(r: RatioReport, es: seq<RatioEvent>, m: string, s: seq<real>)
    requires SummarisesRatios(r, es) && m != "" && ListsInOrder(s, RatioLines(es, m))
    ensures m in r.models <==> s != []
    ensures m in r.models ==>
      var row := r.models[m];
      && row.samples == |s| && row.min == s[0] && row.max == s[|s| - 1]
      && 2.0 * row.median == s[(|s| - 1) / 2] + s[|s| / 2]
      && row.driftFrom4 == (row.median - 4.0) / 4.0
      && (row.confident <==> |s| >= 30)
  {
    RatioLinesAreAll(es, m);
    SortedIsTheList(es, RatioFor(m), s, RatioLines(es, m));
    assert RatioRowOk(r.models, es, m);
    if s != [] {
      RowNumbers(s);
    }
  }

  predicate SkippedFor(e: RatioEvent, reason: string) {
    e.Skipped? && if e.reason == "" then reason == "unknown" else reason == e.reason
  }

  lemma SkipPlaces(es: seq<RatioEvent>, reason: string)
    ensures PlacesFound(es, SkipReason) == set k | 0 <= k < |es| && es[k].Skipped?
    ensures PlacesOf(es, SkipReason, reason) == set k | 0 <= k < |es| && SkippedFor(es[k], reason)
  {
    assert forall e: RatioEvent :: SkipReason(e) == Some(reason) <==> SkippedFor(e, reason);
  }

  /** Skips by reason: each reason's lines counted, those without one as "unknown". */
  lemma SkipsAre(r: RatioReport, es: seq<RatioEvent>, reason: string)
    requires SummarisesRatios(r, es)
    ensures r.skippedTotal == |set k | 0 <= k < |es| && es[k].Skipped?|
    ensures var lines := set k | 0 <= k < |es| && SkippedFor(es[k], reason);
      if reason in r.skipped then lines != {} && r.skipped[reason] == |lines| else lines == {}
  {
    PickedAsOften(es, SkipReason, reason);
    CountedAsOften(es, SkipReason, reason);
    SkipPlaces(es, reason);
    assert CountOk(r.skipped, es, SkipReason, reason);
  }

  lemma {:induction false} CountedAsOften<E>(es: seq<E>, key: E -> Option<string>, k: string)
    ensures KeyCount(es, key, k) == |PlacesOf(es, key, k)|
  {
    if es != [] {
      var front, e := es[..|es| - 1], es[|es| - 1];
      assert es == front + [e];
      CountedAsOften(front, key, k);
      PlacesOfSnoc(front, e, key, k);
      KeyCountSnoc(front, e, key, k);
    }
  }

  predicate InCategory(e: CacheEvent, c: string) {
    e.Shadow? && if e.category == "" then c == "unknown" else c == e.category
  }

  lemma CachePlaces(es: seq<CacheEvent>)
    ensures PlacesFound(es, Category) == set k | 0 <= k < |es| && es[k].Shadow?
    ensures PlacesFound(es, HitCategory) == set k | 0 <= k < |es| && es[k].Shadow? && es[k].hit
  {
    assert forall e: CacheEvent :: Category(e).Some? <==> e.Shadow?;
    assert forall e: CacheEvent :: HitCategory(e).Some? <==> e.Shadow? && e.hit;
  }

  /** The cache report's counts, line by line. */
  lemma CacheCountsAre(r: CacheReport, es: seq<CacheEvent>)
    requires SummarisesCache(r, es)
    ensures r.observed == |set k | 0 <= k < |es| && es[k].Shadow?|
    ensures r.wouldHit == |set k | 0 <= k < |es| && es[k].Shadow? && es[k].hit|
  {
    PickedAsOften(es, Category, "");
    PickedAsOften(es, HitCategory, "");
    CachePlaces(es);
  }

  /** Would-hits per observation, and absent without any. */
  predicate IsRate(rate: Option<real>, hits: nat, seen: nat) {
    if seen == 0 then rate == None else rate.Some? && rate.value * seen as real == hits as real
  }

  lemma RateIs(hits: nat, seen: nat)
    ensures IsRate(Rate(hits, seen), hits, seen)
  {
  }

  lemma HitRateIs(r: CacheReport, es: seq<CacheEvent>)
    requires SummarisesCache(r, es)
    ensures IsRate(r.hitRate, r.wouldHit, r.observed)
  {
    RateIs(r.wouldHit, r.observed);
  }

  lemma CategoryPlaces(es: seq<CacheEvent>, c: string)
    ensures PlacesOf(es, Category, c) == set k | 0 <= k < |es| && InCategory(es[k], c)
    ensures PlacesOf(es, HitCategory, c) == set k | 0 <= k < |es| && InCategory(es[k], c) && es[k].hit
  {
    assert forall e: CacheEvent :: Category(e) == Some(c) <==> InCategory(e, c);
    assert forall e: CacheEvent :: HitCategory(e) == Some(c) <==> InCategory(e, c) && e.hit;
  }

  /** One category: there exactly when some line falls into it. */
  lemma CategoryIs(r: CacheReport, es: seq<CacheEvent>, c: string)
    requires SummarisesCache(r, es)
    ensures var lines := set k | 0 <= k < |es| && InCategory(es[k], c);
      if c in r.byCategory then
        && lines != {} && r.byCategory[c].observed == |lines|
        && r.byCategory[c].wouldHit == |set k | 0 <= k < |es| && InCategory(es[k], c) && es[k].hit|
      else lines == {}
  {
    CountedAsOften(es, Category, c);
    CountedAsOften(es, HitCategory, c);
    CategoryPlaces(es, c);
    assert RowOk(r.byCategory, es, c);
  }

  function TimeLines(es: seq<CacheEvent>): real -> set<int> {
    t => set k | 0 <= k < |es| && es[k].Shadow? && es[k].embedMs == Some(t)
  }

  lemma TimeLinesAre(es: seq<CacheEvent>)
    ensures forall t :: TimeLines(es)(t) == PlacesOf(es, EmbedTime, t)
  {
    assert forall e: CacheEvent, t :: EmbedTime(e) == Some(t) <==> e.Shadow? && e.embedMs == Some(t);
  }

  /** The whole number nearest half of `total`, ties upward. */
  predicate NearestHalf(m: real, total: real) {
    m == m.Floor as real && total - 1.0 < 2.0 * m <= total + 1.0
  }

  lemma MiddleIs(s: seq<real>)
    ensures if s == [] then RoundedMedian(s) == None
      else if |s| % 2 == 1 then RoundedMedian(s) == Some(s[|s| / 2])
      else RoundedMedian(s).Some? && NearestHalf(RoundedMedian(s).value, s[|s| / 2 - 1] + s[|s| / 2])
  {
  }

  /** The median embed time, for the times in order: none without times, the middle one of an odd number, and of
    * an even number the whole number nearest the mean of the two middle ones, ties upward. */
  lemma MedianTimeIs(r: CacheReport, es: seq<CacheEvent>, s: seq<real>)
    requires SummarisesCache(r, es) && ListsInOrder(s, TimeLines(es))
    ensures if s == [] then r.medianEmbedMs == None
      else if |s| % 2 == 1 then r.medianEmbedMs == Some(s[|s| / 2])
      else r.medianEmbedMs.Some? && NearestHalf(r.medianEmbedMs.value, s[|s| / 2 - 1] + s[|s| / 2])
  {
    TimeLinesAre(es);
    SortedIsTheList(es, EmbedTime, s, TimeLines(es));
    MiddleIs(s);
  }
}
