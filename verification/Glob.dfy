/** Model-id patterns: globs compiled to regular-expression text, and the language that text accepts. */
module Glob {
  import opened Json

  // ----- the compilers -----

  /** The parity matcher escapes `?` as well; the configuration matcher leaves it bare. */
  datatype Escapes = Config | Parity

  predicate Escaped(c: char, esc: Escapes) {
    c == '.' || c == '+' || c == '^' || c == '$' || c == '{' || c == '}' || c == '(' || c == ')'
    || c == '|' || c == '[' || c == ']' || c == '\\' || (c == '?' && esc == Parity)
  }

  function Escape(p: string, esc: Escapes): string {
    if p == "" then ""
    else (if Escaped(p[0], esc) then ['\\', p[0]] else [p[0]]) + Escape(p[1..], esc)
  }

  /** Every `*` becomes `.*`. */
  function ExpandStars(t: string): string {
    if t == "" then "" else (if t[0] == '*' then ".*" else [t[0]]) + ExpandStars(t[1..])
  }

  function Compile(p: string, esc: Escapes): string {
    "^" + ExpandStars(Escape(p, esc)) + "$"
  }

  // ----- the regular expressions they use -----

  datatype Atom = AnyChar | Lit(c: char)
  datatype Quantifier = Once | Optional | Repeated
  datatype Item = Item(atom: Atom, quantifier: Quantifier)

  /** Characters that mean something when not escaped. */
  predicate Syntax(c: char) {
    c in "^$\\.*+?()[]{}|"
  }

  /** Anchored text is read atom by atom; `None` is a syntax error. */
  function ParseRegex(t: string): Option<seq<Item>> {
    if "^" <= t then ParseBody(t[1..]) else None
  }

  function ParseBody(t: string): Option<seq<Item>>
    decreases |t|
  {
    if t == "$" then Some([])
    else match ParseAtom(t)
      case None => None
      case Some(atom) =>
        var (q, rest) := ParseQuantifier(t[AtomLength(t)..]);
        match ParseBody(rest)
        case None => None
        case Some(items) => Some([Item(atom, q)] + items)
  }

  function AtomLength(t: string): (n: nat)
    requires ParseAtom(t).Some?
    ensures 1 <= n <= |t|
  {
    if t[0] == '\\' then 2 else 1
  }

  function ParseAtom(t: string): Option<Atom> {
    if t == "" then None
    else if t[0] == '\\' then if |t| > 1 && Syntax(t[1]) then Some(Lit(t[1])) else None
    else if t[0] == '.' then Some(AnyChar)
    else if Syntax(t[0]) then None
    else Some(Lit(t[0]))
  }

  /** A quantifier may carry a `?` that makes it lazy, which accepts the same strings. */
  function ParseQuantifier(t: string): (r: (Quantifier, string))
    ensures |r.1| <= |t|
  {
    if t == "" || (t[0] != '*' && t[0] != '?') then (Once, t)
    else (if t[0] == '*' then Repeated else Optional, if "?" <= t[1..] then t[2..] else t[1..])
  }

  predicate LineTerminator(c: char) {
    c == '\n' || c == '\r' || c == '\U{2028}' || c == '\U{2029}'
  }

  /** How two characters compare. */
  datatype Case = Exact | IgnoreAscii

  function Fold(c: char, mode: Case): char {
    if mode.IgnoreAscii? && 'A' <= c <= 'Z' then (c as int + 32) as char else c
  }

  predicate AtomAccepts(a: Atom, c: char, mode: Case) {
    match a
    case AnyChar => !LineTerminator(c)
    case Lit(l) => Fold(l, mode) == Fold(c, mode)
  }

  /** The whole of `m` is accepted by the items in order. */
  predicate Accepts(items: seq<Item>, m: string, mode: Case)
    decreases |items|
  {
    if items == [] then m == ""
    else
      var one := m != "" && AtomAccepts(items[0].atom, m[0], mode) && Accepts(items[1..], m[1..], mode);
      match items[0].quantifier
      case Once => one
      case Optional => one || Accepts(items[1..], m, mode)
      case Repeated => exists k | 0 <= k <= |m| ::
        (forall i | 0 <= i < k :: AtomAccepts(items[0].atom, m[i], mode)) && Accepts(items[1..], m[k..], mode)
  }

  // ----- the matchers -----

  /** `Err` stands for the syntax error the regular-expression constructor throws. */
  datatype Match = Matched(yes: bool) | SyntaxError

  function RunRegex(p: string, esc: Escapes, m: string, mode: Case): Match {
    match ParseRegex(Compile(p, esc))
    case None => SyntaxError
    case Some(items) => Matched(Accepts(items, m, mode))
  }

  function ConfigMatch(p: string, m: string): Match {
    if p == "" || m == "" then Matched(false)
    else if p == m then Matched(true)
    else RunRegex(p, Config, m, IgnoreAscii)
  }

  function ParityMatch(p: string, m: string): Match {
    RunRegex(p, Parity, m, Exact)
  }

  // ----- what a glob denotes -----

  function StarCount(p: string): nat {
    if p == "" then 0 else (if p[0] == '*' then 1 else 0) + StarCount(p[1..])
  }

  /** The pattern with its stars replaced, in order, by the given strings. */
  function Fill(p: string, ws: seq<string>): string
    requires |ws| == StarCount(p)
  {
    if p == "" then ""
    else if p[0] == '*' then ws[0] + Fill(p[1..], ws[1..])
    else [p[0]] + Fill(p[1..], ws)
  }

  predicate OneLine(s: string) {
    forall i | 0 <= i < |s| :: s[i] != '\n' && s[i] != '\r' && s[i] != '\U{2028}' && s[i] != '\U{2029}'
  }

  predicate Same(a: string, b: string, mode: Case) {
    |a| == |b| && forall i | 0 <= i < |a| :: Fold(a[i], mode) == Fold(b[i], mode)
  }

  predicate Filling(p: string, ws: seq<string>) {
    |ws| == StarCount(p) && forall j | 0 <= j < |ws| :: OneLine(ws[j])
  }

  /** `m` is the pattern with some one-line string in place of each star. */
  ghost predicate Denotes(p: string, m: string, mode: Case) {
    exists ws :: Filling(p, ws) && Same(Fill(p, ws), m, mode)
  }

  // ----- reading the compiled text back -----

  /** The items a glob stands for when every other character is a literal. */
  function Items(p: string): seq<Item> {
    if p == "" then []
    else [if p[0] == '*' then Item(AnyChar, Repeated) else Item(Lit(p[0]), Once)] + Items(p[1..])
  }

  /** What the compiled text reads back as when `?` was left bare. */
  function ReadBare(p: string): Option<seq<Item>>
    decreases |p|
  {
    if p == "" then Some([])
    else if p[0] == '?' then None
    else
      var (item, rest) :=
        if p[0] == '*' then (Item(AnyChar, Repeated), if "?" <= p[1..] then p[2..] else p[1..])
        else if "??" <= p[1..] then (Item(Lit(p[0]), Optional), p[3..])
        else if "?" <= p[1..] then (Item(Lit(p[0]), Optional), p[2..])
        else (Item(Lit(p[0]), Once), p[1..]);
      match ReadBare(rest)
      case None => None
      case Some(items) => Some([item] + items)
  }

  function Body(p: string, esc: Escapes): string {
    ExpandStars(Escape(p, esc)) + "$"
  }

  lemma ExpandOne(c: char, rest: string)
    ensures ExpandStars([c] + rest) == (if c == '*' then ".*" else [c]) + ExpandStars(rest)
  {
    assert ([c] + rest)[1..] == rest;
  }

  /** The compiled text of one more leading character. */
  lemma BodyStep(p: string, esc: Escapes)
    requires p != ""
    ensures Body(p, esc) ==
      (if p[0] == '*' then ".*" else if Escaped(p[0], esc) then ['\\', p[0]] else [p[0]]) + Body(p[1..], esc)
  {
    var c, rest := p[0], Escape(p[1..], esc);
    var text := ExpandStars(rest);
    ExpandOne(c, rest);
    if Escaped(c, esc) {
      assert ['\\'] + [c] == ['\\', c];
      Regroup(['\\'], [c], rest);
      ExpandOne('\\', [c] + rest);
      Regroup(['\\'], [c], text);
      Regroup(['\\', c], text, "$");
    } else {
      Regroup(if c == '*' then ".*" else [c], text, "$");
    }
  }

  lemma Regroup(a: string, b: string, c: string)
    ensures (a + b) + c == a + (b + c)
  {
  }

  /** A leading `?` left without its escape. */
  predicate BareMark(p: string, esc: Escapes) {
    p != "" && p[0] == '?' && esc == Config
  }

  lemma BodyHead(p: string, esc: Escapes)
    ensures Body(p, esc) != "" && Body(p, esc)[0] != '*'
    ensures Body(p, esc) == "$" <==> p == ""
    ensures "?" <= Body(p, esc) <==> BareMark(p, esc)
    ensures BareMark(p, esc) ==> Body(p, esc)[1..] == Body(p[1..], esc)
  {
    if p != "" {
      BodyStep(p, esc);
    }
  }

  /** One pattern character reads back as one atom; a star leaves its quantifier behind. */
  lemma AtomReadsBack(p: string, esc: Escapes)
    requires p != "" && !BareMark(p, esc)
    ensures var t := Body(p, esc);
      && t != "$"
      && ParseAtom(t) == Some(if p[0] == '*' then AnyChar else Lit(p[0]))
      && t[AtomLength(t)..] == if p[0] == '*' then "*" + Body(p[1..], esc) else Body(p[1..], esc)
  {
    BodyStep(p, esc);
    BodyHead(p, esc);
    var c, rest := p[0], Body(p[1..], esc);
    if c == '*' {
      StarReadsBack(rest);
    } else if Escaped(c, esc) {
      EscapedReadsBack(c, rest);
    } else {
      PlainReadsBack(c, rest);
    }
  }

  lemma StarReadsBack(rest: string)
    ensures var t := ".*" + rest;
      ParseAtom(t) == Some(AnyChar) && t[AtomLength(t)..] == "*" + rest
  {
  }

  lemma EscapedReadsBack(c: char, rest: string)
    requires Syntax(c)
    ensures var t := ['\\', c] + rest;
      ParseAtom(t) == Some(Lit(c)) && t[AtomLength(t)..] == rest
  {
  }

  lemma PlainReadsBack(c: char, rest: string)
    requires !Syntax(c)
    ensures var t := [c] + rest;
      ParseAtom(t) == Some(Lit(c)) && t[AtomLength(t)..] == rest
  {
  }

  lemma ParseStep(t: string, atom: Atom, q: Quantifier, rest: string)
    requires t != "$" && ParseAtom(t) == Some(atom) && ParseQuantifier(t[AtomLength(t)..]) == (q, rest)
    ensures ParseBody(t) ==
      match ParseBody(rest)
      case None => None
      case Some(items) => Some([Item(atom, q)] + items)
  {
  }

  /** With `?` escaped every other character is a literal, whatever the pattern. */
  lemma {:induction false} ParityTextReadsBack(p: string)
    ensures ParseBody(Body(p, Parity)) == Some(Items(p))
  {
    if p != "" {
      ParityTextReadsBack(p[1..]);
      AtomReadsBack(p, Parity);
      var t, rest := Body(p, Parity), Body(p[1..], Parity);
      BodyHead(p[1..], Parity);
      if p[0] == '*' {
        assert ("*" + rest)[1..] == rest;
        ParseStep(t, AnyChar, Repeated, rest);
      } else {
        assert "" + rest == rest;
        ParseStep(t, Lit(p[0]), Once, rest);
      }
    }
  }

  /** How far a run of bare `?` after one character is consumed: as a quantifier, then as its lazy mark. */
  lemma MarksReadBack(p: string)
    ensures var rest := Body(p, Config);
      ParseQuantifier(rest) ==
        if "??" <= p then (Optional, Body(p[2..], Config))
        else if "?" <= p then (Optional, Body(p[1..], Config))
        else (Once, rest)
    ensures ParseQuantifier("*" + Body(p, Config)) ==
        (Repeated, if "?" <= p then Body(p[1..], Config) else Body(p, Config))
  {
    var rest := Body(p, Config);
    BodyHead(p, Config);
    assert ("*" + rest)[1..] == rest && ("*" + rest)[2..] == rest[1..];
    if "?" <= p {
      BodyHead(p[1..], Config);
      assert rest[2..] == rest[1..][1..];
      assert "??" <= p <==> "?" <= p[1..];
      if "??" <= p {
        assert p[1..][1..] == p[2..];
      }
    }
  }

  lemma {:induction false} ConfigTextReadsBack(p: string)
    ensures ParseBody(Body(p, Config)) == ReadBare(p)
    decreases |p|
  {
    BodyHead(p, Config);
    if p != "" && p[0] != '?' {
      var t, after := Body(p, Config), p[1..];
      AtomReadsBack(p, Config);
      MarksReadBack(after);
      assert "" + Body(after, Config) == Body(after, Config);
      var used := if p[0] != '*' && "??" <= after then 2 else if "?" <= after then 1 else 0;
      var q := if p[0] == '*' then Repeated else if "?" <= after then Optional else Once;
      assert after[used..] == p[1 + used..];
      ParseStep(t, if p[0] == '*' then AnyChar else Lit(p[0]), q, Body(after[used..], Config));
      ConfigTextReadsBack(after[used..]);
    }
  }

  lemma {:induction false} NoMarkReadsPlain(p: string)
    requires '?' !in p
    ensures ReadBare(p) == Some(Items(p))
  {
    if p != "" {
      NoMarkReadsPlain(p[1..]);
    }
  }

  // ----- the language of the items -----

  lemma FoldKeepsLines(a: char, b: char, mode: Case)
    requires Fold(a, mode) == Fold(b, mode)
    ensures LineTerminator(a) <==> LineTerminator(b)
  {
  }

  lemma {:induction false} DenotedIsAccepted(p: string, ws: seq<string>, m: string, mode: Case)
    requires Filling(p, ws) && Same(Fill(p, ws), m, mode)
    ensures Accepts(Items(p), m, mode)
    decreases |p|
  {
    if p != "" {
      var items := Items(p);
      assert items[1..] == Items(p[1..]);
      if p[0] == '*' {
        var w, rest := ws[0], Fill(p[1..], ws[1..]);
        var k := |w|;
        assert Fill(p, ws) == w + rest;
        forall i | 0 <= i < k ensures AtomAccepts(AnyChar, m[i], mode) {
          assert (w + rest)[i] == w[i];
          FoldKeepsLines(w[i], m[i], mode);
        }
        assert Same(rest, m[k..], mode) by {
          forall i | 0 <= i < |rest| ensures Fold(rest[i], mode) == Fold(m[k..][i], mode) {
            assert (w + rest)[k + i] == rest[i];
          }
        }
        DenotedIsAccepted(p[1..], ws[1..], m[k..], mode);
      } else {
        var rest := Fill(p[1..], ws);
        assert Fill(p, ws) == [p[0]] + rest;
        assert Same(rest, m[1..], mode) by {
          forall i | 0 <= i < |rest| ensures Fold(rest[i], mode) == Fold(m[1..][i], mode) {
            assert ([p[0]] + rest)[1 + i] == rest[i];
          }
        }
        assert ([p[0]] + rest)[0] == p[0];
        DenotedIsAccepted(p[1..], ws, m[1..], mode);
      }
    }
  }

  lemma SameAppend(a: string, b: string, m: string, mode: Case)
    requires |a| <= |m| && Same(a, m[..|a|], mode) && Same(b, m[|a|..], mode)
    ensures Same(a + b, m, mode)
  {
    forall i | 0 <= i < |m| ensures Fold((a + b)[i], mode) == Fold(m[i], mode) {
      assert i < |a| ==> m[i] == m[..|a|][i];
      assert i >= |a| ==> m[i] == m[|a|..][i - |a|];
    }
  }

  lemma StarFilled(p: string, w: string, more: seq<string>, m: string, mode: Case)
    requires p != "" && p[0] == '*' && OneLine(w) && w <= m
    requires Filling(p[1..], more) && Same(Fill(p[1..], more), m[|w|..], mode)
    ensures Filling(p, [w] + more) && Same(Fill(p, [w] + more), m, mode)
  {
    var ws := [w] + more;
    assert ws[1..] == more && ws[0] == w;
    SameAppend(w, Fill(p[1..], more), m, mode);
  }

  lemma {:induction false} AcceptedIsDenoted(p: string, m: string, mode: Case) returns (ws: seq<string>)
    requires Accepts(Items(p), m, mode)
    ensures Filling(p, ws) && Same(Fill(p, ws), m, mode)
    decreases |p|
  {
    ws := [];
    if p != "" {
      var items := Items(p);
      assert items[1..] == Items(p[1..]);
      if p[0] == '*' {
        var k :| 0 <= k <= |m| && (forall i | 0 <= i < k :: AtomAccepts(AnyChar, m[i], mode)) &&
          Accepts(items[1..], m[k..], mode);
        var more := AcceptedIsDenoted(p[1..], m[k..], mode);
        ws := [m[..k]] + more;
        StarFilled(p, m[..k], more, m, mode);
      } else {
        ws := AcceptedIsDenoted(p[1..], m[1..], mode);
      }
    }
  }

  lemma ItemsDenote(p: string, m: string, mode: Case)
    ensures Accepts(Items(p), m, mode) <==> Denotes(p, m, mode)
  {
    if Accepts(Items(p), m, mode) {
      var ws := AcceptedIsDenoted(p, m, mode);
    }
    if Denotes(p, m, mode) {
      var ws :| Filling(p, ws) && Same(Fill(p, ws), m, mode);
      DenotedIsAccepted(p, ws, m, mode);
    }
  }

  /** Two characters are alike to the configuration matcher exactly when they are equal or the two cases
    * of one ASCII letter. */
  lemma AlikeIff(a: char, b: char)
    ensures Fold(a, IgnoreAscii) == Fold(b, IgnoreAscii) <==>
      || a == b
      || ('A' <= a <= 'Z' && b as int == a as int + 32)
      || ('A' <= b <= 'Z' && a as int == b as int + 32)
    ensures Fold(a, Exact) == Fold(b, Exact) <==> a == b
  {
  }

  // ----- main results -----

  /** The parity matcher never throws and accepts exactly what the glob denotes. */
  lemma ParityMeansTheGlob(p: string, m: string)
    ensures ParityMatch(p, m) == Matched(Denotes(p, m, Exact))
  {
    CompiledBody(p, Parity);
    ParityTextReadsBack(p);
    ItemsDenote(p, m, Exact);
  }

  lemma CompiledBody(p: string, esc: Escapes)
    ensures ParseRegex(Compile(p, esc)) == ParseBody(Body(p, esc))
  {
    assert Compile(p, esc) == "^" + Body(p, esc);
    assert Compile(p, esc)[1..] == Body(p, esc);
  }

  /** On an id without line breaks every star ranges over all strings. */
  lemma StarsAreFreeOnOneLine(p: string, m: string, mode: Case, ws: seq<string>)
    requires OneLine(m) && |ws| == StarCount(p) && Same(Fill(p, ws), m, mode)
    ensures Denotes(p, m, mode)
  {
    FillersAreParts(p, ws);
    forall j, i | 0 <= j < |ws| && 0 <= i < |ws[j]| ensures !LineTerminator(ws[j][i]) {
      var k :| 0 <= k < |Fill(p, ws)| && Fill(p, ws)[k] == ws[j][i];
      FoldKeepsLines(Fill(p, ws)[k], m[k], mode);
    }
    assert Filling(p, ws);
  }

  lemma {:induction false} FillersAreParts(p: string, ws: seq<string>)
    requires |ws| == StarCount(p)
    ensures forall j, i | 0 <= j < |ws| && 0 <= i < |ws[j]| :: ws[j][i] in Fill(p, ws)
    decreases |p|
  {
    if p != "" {
      if p[0] == '*' {
        FillersAreParts(p[1..], ws[1..]);
        forall j, i | 0 <= j < |ws| && 0 <= i < |ws[j]| ensures ws[j][i] in Fill(p, ws) {
          if j > 0 {
            assert ws[1..][j - 1] == ws[j];
          }
        }
      } else {
        FillersAreParts(p[1..], ws);
      }
    }
  }

  /** A pattern denotes itself: each star can stand for a star. */
  lemma {:induction false} DenotesItself(p: string, mode: Case) returns (ws: seq<string>)
    ensures Filling(p, ws) && Fill(p, ws) == p
    decreases |p|
  {
    ws := [];
    if p != "" {
      var more := DenotesItself(p[1..], mode);
      ws := if p[0] == '*' then ["*"] + more else more;
      if p[0] == '*' {
        assert ws[1..] == more;
        assert p == "*" + p[1..];
      }
    }
  }

  lemma ConfigMeansTheGlob(p: string, m: string)
    requires m != "" && '?' !in p
    ensures ConfigMatch(p, m) == Matched(Denotes(p, m, IgnoreAscii))
  {
    if p == m {
      var ws := DenotesItself(p, IgnoreAscii);
    }
    CompiledBody(p, Config);
    ConfigTextReadsBack(p);
    NoMarkReadsPlain(p);
    ItemsDenote(p, m, IgnoreAscii);
  }

  /** The pattern with its `?` dropped and an `x` for each star. */
  function Stripped(p: string): (m: string)
    ensures '?' !in m
  {
    if p == "" then ""
    else (if p[0] == '?' then "" else if p[0] == '*' then "x" else [p[0]]) + Stripped(p[1..])
  }

  /** One accepted character in front, whatever the quantifier. */
  lemma AcceptsOneMore(item: Item, items: seq<Item>, c: char, m: string, mode: Case)
    requires AtomAccepts(item.atom, c, mode) && Accepts(items, m, mode)
    ensures Accepts([item] + items, [c] + m, mode)
  {
    var all, text := [item] + items, [c] + m;
    assert all[1..] == items && text[1..] == m;
    assert forall i | 0 <= i < 1 :: AtomAccepts(item.atom, text[i], mode);
  }

  /** How many pattern characters the first item of the bare reading takes up. */
  function Used(p: string): (n: nat)
    requires p != ""
    ensures 1 <= n <= |p|
  {
    if p[0] != '*' && "??" <= p[1..] then 3 else if "?" <= p[1..] then 2 else 1
  }

  lemma StrippedSplits(p: string)
    requires p != "" && p[0] != '?'
    ensures Stripped(p) == [if p[0] == '*' then 'x' else p[0]] + Stripped(p[Used(p)..])
  {
    if "?" <= p[1..] {
      MarkIsStripped(p[1..]);
      assert p[1..][1..] == p[2..];
      if "??" <= p[1..] {
        MarkIsStripped(p[2..]);
        assert p[2..][1..] == p[3..];
      }
    }
  }

  lemma MarkIsStripped(p: string)
    requires p != "" && p[0] == '?'
    ensures Stripped(p) == Stripped(p[1..])
  {
  }

  /** A bare `?` never asks for a question mark: the stripped pattern is accepted. */
  lemma {:induction false} StrippedIsAccepted(p: string, mode: Case)
    requires ReadBare(p).Some?
    ensures Accepts(ReadBare(p).value, Stripped(p), mode)
    decreases |p|
  {
    if p != "" {
      StrippedIsAccepted(p[Used(p)..], mode);
      StrippedSplits(p);
      var items := ReadBare(p).value;
      AcceptsOneMore(items[0], ReadBare(p[Used(p)..]).value,
        if p[0] == '*' then 'x' else p[0], Stripped(p[Used(p)..]), mode);
    }
  }

  /** Every denoted id keeps the pattern's literal question marks. */
  lemma {:induction false} MarksMustAppear(p: string, ws: seq<string>)
    requires |ws| == StarCount(p) && '?' in p
    ensures '?' in Fill(p, ws)
    decreases |p|
  {
    if p[0] == '*' {
      MarksMustAppear(p[1..], ws[1..]);
    } else if p[0] != '?' {
      MarksMustAppear(p[1..], ws);
    }
  }

  lemma StrippedIsNotDenoted(p: string, mode: Case)
    requires '?' in p
    ensures !Denotes(p, Stripped(p), mode)
  {
    forall ws | Filling(p, ws) ensures !Same(Fill(p, ws), Stripped(p), mode) {
      MarksMustAppear(p, ws);
      var k :| 0 <= k < |Fill(p, ws)| && Fill(p, ws)[k] == '?';
    }
  }

  /** The configuration matcher means the glob on every id exactly for patterns without `?`. */
  lemma ConfigMeansTheGlobIff(p: string)
    ensures (forall m | m != "" :: ConfigMatch(p, m) == Matched(Denotes(p, m, IgnoreAscii))) <==> '?' !in p
  {
    if '?' !in p {
      forall m | m != "" ensures ConfigMatch(p, m) == Matched(Denotes(p, m, IgnoreAscii)) {
        ConfigMeansTheGlob(p, m);
      }
    } else {
      var m := Stripped(p);
      CompiledBody(p, Config);
      ConfigTextReadsBack(p);
      if ReadBare(p).None? {
        assert ConfigMatch(p, "x" + p) == SyntaxError;
      } else {
        StrippedIsAccepted(p, IgnoreAscii);
        StrippedIsNotDenoted(p, IgnoreAscii);
        assert m != "";
        assert ConfigMatch(p, m) == Matched(true);
      }
    }
  }

  predicate NoUpper(s: string) {
    forall i | 0 <= i < |s| :: !('A' <= s[i] <= 'Z')
  }

  /** On lower-case ids and patterns without `?` the two matchers agree, except that the
    * configuration matcher refuses an empty id even where the glob denotes it. */
  lemma MatchersAgreeIff(p: string, m: string)
    requires '?' !in p && NoUpper(m) && NoUpper(p)
    ensures ConfigMatch(p, m) == ParityMatch(p, m) <==> !(m == "" && Denotes(p, m, Exact))
  {
    ParityMeansTheGlob(p, m);
    if m != "" {
      ConfigMeansTheGlob(p, m);
      ItemsDenote(p, m, Exact);
      ItemsDenote(p, m, IgnoreAscii);
      CaseIsMoot(p, m);
    }
  }

  lemma {:induction false} CaseIsMoot(p: string, m: string)
    requires NoUpper(m) && NoUpper(p)
    ensures Accepts(Items(p), m, Exact) <==> Accepts(Items(p), m, IgnoreAscii)
    decreases |p|
  {
    if p != "" {
      var items := Items(p);
      assert items[1..] == Items(p[1..]);
      if p[0] == '*' {
        forall k | 0 <= k <= |m|
          ensures Accepts(items[1..], m[k..], Exact) <==> Accepts(items[1..], m[k..], IgnoreAscii)
        {
          CaseIsMoot(p[1..], m[k..]);
        }
      } else if m != "" {
        CaseIsMoot(p[1..], m[1..]);
      }
    }
  }

  /** The loop over declared wildcard patterns. */
  method MatchesWildcard(id: string, wildcards: seq<string>) returns (found: bool)
    ensures found <==> exists w | w in wildcards :: Denotes(w, id, Exact)
  {
    for i := 0 to |wildcards|
      invariant forall j | 0 <= j < i :: !Denotes(wildcards[j], id, Exact)
    {
      ParityMeansTheGlob(wildcards[i], id);
      if ParityMatch(wildcards[i], id) == Matched(true) {
        return true;
      }
    }
    found := false;
  }
}
