/** Unit templates: placeholders replaced one after another, as the deploy script does. */
module Template {

  // ----- the script's rendering -----

  /** `${s//name/value}`: every occurrence, leftmost first; replaced text is not scanned again. */
  function ReplaceAll(s: string, name: string, value: string): string
    requires name != ""
    decreases |s|
  {
    if |s| < |name| then s
    else if name <= s then value + ReplaceAll(s[|name|..], name, value)
    else [s[0]] + ReplaceAll(s[1..], name, value)
  }

  type Args = seq<(string, string)>

  /** A placeholder is its core between double underscores. */
  function Mark(core: string): string {
    "__" + core + "__"
  }

  function Render(content: string, args: Args): string
    decreases |args|
  {
    if args == [] then content else Render(ReplaceAll(content, Mark(args[0].0), args[0].1), args[1..])
  }

  /** Command substitution drops the template file's trailing newlines. */
  function Chomp(s: string): string {
    if s != "" && s[|s| - 1] == '\n' then Chomp(s[..|s| - 1]) else s
  }

  /** What is dropped is exactly the run of newlines at the end. */
  lemma {:induction false} ChompIs(s: string)
    ensures Chomp(s) <= s && forall i | |Chomp(s)| <= i < |s| :: s[i] == '\n'
    ensures Chomp(s) != "" ==> Chomp(s)[|Chomp(s)| - 1] != '\n'
    decreases |s|
  {
    if s != "" && s[|s| - 1] == '\n' {
      ChompIs(s[..|s| - 1]);
    }
  }

  method RenderTemplateFile(file: string, args: Args) returns (out: string)
    ensures out == Render(Chomp(file), args) + "\n"
  {
    var content := Chomp(file);
    var i := 0;
    while i < |args|
      invariant i <= |args| && Render(content, args[i..]) == Render(Chomp(file), args)
    {
      content := ReplaceAll(content, Mark(args[i].0), args[i].1);
      assert args[i..][1..] == args[i + 1..];
      i := i + 1;
    }
    out := content + "\n";
  }

  // ----- templates with their holes told apart -----

  datatype Tpl = End(text: string) | Hole(text: string, core: string, rest: Tpl)

  function Flat(t: Tpl): string {
    match t
    case End(x) => x
    case Hole(x, c, r) => x + (Mark(c) + Flat(r))
  }

  /** Simultaneous substitution: each hole is filled, or left when nothing is listed for it. */
  function Fill(t: Tpl, env: map<string, string>): string {
    match t
    case End(x) => x
    case Hole(x, c, r) => x + ((if c in env then env[c] else Mark(c)) + Fill(r, env))
  }

  /** When a name is listed twice its first value is used. */
  function EnvOf(args: Args): map<string, string> {
    if args == [] then map[] else EnvOf(args[1..])[args[0].0 := args[0].1]
  }

  predicate NameChar(c: char) {
    'A' <= c <= 'Z' || '0' <= c <= '9' || c == '_'
  }

  predicate NoDouble(s: string) {
    forall i | 0 <= i < |s| - 1 :: s[i] == '_' ==> s[i + 1] != '_'
  }

  predicate IsCore(c: string) {
    c != "" && NoDouble(c) && c[0] != '_' && c[|c| - 1] != '_' && forall i | 0 <= i < |c| :: NameChar(c[i])
  }

  predicate Delimited(s: string) {
    exists i :: 0 <= i < |s| && !NameChar(s[i])
  }

  /** Text never doubles an underscore nor touches a hole with one. */
  predicate Loose(t: Tpl, afterHole: bool) {
    && NoDouble(t.text)
    && (afterHole && t.text != "" ==> t.text[0] != '_')
    && (t.Hole? ==> (t.text != "" ==> t.text[|t.text| - 1] != '_') && IsCore(t.core) && Loose(t.rest, true))
  }

  /** Any two holes are kept apart by a character no name can contain. */
  predicate Separated(t: Tpl, afterHole: bool) {
    t.Hole? ==> (afterHole ==> Delimited(t.text)) && Separated(t.rest, true)
  }

  predicate Clean(t: Tpl, afterHole: bool) {
    Loose(t, afterHole) && Separated(t, afterHole)
  }

  // ----- where a placeholder can start -----

  predicate Occurs(m: string, s: string) {
    exists i | 0 <= i <= |s| :: m <= s[i..]
  }

  /** No occurrence of `m` starts within `z` when `u` follows it. */
  predicate Quiet(m: string, z: string, u: string) {
    forall i | 0 <= i < |z| :: !(m <= (z + u)[i..])
  }

  lemma Associate(x: string, y: string, z: string)
    ensures (x + y) + z == x + (y + z)
  {
  }

  lemma CopyOne(s: string, name: string, value: string)
    requires name != "" && s != "" && !(name <= s)
    ensures ReplaceAll(s, name, value) == [s[0]] + ReplaceAll(s[1..], name, value)
  {
    if |s| < |name| {
      ShortIsCopied(s[1..], name, value);
      assert s == [s[0]] + s[1..];
    }
  }

  lemma Tails(z: string, u: string)
    requires z != ""
    ensures (z + u)[0..] == z + u && (z + u)[1..] == z[1..] + u && (z + u)[0] == z[0]
    ensures z == [z[0]] + z[1..]
    ensures forall i | 0 <= i < |z[1..]| :: (z[1..] + u)[i..] == (z + u)[i + 1..]
  {
  }

  /** A stretch in which no occurrence starts is copied unchanged. */
  lemma {:induction false} CopiedOver(z: string, u: string, name: string, value: string)
    requires name != "" && Quiet(name, z, u)
    ensures ReplaceAll(z + u, name, value) == z + ReplaceAll(u, name, value)
  {
    if z == "" {
      assert z + u == u;
      assert z + ReplaceAll(u, name, value) == ReplaceAll(u, name, value);
    } else {
      Tails(z, u);
      assert !(name <= (z + u)[0..]);
      CopyOne(z + u, name, value);
      QuietTail(name, z, u);
      CopiedOver(z[1..], u, name, value);
      Associate([z[0]], z[1..], ReplaceAll(u, name, value));
    }
  }

  lemma QuietTail(m: string, z: string, u: string)
    requires z != "" && Quiet(m, z, u)
    ensures Quiet(m, z[1..], u)
  {
    Tails(z, u);
    forall i | 0 <= i < |z[1..]| ensures !(m <= (z[1..] + u)[i..]) {
      assert !(m <= (z + u)[i + 1..]);
    }
  }

  lemma ShortIsCopied(s: string, name: string, value: string)
    requires name != "" && |s| < |name|
    ensures ReplaceAll(s, name, value) == s
  {
  }

  /** An occurrence replaced by nothing makes the text shorter. */
  lemma {:induction false} Shrinks(s: string, name: string)
    requires name != ""
    ensures |ReplaceAll(s, name, "")| <= |s|
    ensures Occurs(name, s) ==> |ReplaceAll(s, name, "")| < |s|
    decreases |s|
  {
    if |s| < |name| {
      assert !Occurs(name, s);
    } else if name <= s {
      Shrinks(s[|name|..], name);
    } else {
      Shrinks(s[1..], name);
      if Occurs(name, s) {
        var i :| 0 <= i <= |s| && name <= s[i..];
        assert i > 0 by {
          assert s[0..] == s;
        }
        assert s[1..][i - 1..] == s[i..];
      }
    }
  }

  /** One differing character is enough. */
  lemma Differs(a: string, s: string, i: nat)
    requires i < |a| && (i < |s| ==> a[i] != s[i])
    ensures !(a <= s)
  {
  }

  lemma MarkChars(c: string, u: string, i: nat)
    requires i < |Mark(c)|
    ensures (Mark(c) + u)[i] == Mark(c)[i] == if 2 <= i < 2 + |c| then c[i - 2] else '_'
  {
  }

  /** A placeholder starts with two underscores. */
  lemma StartsPlain(core: string, s: string)
    requires s != "" && (s[0] == '_' && |s| > 1 ==> s[1] != '_')
    ensures !(Mark(core) <= s)
  {
    MarkChars(core, "", 0);
    MarkChars(core, "", 1);
    if s[0] != '_' {
      Differs(Mark(core), s, 0);
    } else {
      Differs(Mark(core), s, 1);
    }
  }

  /** No placeholder starts inside text. */
  lemma NoneInText(x: string, u: string, core: string)
    requires NoDouble(x) && (x == "" || x[|x| - 1] != '_' || u == "")
    ensures Quiet(Mark(core), x, u)
  {
    forall i | 0 <= i < |x| ensures !(Mark(core) <= (x + u)[i..]) {
      var s := (x + u)[i..];
      assert s[0] == x[i] && (|s| > 1 && i + 1 < |x| ==> s[1] == x[i + 1]);
      StartsPlain(core, s);
    }
  }

  /** A hole does not open with the placeholder of another core. */
  lemma MarksDiffer(c: string, n: string, u: string)
    requires IsCore(c) && IsCore(n) && c != n
    ensures !(Mark(n) <= Mark(c) + u)
  {
    var a, b := Mark(n), Mark(c) + u;
    if |n| < |c| {
      var k := if c[|n|] != '_' then 2 + |n| else 3 + |n|;
      MarkChars(n, "", k);
      MarkChars(c, u, k);
      Differs(a, b, k);
    } else if |n| > |c| {
      var k := if n[|c|] != '_' then 2 + |c| else 3 + |c|;
      MarkChars(n, "", k);
      MarkChars(c, u, k);
      Differs(a, b, k);
    } else {
      var i :| 0 <= i < |c| && c[i] != n[i];
      MarkChars(n, "", 2 + i);
      MarkChars(c, u, 2 + i);
      Differs(a, b, 2 + i);
    }
  }

  lemma Shifted(a: string, b: string, u: string)
    requires !(b <= u)
    ensures !(a + b <= a + u)
  {
    if |b| <= |u| {
      var i :| 0 <= i < |b| && b[i] != u[i];
      Differs(a + b, a + u, |a| + i);
    }
  }

  lemma HoleIsFilled(x: string, n: string, u: string, value: string)
    ensures x + ReplaceAll(Mark(n) + u, Mark(n), value) == x + (value + ReplaceAll(u, Mark(n), value))
  {
    var s := Mark(n) + u;
    assert s[|Mark(n)|..] == u;
  }

  // ----- one replacement, exactly -----

  /** No text between two holes, the first of another core, is `n` itself. */
  predicate Unmistaken(t: Tpl, n: string) {
    t.Hole? ==> !(t.core != n && t.rest.Hole? && t.rest.text == n) && Unmistaken(t.rest, n)
  }

  /** The underscores that close a hole open the placeholder of `n` only if the text after it is `n`. */
  lemma NotAfterHole(t: Tpl, n: string)
    requires Loose(t, true) && IsCore(n) && !(t.Hole? && t.text == n)
    ensures !(n + "__" <= Flat(t))
  {
    var a, u, x := n + "__", Flat(t), t.text;
    assert a[|n|] == '_' && a[|n| + 1] == '_';
    assert forall i | 0 <= i < |x| :: u[i] == x[i];
    if t.End? || |n| + 1 < |x| {
      Differs(a, u, if |n| >= |u| || u[|n|] != '_' then |n| else |n| + 1);
    } else if |n| + 1 == |x| {
      Differs(a, u, |n|);
    } else if |n| == |x| {
      var i :| 0 <= i < |n| && n[i] != x[i];
      Differs(a, u, i);
    } else {
      MarkChars(t.core, Flat(t.rest), 0);
      MarkChars(t.core, Flat(t.rest), 1);
      assert u[|x|] == '_' && u[|x| + 1] == '_';
      Differs(a, u, if n[|x|] != '_' then |x| else |x| + 1);
    }
  }

  /** No placeholder of `n` starts inside another hole. */
  lemma NoneInHole(c: string, t: Tpl, n: string)
    requires IsCore(c) && IsCore(n) && c != n && Loose(t, true) && !(t.Hole? && t.text == n)
    ensures Quiet(Mark(n), Mark(c), Flat(t))
  {
    var m, u := Mark(c), Flat(t);
    forall i | 0 <= i < |m| ensures !(Mark(n) <= (m + u)[i..]) {
      if i < 2 + |c| {
        EarlyInHole(c, u, n, i);
      } else if i == 2 + |c| {
        assert (m + u)[i..] == "__" + u;
        NotAfterHole(t, n);
        Shifted("__", n + "__", u);
        assert Mark(n) == "__" + (n + "__");
      } else {
        assert (m + u)[i..] == "_" + u;
        LateInHole(t, n);
      }
    }
  }

  /** Nor, whatever follows the hole, before its closing underscores. */
  lemma EarlyInHole(c: string, u: string, n: string, i: nat)
    requires IsCore(c) && IsCore(n) && c != n && i < 2 + |c|
    ensures !(Mark(n) <= (Mark(c) + u)[i..])
  {
    var s := (Mark(c) + u)[i..];
    MarkChars(c, u, i);
    MarkChars(c, u, i + 1);
    if i == 0 {
      assert s == Mark(c) + u;
      MarksDiffer(c, n, u);
    } else {
      StartsPlain(n, s);
    }
  }

  lemma LateInHole(t: Tpl, n: string)
    requires Loose(t, true) && IsCore(n)
    ensures !(Mark(n) <= "_" + Flat(t))
  {
    var u := Flat(t);
    if t.text != "" || t.End? {
      assert u != "" ==> ("_" + u)[1] == u[0] == t.text[0];
      StartsPlain(n, "_" + u);
    } else {
      MarkChars(t.core, Flat(t.rest), 1);
      MarkChars(n, "", 2);
      assert ("_" + u)[2] == '_';
      Differs(Mark(n), "_" + u, 2);
    }
  }

  /** One replacement fills the holes of its name and nothing else. */
  lemma {:induction false} ReplaceFillsHoles(t: Tpl, afterHole: bool, n: string, value: string)
    requires Loose(t, afterHole) && IsCore(n) && Unmistaken(t, n)
    ensures ReplaceAll(Flat(t), Mark(n), value) == Fill(t, map[n := value])
  {
    match t
    case End(x) =>
      TextIsCopied(x, n, value);
    case Hole(x, c, r) =>
      ReplaceFillsHoles(r, true, n, value);
      HoleStep(x, c, r, n, value);
  }

  lemma TextIsCopied(x: string, n: string, value: string)
    requires NoDouble(x)
    ensures ReplaceAll(x, Mark(n), value) == x
  {
    NoneInText(x, "", n);
    CopiedOver(x, "", Mark(n), value);
    assert x + "" == x && x + ReplaceAll("", Mark(n), value) == x;
  }

  /** Text, and a hole that is not mistaken, are dealt with before the rest. */
  lemma HoleStep(x: string, c: string, r: Tpl, n: string, value: string)
    requires NoDouble(x) && (x == "" || x[|x| - 1] != '_') && IsCore(c) && IsCore(n) && Loose(r, true)
    requires !(c != n && r.Hole? && r.text == n)
    ensures ReplaceAll(x + (Mark(c) + Flat(r)), Mark(n), value)
         == x + ((if c == n then value else Mark(c)) + ReplaceAll(Flat(r), Mark(n), value))
  {
    NoneInText(x, Mark(c) + Flat(r), n);
    CopiedOver(x, Mark(c) + Flat(r), Mark(n), value);
    if c == n {
      HoleIsFilled(x, n, Flat(r), value);
    } else {
      NoneInHole(c, r, n);
      CopiedOver(Mark(c), Flat(r), Mark(n), value);
    }
  }

  /** A mistaken text is eaten together with the underscores on either side. */
  lemma {:induction false} MistakenIsVisible(t: Tpl, afterHole: bool, n: string)
    requires Loose(t, afterHole) && IsCore(n) && !Unmistaken(t, n)
    ensures ReplaceAll(Flat(t), Mark(n), "x") != Fill(t, map[n := "x"])
  {
    var x, c, r := t.text, t.core, t.rest;
    if c != n && r.Hole? && r.text == n {
      var u, w := r.core + ("__" + Flat(r.rest)), Fill(r, map[n := "x"]);
      MistakenText(x, c, n, u, "x");
      assert Flat(r) == n + ("__" + u) by {
        assert Mark(r.core) + Flat(r.rest) == "__" + u;
      }
      var eaten, kept := x + ("__" + c + ("x" + ReplaceAll(u, Mark(n), "x"))), x + (Mark(c) + w);
      MarkChars(c, w, 2 + |c|);
      assert eaten[|x| + 2 + |c|] == 'x' && kept[|x| + 2 + |c|] == '_';
    } else {
      MistakenIsVisible(r, true, n);
      HoleStep(x, c, r, n, "x");
      var s := if c == n then "x" else Mark(c);
      Cancel(s, ReplaceAll(Flat(r), Mark(n), "x"), Fill(r, map[n := "x"]));
      Cancel(x, s + ReplaceAll(Flat(r), Mark(n), "x"), s + Fill(r, map[n := "x"]));
    }
  }

  lemma Cancel(p: string, a: string, b: string)
    requires a != b
    ensures p + a != p + b
  {
    assert (p + a)[|p|..] == a && (p + b)[|p|..] == b;
  }

  /** Text between two holes that spells a listed name is taken for its placeholder. */
  lemma MistakenText(x: string, c: string, n: string, u: string, value: string)
    requires NoDouble(x) && (x == "" || x[|x| - 1] != '_') && IsCore(c) && IsCore(n) && c != n
    ensures ReplaceAll(x + (Mark(c) + (n + ("__" + u))), Mark(n), value)
         == x + ("__" + c + (value + ReplaceAll(u, Mark(n), value)))
  {
    var v, z := n + ("__" + u), "__" + c;
    NoneInText(x, Mark(c) + v, n);
    CopiedOver(x, Mark(c) + v, Mark(n), value);
    Respelled(c, n, u);
    QuietUpTo(c, v, n, Mark(n) + u);
    CopiedOver(z, Mark(n) + u, Mark(n), value);
    HoleIsFilled(z, n, u, value);
  }

  lemma Respelled(c: string, n: string, u: string)
    ensures Mark(c) + (n + ("__" + u)) == ("__" + c) + (Mark(n) + u)
  {
    assert Mark(c) == ("__" + c) + "__" && Mark(n) + u == ("__" + n) + ("__" + u);
    Associate("__" + c, "__", n + ("__" + u));
    Associate("__", n, "__" + u);
  }

  lemma QuietUpTo(c: string, v: string, n: string, u: string)
    requires IsCore(c) && IsCore(n) && c != n && Mark(c) + v == ("__" + c) + u
    ensures Quiet(Mark(n), "__" + c, u)
  {
    forall i | 0 <= i < 2 + |c| ensures !(Mark(n) <= (Mark(c) + v)[i..]) {
      EarlyInHole(c, v, n, i);
    }
  }

  /** One replacement fills exactly its holes, whatever the value, unless some text is mistaken for one. */
  lemma FillsExactlyIff(t: Tpl, n: string)
    requires Loose(t, false) && IsCore(n)
    ensures (forall value :: ReplaceAll(Flat(t), Mark(n), value) == Fill(t, map[n := value])) <==> Unmistaken(t, n)
  {
    if Unmistaken(t, n) {
      forall value ensures ReplaceAll(Flat(t), Mark(n), value) == Fill(t, map[n := value]) {
        ReplaceFillsHoles(t, false, n, value);
      }
    } else {
      MistakenIsVisible(t, false, n);
    }
  }

  // ----- replacing in a text some of whose holes are filled -----

  /** Text that starts with name characters and two underscores does not follow a hole. */
  lemma NoneAfterUnderscores(t: Tpl, env: map<string, string>, core: string)
    requires Clean(t, true) && forall i | 0 <= i < |core| :: NameChar(core[i])
    ensures !(core + "__" <= Fill(t, env))
  {
    var a, n, u, x := core + "__", |core|, Fill(t, env), t.text;
    assert a[n] == '_' && a[n + 1] == '_';
    assert forall i | 0 <= i < |x| :: u[i] == x[i];
    if t.Hole? {
      var d :| 0 <= d < |x| && !NameChar(x[d]);
      if d < n {
        assert a[d] == core[d];
        Differs(a, u, d);
      } else if x[n] != '_' {
        Differs(a, u, n);
      } else {
        Differs(a, u, n + 1);
      }
    } else if n + 1 < |u| && u[n] != '_' {
      Differs(a, u, n);
    } else {
      Differs(a, u, n + 1);
    }
  }

  /** No tail of a placeholder opens what follows a hole. */
  lemma NoTail(t: Tpl, env: map<string, string>, n: string, k: nat)
    requires Clean(t, true) && IsCore(n) && 0 < k < |Mark(n)|
    ensures !(Mark(n)[k..] <= Fill(t, env))
  {
    var u := Fill(t, env);
    if u != "" {
      MarkChars(n, "", k);
      assert u[0] == t.text[0] != '_';
      if 2 <= k < 2 + |n| {
        assert Mark(n)[k..] == n[k - 2..] + "__";
        NoneAfterUnderscores(t, env, n[k - 2..]);
      } else {
        Differs(Mark(n)[k..], u, 0);
      }
    }
  }

  lemma Inside(m: string, s: string, u: string, i: nat)
    requires i + |m| <= |s| && !(m <= s[i..])
    ensures !(m <= (s + u)[i..])
  {
    var k :| 0 <= k < |m| && m[k] != s[i..][k];
    Differs(m, (s + u)[i..], k);
  }

  lemma Across(m: string, s: string, u: string, i: nat)
    requires i <= |s| < i + |m| && !(m[|s| - i..] <= u)
    ensures !(m <= (s + u)[i..])
  {
    var k, w := |s| - i, (s + u)[i..];
    if |w| < |m| {
      Differs(m, w, |w|);
    } else {
      var j :| 0 <= j < |m| - k && m[k..][j] != u[j];
      assert w[k + j] == u[j];
      Differs(m, w, k + j);
    }
  }

  /** Contents without the placeholder of `n` do not come to contain one in their place. */
  lemma SlotIsQuiet(s: string, t: Tpl, env: map<string, string>, n: string)
    requires Clean(t, true) && IsCore(n) && !Occurs(Mark(n), s)
    ensures Quiet(Mark(n), s, Fill(t, env))
  {
    var m, u := Mark(n), Fill(t, env);
    forall i | 0 <= i < |s| ensures !(m <= (s + u)[i..]) {
      if |m| <= |s| - i {
        Inside(m, s, u, i);
      } else {
        NoTail(t, env, n, |s| - i);
        Across(m, s, u, i);
      }
    }
  }

  lemma MarkHoldsNoOther(c: string, n: string)
    requires IsCore(c) && IsCore(n) && c != n
    ensures !Occurs(Mark(n), Mark(c))
  {
    assert Mark(c) + "" == Mark(c);
    forall i | 0 <= i <= |Mark(c)| ensures !(Mark(n) <= Mark(c)[i..]) {
      if i < 2 + |c| {
        EarlyInHole(c, "", n, i);
      }
    }
  }

  /** What has been filled in so far keeps clear of the placeholder of `n`. */
  predicate Clear(env: map<string, string>, n: string) {
    forall c | c in env :: !Occurs(Mark(n), env[c])
  }

  /** The value first listed for a name stays. */
  function With(env: map<string, string>, n: string, value: string): map<string, string> {
    if n in env then env else env[n := value]
  }

  /** Replacing in a partly filled text fills the holes of that name and nothing else. */
  lemma {:induction false} ReplaceInFilled(t: Tpl, afterHole: bool, env: map<string, string>, n: string, value: string)
    requires Clean(t, afterHole) && IsCore(n) && Clear(env, n)
    ensures ReplaceAll(Fill(t, env), Mark(n), value) == Fill(t, With(env, n, value))
  {
    match t
    case End(x) =>
      TextIsCopied(x, n, value);
    case Hole(x, c, r) =>
      ReplaceInFilled(r, true, env, n, value);
      var u, s := Fill(r, env), if c in env then env[c] else Mark(c);
      NoneInText(x, s + u, n);
      CopiedOver(x, s + u, Mark(n), value);
      if c in env || c != n {
        if c !in env {
          MarkHoldsNoOther(c, n);
        }
        SlotIsQuiet(s, r, env, n);
        CopiedOver(s, u, Mark(n), value);
      } else {
        HoleIsFilled(x, n, u, value);
      }
  }

  // ----- the whole rendering -----

  /** No value contains the placeholder of a name listed after it. */
  predicate NotRescanned(args: Args) {
    && (forall i | 0 <= i < |args| :: IsCore(args[i].0))
    && forall i, j | 0 <= i < j < |args| :: !Occurs(Mark(args[j].0), args[i].1)
  }

  lemma {:induction false} FillNothing(t: Tpl)
    ensures Fill(t, map[]) == Flat(t)
  {
    if t.Hole? {
      FillNothing(t.rest);
    }
  }

  lemma {:induction false} RenderFilled(t: Tpl, env: map<string, string>, args: Args)
    requires Clean(t, false) && NotRescanned(args)
    requires forall i | 0 <= i < |args| :: Clear(env, args[i].0)
    ensures Render(Fill(t, env), args) == Fill(t, EnvOf(args) + env)
    decreases |args|
  {
    if args == [] {
      assert EnvOf(args) + env == env;
    } else {
      var (n, value) := args[0];
      ReplaceInFilled(t, false, env, n, value);
      RenderFilled(t, With(env, n, value), args[1..]);
      assert EnvOf(args) + env == EnvOf(args[1..]) + With(env, n, value);
    }
  }

  /** Replacing one placeholder after another gives the simultaneous substitution. */
  lemma SequentialIsSimultaneous(t: Tpl, args: Args)
    requires Clean(t, false) && NotRescanned(args)
    ensures Render(Flat(t), args) == Fill(t, EnvOf(args))
  {
    FillNothing(t);
    RenderFilled(t, map[], args);
    assert EnvOf(args) + map[] == EnvOf(args);
  }

  /** For a value of `n` and the placeholder of a later name, on every clean template
    * and for every value of that name, the condition is necessary too. */
  lemma SimultaneousIff(n: string, value: string, m: string)
    requires IsCore(n) && IsCore(m) && n != m
    ensures (forall t, w | Clean(t, false) :: Render(Flat(t), [(n, value), (m, w)]) == Fill(t, map[n := value, m := w]))
      <==> !Occurs(Mark(m), value)
  {
    if !Occurs(Mark(m), value) {
      forall t, w | Clean(t, false)
        ensures Render(Flat(t), [(n, value), (m, w)]) == Fill(t, map[n := value, m := w])
      {
        var args := [(n, value), (m, w)];
        SequentialIsSimultaneous(t, args);
        EnvOfTwo(n, value, m, w);
      }
    } else {
      var t := Hole("", n, End(""));
      ValuesAreRescanned(n, value, m, "");
      assert Clean(t, false);
      assert Render(Flat(t), [(n, value), (m, "")]) != Fill(t, map[n := value, m := ""]);
    }
  }

  lemma EnvOfTwo(n: string, value: string, m: string, w: string)
    requires n != m
    ensures EnvOf([(n, value), (m, w)]) == map[n := value, m := w]
  {
    var args := [(n, value), (m, w)];
    assert args[1..] == [(m, w)] && args[1..][1..] == [];
    assert EnvOf(args) == EnvOf(args[1..])[n := value] && EnvOf(args[1..]) == EnvOf([])[m := w];
    var none: map<string, string> := map[];
    assert none[m := w][n := value] == map[n := value, m := w];
  }

  lemma WholeHole(n: string, value: string)
    ensures ReplaceAll(Mark(n), Mark(n), value) == value
  {
    assert Mark(n)[|Mark(n)|..] == "";
    assert value + "" == value;
  }

  /** In a template that is a single hole, a value holding a later placeholder, which
    * the instance-name check allows, is replaced again. */
  lemma ValuesAreRescanned(n: string, value: string, m: string, w: string)
    requires IsCore(n) && IsCore(m) && n != m
    ensures var t := Hole("", n, End(""));
      && Render(Flat(t), [(n, value), (m, w)]) == ReplaceAll(value, Mark(m), w)
      && Fill(t, map[n := value, m := w]) == value
      && (Occurs(Mark(m), value) && w == "" ==> ReplaceAll(value, Mark(m), w) != value)
  {
    var args := [(n, value), (m, w)];
    assert args[1..] == [(m, w)] && args[1..][1..] == [];
    WholeHole(n, value);
    assert "" + (Mark(n) + "") == Mark(n);
    assert "" + (value + "") == value;
    assert Render(Mark(n), args) == Render(value, args[1..]) == Render(ReplaceAll(value, Mark(m), w), []);
    Shrinks(value, Mark(m));
  }

  /** The order of the listed placeholders does not matter. */
  lemma OrderDoesNotMatter(t: Tpl, args: Args, other: Args)
    requires Clean(t, false) && NotRescanned(args) && NotRescanned(other) && Distinct(args) && Distinct(other)
    requires forall p :: p in args <==> p in other
    ensures Render(Flat(t), args) == Render(Flat(t), other)
  {
    SequentialIsSimultaneous(t, args);
    SequentialIsSimultaneous(t, other);
    EnvOfDistinct(args);
    EnvOfDistinct(other);
    var a, b := EnvOf(args), EnvOf(other);
    forall n | n in a ensures n in b && b[n] == a[n] {
      assert (n, a[n]) in other;
    }
    forall n | n in b ensures n in a {
      assert (n, b[n]) in args;
    }
    assert a == b;
  }

  predicate Distinct(args: Args) {
    forall i, j | 0 <= i < j < |args| :: args[i].0 != args[j].0
  }

  lemma {:induction false} EnvOfDistinct(args: Args)
    requires Distinct(args)
    ensures forall p | p in args :: p.0 in EnvOf(args) && EnvOf(args)[p.0] == p.1
    ensures forall n | n in EnvOf(args) :: (n, EnvOf(args)[n]) in args
  {
    if args != [] {
      EnvOfDistinct(args[1..]);
      forall p | p in args[1..] ensures p.0 != args[0].0 {
        var k :| 0 <= k < |args[1..]| && args[1..][k] == p;
      }
    }
  }

  /** A listed placeholder is gone, whatever else the values contain. */
  lemma ListedIsGone(t: Tpl, env: map<string, string>, n: string)
    requires Clean(t, false) && IsCore(n) && n in env && Clear(env, n)
    ensures !Occurs(Mark(n), Fill(t, env))
  {
    ReplaceInFilled(t, false, env, n, "");
    Shrinks(Fill(t, env), Mark(n));
  }

  /** When every hole is listed, no double underscore, and so no placeholder, is left. */
  lemma {:induction false} NothingIsLeft(t: Tpl, env: map<string, string>)
    requires Clean(t, false) && forall n | n in env :: NoDouble(env[n])
    requires Cores(t) <= env.Keys
    ensures NoDouble(Fill(t, env))
  {
    FilledIsClean(t, env, false);
  }

  function Cores(t: Tpl): set<string> {
    match t
    case End(_) => {}
    case Hole(_, c, r) => {c} + Cores(r)
  }

  function Prepend(p: string, t: Tpl): Tpl {
    match t
    case End(x) => End(p + x)
    case Hole(x, c, r) => Hole(p + x, c, r)
  }

  /** Text, a value, and what followed the hole join up cleanly. */
  lemma PrependClean(x: string, value: string, t: Tpl, afterHole: bool)
    requires NoDouble(x) && NoDouble(value) && Clean(t, true)
    requires x != "" ==> x[|x| - 1] != '_'
    requires afterHole ==> x != "" && x[0] != '_' && Delimited(x)
    ensures Clean(Prepend(x + value, t), afterHole)
  {
    var y := (x + value) + t.text;
    assert NoDouble(y) by {
      forall i | 0 <= i < |y| - 1 ensures y[i] == '_' ==> y[i + 1] != '_' {
      }
    }
    if afterHole {
      var d :| 0 <= d < |x| && !NameChar(x[d]);
      assert y[d] == x[d] && y[0] == x[0];
    }
    if t.Hole? {
      assert t.text != "" && y[|y| - 1] == t.text[|t.text| - 1];
    }
  }

  lemma {:induction false} FilledIsClean(t: Tpl, env: map<string, string>, afterHole: bool)
    requires Clean(t, afterHole) && Cores(t) <= env.Keys && forall n | n in env :: NoDouble(env[n])
    ensures Clean(End(Fill(t, env)), afterHole)
  {
    if t.Hole? {
      FilledIsClean(t.rest, env, true);
      var w := Fill(t.rest, env);
      PrependClean(t.text, env[t.core], End(w), afterHole);
      assert (t.text + env[t.core]) + w == t.text + (env[t.core] + w);
    }
  }
}
