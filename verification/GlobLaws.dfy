/** What the constructs of a glob stand for, one law each.
    Together with plain text, which stands for itself, they cover `*`, `?`, a leading `**` component, classes with
    single characters, ranges and negation, braces with inner braces, and backslash escapes. Each law holds for any
    rest of the pattern and any text. */
module GlobLaws {
  import opened GlobPlan

  /** A `*` stands for any text. */
  lemma {:induction false} StarMatches(p: string, s: string, start: bool)
    requires !(start && "*/" <= p)
    ensures Matches("*" + p, s, start) <==> exists k :: 0 <= k <= |s| && Matches(p, s[k..], false)
    decreases |s|
  {
    assert ("*" + p)[1..] == p;
    assert "*/" <= p <==> |p| >= 2 && p[0] == '*' && p[1] == '/';
    if s != "" {
      StarMatches(p, s[1..], start);
      if Matches("*" + p, s[1..], start) {
        var k :| 0 <= k <= |s[1..]| && Matches(p, s[1..][k..], false);
        assert s[1..][k..] == s[k + 1..];
      }
      if k :| 0 <= k <= |s| && Matches(p, s[k..], false) {
        if k == 0 { assert s[0..] == s; } else { assert s[1..][k - 1..] == s[k..]; }
      }
    }
    assert s[0..] == s;
  }

  /** A `?` stands for any one character. */
  lemma QuestionMatches(p: string, s: string, start: bool)
    ensures Matches("?" + p, s, start) <==> s != "" && Matches(p, s[1..], false)
  {
    assert ("?" + p)[1..] == p;
  }

  /** Text without glob characters and backslashes stands for itself. */
  lemma {:induction false} LiteralMatches(w: string, p: string, s: string, start: bool)
    requires forall c :: c in w ==> c !in "*?[{\\"
    ensures Matches(w + p, s, start)
      <==> w <= s && Matches(p, s[|w|..], if w == "" then start else w[|w| - 1] == '/')
    decreases |w|
  {
    if w == "" {
      assert w + p == p && s[0..] == s;
    } else {
      assert w[0] in w && (w + p)[1..] == w[1..] + p && (w + p)[0] == w[0];
      if s != "" && s[0] == w[0] {
        LiteralMatches(w[1..], p, s[1..], w[0] == '/');
        assert [s[0]] + s[1..] == s && [w[0]] + w[1..] == w;
        assert w <= s <==> w[1..] <= s[1..];
        if w <= s { assert s[1..][|w[1..]|..] == s[|w|..]; }
      }
    }
  }

  /** A leading `**` component stands for any number of whole components, none included. */
  lemma DoubleStarMatches(p: string, s: string)
    ensures Matches("**/" + p, s, true)
      <==> exists k :: 0 <= k <= |s| && (k == 0 || s[k - 1] == '/') && Matches(p, s[k..], true)
  {
    var q := "/" + p;
    assert ("**/" + p)[3..] == p && ("**/" + p)[1..] == "*" + q;
    StarMatches(q, s, false);
    forall k | 0 <= k <= |s|
      ensures Matches(q, s[k..], false) <==> k < |s| && s[k] == '/' && Matches(p, s[k + 1..], true)
    {
      LiteralMatches("/", p, s[k..], false);
      if k < |s| {
        assert s[k..][1..] == s[k + 1..] && ("/" <= s[k..] <==> s[k] == '/');
      }
    }
    if Matches("**/" + p, s, true) {
      if Matches(p, s, true) {
        assert s[0..] == s;
      } else {
        var k :| 0 <= k <= |s| && Matches(q, s[k..], false);
        assert s[(k + 1) - 1] == '/' && Matches(p, s[k + 1..], true);
      }
    }
    if k :| 0 <= k <= |s| && (k == 0 || s[k - 1] == '/') && Matches(p, s[k..], true) {
      if k == 0 { assert s[0..] == s; } else { assert Matches(q, s[k - 1..], false); }
    }
  }

  lemma {:induction false} ClassEndAt(p: string, i: nat, e: nat, first: bool)
    requires i <= e < |p| && p[e] == ']' && (first ==> i < e) && forall j :: i <= j < e ==> p[j] != ']'
    ensures ClassEnd(p, i, first) == e
    decreases e - i
  {
    if i < e { ClassEndAt(p, i + 1, e, false); }
  }

  lemma {:induction false} PlainClass(m: string, c: char)
    requires '-' !in m
    ensures InClass(m, c) <==> c in m
    decreases |m|
  {
    if m != "" {
      if |m| >= 3 { assert m[1] in m; }
      assert m == [m[0]] + m[1..];
      PlainClass(m[1..], c);
    }
  }

  /** A class of single characters stands for one of them. */
  lemma ClassMatchesOne(m: string, p: string, s: string, start: bool)
    requires m != "" && (forall c :: c in m ==> c !in "]-") && m[0] !in "!^"
    ensures Matches("[" + m + "]" + p, s, start) <==> s != "" && s[0] in m && Matches(p, s[1..], false)
  {
    var g, e := "[" + m + "]" + p, |m| + 1;
    assert g[1..e] == m && g[e + 1..] == p && g[0] == '[' && g[1] == m[0] && g[e] == ']';
    forall j | 1 <= j < e ensures g[j] != ']' { assert g[j] == m[j - 1] && m[j - 1] in m; }
    ClassEndAt(g, 1, e, true);
    if s != "" { PlainClass(m, s[0]); }
  }

  /** A negated one for any other character. */
  lemma ClassMatchesOther(m: string, p: string, s: string, start: bool, not: char)
    requires m != "" && (forall c :: c in m ==> c !in "]-") && not in "!^"
    ensures Matches("[" + ([not] + m) + "]" + p, s, start) <==> s != "" && s[0] !in m && Matches(p, s[1..], false)
  {
    var body, e := [not] + m, |m| + 2;
    var g := "[" + body + "]" + p;
    assert g[1..e] == body && body[1..] == m && g[e + 1..] == p && g[0] == '[' && g[1] == not && g[e] == ']';
    forall j | 2 <= j < e ensures g[j] != ']' { assert g[j] == m[j - 2] && m[j - 2] in m; }
    ClassEndAt(g, 2, e, true);
    if s != "" { PlainClass(m, s[0]); }
  }

  /** A range stands for the characters in it. */
  lemma RangeMatches(lo: char, hi: char, p: string, s: string, start: bool)
    requires lo !in "!^]" && hi != ']'
    ensures Matches("[" + [lo, '-', hi] + "]" + p, s, start)
      <==> s != "" && lo <= s[0] <= hi && Matches(p, s[1..], false)
  {
    var m := [lo, '-', hi];
    var g := "[" + m + "]" + p;
    assert g[1..4] == m && g[5..] == p && g[0] == '[' && g[1] == lo && g[2] == '-' && g[3] == hi && g[4] == ']';
    ClassEndAt(g, 1, 4, true);
    assert m[3..] == "";
    if s != "" { assert InClass(m, s[0]) <==> lo <= s[0] <= hi || InClass("", s[0]); }
  }

  lemma {:induction false} BraceEndAt(p: string, i: nat, e: nat)
    requires i <= e < |p| && p[e] == '}' && forall j :: i <= j < e ==> p[j] !in "{}"
    ensures BraceEnd(p, i, 0) == e
    decreases e - i
  {
    if i < e { BraceEndAt(p, i + 1, e); }
  }

  lemma {:induction false} LastAlternative(body: string, i: nat, from: nat)
    requires from <= i <= |body| && forall j :: i <= j < |body| ==> body[j] !in "{},"
    ensures Alternatives(body, i, from, 0) == [body[from..]]
    decreases |body| - i
  {
    if i < |body| { LastAlternative(body, i + 1, from); }
  }

  lemma {:induction false} TwoAlternatives(a: string, b: string, i: nat)
    requires i <= |a| && forall c :: c in a + b ==> c !in "{},"
    ensures Alternatives(a + "," + b, i, 0, 0) == [a, b]
    decreases |a| - i
  {
    var body := a + "," + b;
    if i == |a| {
      forall j | i + 1 <= j < |body| ensures body[j] !in "{}," {
        assert body[j] == b[j - i - 1] && b[j - i - 1] in a + b;
      }
      LastAlternative(body, i + 1, i + 1);
      assert body[0..i] == a && body[i + 1..] == b;
    } else {
      assert body[i] == a[i] && a[i] in a + b;
      TwoAlternatives(a, b, i + 1);
    }
  }

  /** Braces stand for one of their alternatives. */
  lemma BraceMatches(a: string, b: string, p: string, s: string, start: bool)
    requires forall c :: c in a + b ==> c !in "{},"
    ensures Matches("{" + (a + "," + b) + "}" + p, s, start) <==> Matches(a + p, s, start) || Matches(b + p, s, start)
  {
    var body := a + "," + b;
    var g, e := "{" + body + "}" + p, |body| + 1;
    assert g[1..e] == body && g[e + 1..] == p && g[0] == '{';
    forall j | 1 <= j < e ensures g[j] !in "{}" {
      assert g[j] == body[j - 1];
      if j - 1 != |a| { assert body[j - 1] in a + b; }
    }
    BraceEndAt(g, 1, e);
    TwoAlternatives(a, b, 0);
    var alts := Alternatives(g[1..e], 0, 0, 0);
    assert alts == [a, b] && alts[0] in alts && alts[1] in alts;
  }

  /** The empty glob stands for the empty text. */
  lemma EmptyMatches(s: string, start: bool)
    ensures Matches("", s, start) <==> s == ""
  {}

  /** After a backslash any character stands for itself; a backslash at the end for nothing. */
  lemma EscapeMatches(c: char, p: string, s: string, start: bool)
    ensures Matches(['\\', c] + p, s, start) <==> s != "" && s[0] == c && Matches(p, s[1..], c == '/')
    ensures !Matches("\\", s, start)
  {
    assert (['\\', c] + p)[2..] == p;
  }

  /** A `]` that comes first in a class is one of its characters. */
  lemma BracketFirst(m: string, p: string, s: string, start: bool)
    requires forall c :: c in m ==> c !in "]-"
    ensures Matches("[" + ("]" + m) + "]" + p, s, start)
      <==> s != "" && (s[0] == ']' || s[0] in m) && Matches(p, s[1..], false)
  {
    var body, e := "]" + m, |m| + 2;
    var g := "[" + body + "]" + p;
    assert g[1..e] == body && g[e + 1..] == p && g[0] == '[' && g[1] == ']' && g[e] == ']';
    forall j | 2 <= j < e ensures g[j] != ']' { assert g[j] == m[j - 2] && m[j - 2] in m; }
    ClassEndAt(g, 2, e, false);
    assert ClassEnd(g, 1, true) == e;
    forall c | c in body ensures c != '-' { if c != ']' { assert c in m; } }
    if s != "" { PlainClass(body, s[0]); }
  }

  predicate Flat(t: string) {
    forall c :: c in t ==> c !in "{},"
  }

  lemma {:induction false} BraceSkips(p: string, i: nat, stop: nat, depth: nat)
    requires i <= stop <= |p| && forall j :: i <= j < stop ==> p[j] !in "{}"
    ensures BraceEnd(p, i, depth) == BraceEnd(p, stop, depth)
    decreases stop - i
  {
    if i < stop { BraceSkips(p, i + 1, stop, depth); }
  }

  lemma {:induction false} AlternativesSkip(body: string, i: nat, stop: nat, from: nat, depth: int)
    requires from <= i <= stop <= |body|
    requires forall j :: i <= j < stop ==> body[j] !in "{}" && (depth == 0 ==> body[j] != ',')
    ensures Alternatives(body, i, from, depth) == Alternatives(body, stop, from, depth)
    decreases stop - i
  {
    if i < stop { AlternativesSkip(body, i + 1, stop, from, depth); }
  }

  lemma FlatAt(pre: string, t: string, post: string, i: nat)
    requires Flat(t) && |pre| <= i < |pre| + |t|
    ensures (pre + t + post)[i] !in "{},"
  {
    assert (pre + t + post)[i] == t[i - |pre|] && t[i - |pre|] in t;
  }

  /** A comma inside inner braces does not separate the outer alternatives. */
  lemma NestedBraces(a: string, b: string, c: string, d: string, e: string)
    requires Flat(a) && Flat(b) && Flat(c) && Flat(d) && Flat(e)
    ensures var inner := a + "{" + b + "," + c + "}" + d;
      var body := inner + "," + e;
      && Alternatives(body, 0, 0, 0) == [inner, e]
      && BraceEnd("{" + body + "}", 1, 0) == |body| + 1
  {
    var inner := a + "{" + b + "," + c + "}" + d;
    var body := inner + "," + e;
    var open, comma, close, sep := |a|, |a| + 1 + |b|, |a| + 2 + |b| + |c|, |inner|;
    assert body[open] == '{' && body[comma] == ',' && body[close] == '}' && body[sep] == ',';
    forall i | 0 <= i < |body| && i != open && i != comma && i != close && i != sep ensures body[i] !in "{}," {
      if i < open { FlatAt("", a, "", i); assert body[i] == a[i]; }
      else if i < comma { FlatAt("", b, "", i - open - 1); assert body[i] == b[i - open - 1]; }
      else if i < close { FlatAt("", c, "", i - comma - 1); assert body[i] == c[i - comma - 1]; }
      else if i < sep { FlatAt("", d, "", i - close - 1); assert body[i] == d[i - close - 1]; }
      else { FlatAt("", e, "", i - sep - 1); assert body[i] == e[i - sep - 1]; }
    }
    NestedAlternatives(body, open, close, sep);
    assert body[0..sep] == inner && body[sep + 1..] == e;
    var g := "{" + body + "}";
    assert forall i :: 1 <= i <= |body| ==> g[i] == body[i - 1];
    NestedEnd(g, open + 1, close + 1);
  }

  lemma NestedAlternatives(body: string, open: nat, close: nat, sep: nat)
    requires open < close < sep < |body|
    requires body[open] == '{' && body[close] == '}' && body[sep] == ','
    requires forall i :: 0 <= i < |body| && i != open && i != close ==> body[i] !in "{}"
    requires forall i :: (0 <= i < open || close < i < sep || sep < i < |body|) ==> body[i] != ','
    ensures Alternatives(body, 0, 0, 0) == [body[0..sep], body[sep + 1..]]
  {
    AlternativesSkip(body, 0, open, 0, 0);
    AlternativesSkip(body, open + 1, close, 0, 1);
    AlternativesSkip(body, close + 1, sep, 0, 0);
    LastAlternative(body, sep + 1, sep + 1);
  }

  lemma NestedEnd(g: string, open: nat, close: nat)
    requires 1 <= open < close < |g| - 1 && g[open] == '{' && g[close] == '}' && g[|g| - 1] == '}'
    requires forall i :: 1 <= i < |g| - 1 && i != open && i != close ==> g[i] !in "{}"
    ensures BraceEnd(g, 1, 0) == |g| - 1
  {
    BraceSkips(g, 1, open, 0);
    BraceSkips(g, open + 1, close, 1);
    BraceSkips(g, close + 1, |g| - 1, 0);
  }
}
