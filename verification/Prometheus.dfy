/** Labelled counter families in the Prometheus text exposition format 0.0.4, and a reader for them.
    A family is a help line, a type line, and one line per sample: the metric's name, the labels with their quoted
    values, and the count. Quotes, backslashes and line feeds in label values are escaped.
    The reader goes through the lines of a text, takes those of one name, and undoes the quoting; what the
    writers write reads back as what they were given. */
module Prometheus {
  import opened Options
  import opened TextLines
  import Decimal

  const QUOTE := '"'
  const BACKSLASH := '\\'

  /** `str::replace` with a one-character pattern. */
  function Replace(s: string, c: char, r: string): string {
    if s == "" then "" else (if s[0] == c then r else [s[0]]) + Replace(s[1..], c, r)
  }

  function EscapeLabelValue(s: string): string {
    Replace(Replace(Replace(s, BACKSLASH, [BACKSLASH, BACKSLASH]), QUOTE, [BACKSLASH, QUOTE]), LF, [BACKSLASH, 'n'])
  }

  // ---- three passes are one ----

  function EscapeChar(c: char): string {
    if c == BACKSLASH then [BACKSLASH, BACKSLASH]
    else if c == QUOTE then [BACKSLASH, QUOTE]
    else if c == LF then [BACKSLASH, 'n']
    else [c]
  }

  function Escape(s: string): string {
    if s == "" then "" else EscapeChar(s[0]) + Escape(s[1..])
  }

  lemma {:induction false} ReplaceConcat(a: string, b: string, c: char, r: string)
    ensures Replace(a + b, c, r) == Replace(a, c, r) + Replace(b, c, r)
  {
    if a == "" {
      assert a + b == b;
    } else {
      assert (a + b)[1..] == a[1..] + b;
      ReplaceConcat(a[1..], b, c, r);
    }
  }

  lemma ReplaceOne(x: char, c: char, r: string)
    ensures Replace([x], c, r) == if x == c then r else [x]
  {
    assert [x][1..] == "";
  }

  lemma ReplaceTwo(x: char, y: char, c: char, r: string)
    requires x != c && y != c
    ensures Replace([x, y], c, r) == [x, y]
  {
    assert [x, y] == [x] + [y];
    ReplaceConcat([x], [y], c, r);
    ReplaceOne(x, c, r);
    ReplaceOne(y, c, r);
  }

  lemma EscapeOne(c: char)
    ensures EscapeLabelValue([c]) == EscapeChar(c)
  {
    var one, two, three := [BACKSLASH, BACKSLASH], [BACKSLASH, QUOTE], [BACKSLASH, 'n'];
    ReplaceOne(c, BACKSLASH, one);
    ReplaceOne(c, QUOTE, two);
    ReplaceOne(c, LF, three);
    ReplaceTwo(BACKSLASH, BACKSLASH, QUOTE, two);
    ReplaceTwo(BACKSLASH, BACKSLASH, LF, three);
    ReplaceTwo(BACKSLASH, QUOTE, LF, three);
  }

  /** The chained replacements never touch one another's output. */
  lemma {:induction false} EscapesCharByChar(s: string)
    ensures EscapeLabelValue(s) == Escape(s)
  {
    if s != "" {
      var c, rest := [s[0]], s[1..];
      assert s == c + rest;
      var first := Replace(c, BACKSLASH, [BACKSLASH, BACKSLASH]);
      var second := Replace(first, QUOTE, [BACKSLASH, QUOTE]);
      ReplaceConcat(c, rest, BACKSLASH, [BACKSLASH, BACKSLASH]);
      var first1 := Replace(rest, BACKSLASH, [BACKSLASH, BACKSLASH]);
      ReplaceConcat(first, first1, QUOTE, [BACKSLASH, QUOTE]);
      ReplaceConcat(second, Replace(first1, QUOTE, [BACKSLASH, QUOTE]), LF, [BACKSLASH, 'n']);
      EscapeOne(s[0]);
      EscapesCharByChar(rest);
    }
  }

  // ---- reading a label value back ----

  /** The value up to the closing quote, and what follows it. */
  function Unquote(s: string): Option<(string, string)> {
    if s == "" then None
    else if s[0] == QUOTE then Some(("", s[1..]))
    else if s[0] == BACKSLASH then
      if |s| < 2 || s[1] !in [BACKSLASH, QUOTE, 'n'] then None
      else
        var later := Unquote(s[2..]);
        if later.None? then None
        else Some(([if s[1] == 'n' then LF else s[1]] + later.value.0, later.value.1))
    else
      var later := Unquote(s[1..]);
      if later.None? then None else Some(([s[0]] + later.value.0, later.value.1))
  }

  /** Unescaping inverts escaping, for every string, and stops at the closing quote. */
  lemma {:induction false} UnquoteEscaped(s: string, rest: string)
    ensures Unquote(EscapeLabelValue(s) + [QUOTE] + rest) == Some((s, rest))
  {
    EscapesCharByChar(s);
    if s == "" {
      assert Escape(s) + [QUOTE] + rest == [QUOTE] + rest;
    } else {
      var e, tail := EscapeChar(s[0]), Escape(s[1..]) + [QUOTE] + rest;
      EscapesCharByChar(s[1..]);
      UnquoteEscaped(s[1..], rest);
      var t := Escape(s) + [QUOTE] + rest;
      assert t == e + tail;
      assert t[|e|..] == tail && s == [s[0]] + s[1..];
    }
  }

  lemma {:induction false} EscapedOneLine(s: string)
    ensures OneLine(EscapeLabelValue(s))
  {
    EscapesCharByChar(s);
    if s != "" {
      EscapesCharByChar(s[1..]);
      EscapedOneLine(s[1..]);
    }
  }

  // ---- samples and families ----

  /** One time series: the label values and the count. */
  datatype Sample = Sample(values: seq<string>, count: nat)

  function Labels(names: seq<string>, values: seq<string>): string
    requires |names| == |values|
    decreases names, 1
  {
    if names == [] then ""
    else names[0] + "=\"" + EscapeLabelValue(values[0]) + "\"" + More(names, values)
  }

  function More(names: seq<string>, values: seq<string>): string
    requires |names| == |values| > 0
    decreases names, 0
  {
    if |names| == 1 then "" else "," + Labels(names[1..], values[1..])
  }

  function SampleLine(name: string, names: seq<string>, s: Sample): string
    requires |names| == |s.values|
  {
    name + "{" + Labels(names, s.values) + "} " + Decimal.Render(s.count)
  }

  predicate Shaped(names: seq<string>, samples: seq<Sample>) {
    forall s :: s in samples ==> |s.values| == |names|
  }

  function SampleLines(name: string, names: seq<string>, samples: seq<Sample>): seq<string>
    requires Shaped(names, samples)
  {
    seq(|samples|, i requires 0 <= i < |samples| => SampleLine(name, names, samples[i]))
  }

  function FamilyText(name: string, help: string, names: seq<string>, samples: seq<Sample>): string
    requires Shaped(names, samples)
  {
    Unlines(Header(name, help) + SampleLines(name, names, samples))
  }

  lemma UnlinesStep(ls: seq<string>, line: string)
    ensures Unlines(ls + [line]) == Unlines(ls) + (line + [LF])
  {
    UnlinesConcat(ls, [line]);
    assert Unlines([line]) == line + [LF] + "" == line + [LF];
  }

  function Header(name: string, help: string): seq<string> {
    ["# HELP " + name + " " + help, "# TYPE " + name + " counter"]
  }

  /** A map listed in key order, as one sample per key. */
  function Single(values: seq<(string, nat)>): (r: seq<Sample>)
    ensures |r| == |values| && forall i :: 0 <= i < |r| ==> r[i] == Sample([values[i].0], values[i].1)
  {
    seq(|values|, i requires 0 <= i < |values| => Sample([values[i].0], values[i].1))
  }

  /** A map of maps listed in key order, as one sample per pair of keys. */
  function Pairs(tool: string, codes: seq<(string, nat)>): (r: seq<Sample>)
    ensures |r| == |codes| && forall i :: 0 <= i < |r| ==> r[i] == Sample([tool, codes[i].0], codes[i].1)
  {
    seq(|codes|, i requires 0 <= i < |codes| => Sample([tool, codes[i].0], codes[i].1))
  }

  function Nested(values: seq<(string, seq<(string, nat)>)>): (r: seq<Sample>)
    ensures forall x :: x in r ==> |x.values| == 2
  {
    if values == [] then []
    else Nested(values[..|values| - 1]) + Pairs(values[|values| - 1].0, values[|values| - 1].1)
  }

  /** One more line at the end of a family text. */
  lemma FamilyGrows(start: string, name: string, help: string, names: seq<string>, samples: seq<Sample>, s: Sample)
    requires Shaped(names, samples) && |s.values| == |names|
    ensures Shaped(names, samples + [s])
    ensures start + FamilyText(name, help, names, samples + [s])
      == start + FamilyText(name, help, names, samples) + (SampleLine(name, names, s) + [LF])
  {
    var front, ls := Header(name, help), SampleLines(name, names, samples);
    assert SampleLines(name, names, samples + [s]) == ls + [SampleLine(name, names, s)];
    Assoc(front, ls, [SampleLine(name, names, s)]);
    UnlinesStep(front + ls, SampleLine(name, names, s));
    Assoc(start, Unlines(front + ls), SampleLine(name, names, s) + [LF]);
  }

  method WriteHeader(start: string, name: string, help: string, names: seq<string>) returns (out: string)
    ensures out == start + FamilyText(name, help, names, [])
  {
    out := start + ("# HELP " + name + " " + help + [LF]);
    out := out + ("# TYPE " + name + " counter" + [LF]);
    UnlinesStep([], Header(name, help)[0]);
    UnlinesStep([Header(name, help)[0]], Header(name, help)[1]);
    assert [Header(name, help)[0]] + [Header(name, help)[1]] == Header(name, help) + SampleLines(name, names, []);
    assert [] + [Header(name, help)[0]] == [Header(name, help)[0]];
  }

  /** `write_labeled_counter` */
  method WriteLabeledCounter(start: string, name: string, help: string, labelName: string, values: seq<(string, nat)>)
    returns (out: string)
    ensures out == start + FamilyText(name, help, [labelName], Single(values))
  {
    out := WriteHeader(start, name, help, [labelName]);
    assert Single(values)[..0] == [];
    for i := 0 to |values|
      invariant Shaped([labelName], Single(values)[..i])
      invariant out == start + FamilyText(name, help, [labelName], Single(values)[..i])
    {
      FamilyGrows(start, name, help, [labelName], Single(values)[..i], Single(values)[i]);
      assert Single(values)[..i] + [Single(values)[i]] == Single(values)[..i + 1];
      out := out + (SampleLine(name, [labelName], Sample([values[i].0], values[i].1)) + [LF]);
    }
    assert Single(values)[..|values|] == Single(values);
  }

  const CODES_NAME := "synrepo_mcp_tool_error_codes_total"
  const CODES_HELP := "Observed: MCP tool errors keyed by tool " + "and stable error code."
  const CODES_LABELS := ["tool", "code"]

  /** `write_tool_error_code_counter` */
  method WriteToolErrorCodeCounter(start: string, values: seq<(string, seq<(string, nat)>)>) returns (out: string)
    ensures out == start + FamilyText(CODES_NAME, CODES_HELP, CODES_LABELS, Nested(values))
  {
    out := WriteHeader(start, CODES_NAME, CODES_HELP, CODES_LABELS);
    for i := 0 to |values|
      invariant out == start + FamilyText(CODES_NAME, CODES_HELP, CODES_LABELS, Nested(values[..i]))
    {
      var tool, codes := values[i].0, values[i].1;
      ghost var done, pairs := Nested(values[..i]), Pairs(tool, codes);
      assert done + pairs[..0] == done;
      for j := 0 to |codes|
        invariant Shaped(CODES_LABELS, done + pairs[..j])
        invariant out == start + FamilyText(CODES_NAME, CODES_HELP, CODES_LABELS, done + pairs[..j])
      {
        FamilyGrows(start, CODES_NAME, CODES_HELP, CODES_LABELS, done + pairs[..j], pairs[j]);
        assert done + pairs[..j] + [pairs[j]] == done + pairs[..j + 1];
        out := out + (SampleLine(CODES_NAME, CODES_LABELS, Sample([tool, codes[j].0], codes[j].1)) + [LF]);
      }
      assert pairs[..|codes|] == pairs && values[..i + 1][..i] == values[..i];
    }
    assert values[..|values|] == values;
  }

  // ---- reading a family ----

  function ReadLabels(s: string, names: seq<string>): Option<(seq<string>, string)>
    decreases names
  {
    if names == [] then Some(([], s))
    else
      var lead := names[0] + "=\"";
      if !(lead <= s) then None
      else
        var v := Unquote(s[|lead|..]);
        if v.None? then None
        else if |names| == 1 then Some(([v.value.0], v.value.1))
        else if v.value.1 == "" || v.value.1[0] != ',' then None
        else
          var later := ReadLabels(v.value.1[1..], names[1..]);
          if later.None? then None else Some(([v.value.0] + later.value.0, later.value.1))
  }

  function ReadSample(line: string, name: string, names: seq<string>): Option<Sample> {
    if !(name + "{" <= line) then None
    else
      var labels := ReadLabels(line[|name| + 1..], names);
      if labels.None? || !("} " <= labels.value.1) then None
      else
        var digits := labels.value.1[2..];
        if digits == "" || !Decimal.AllDigits(digits) then None
        else Some(Sample(labels.value.0, Decimal.Value(digits)))
  }

  /** All samples of the lines, comments skipped; nothing if some line is malformed. */
  function ReadLines(ls: seq<string>, name: string, names: seq<string>): Option<seq<Sample>> {
    if ls == [] then Some([])
    else
      var later := ReadLines(ls[1..], name, names);
      if later.None? then None
      else if ls[0] != "" && ls[0][0] == '#' then later
      else
        var s := ReadSample(ls[0], name, names);
        if s.None? then None else Some([s.value] + later.value)
  }

  lemma FirstLabel(names: seq<string>, values: seq<string>, rest: string)
    requires |names| == |values| > 0
    ensures var lead, s := names[0] + "=\"", Labels(names, values) + rest;
      lead <= s && s[|lead|..] == EscapeLabelValue(values[0]) + [QUOTE] + (More(names, values) + rest)
  {
    var lead, value, more := names[0] + "=\"", EscapeLabelValue(values[0]), More(names, values);
    assert Labels(names, values) == lead + value + [QUOTE] + more;
    Assoc(lead + value + [QUOTE], more, rest);
    Assoc(lead, value, [QUOTE]);
    Assoc(lead, value + [QUOTE], more + rest);
  }

  /** The first label is read, and the reader goes on behind it. */
  lemma ReadsFirstLabel(names: seq<string>, values: seq<string>, rest: string)
    requires |names| == |values| > 0
    ensures var s := Labels(names, values) + rest;
      names[0] + "=\"" <= s && Unquote(s[|names[0]| + 2..]) == Some((values[0], More(names, values) + rest))
  {
    FirstLabel(names, values, rest);
    UnquoteEscaped(values[0], More(names, values) + rest);
  }

  lemma {:induction false} LabelsRoundTrip(names: seq<string>, values: seq<string>, rest: string)
    requires |names| == |values|
    ensures ReadLabels(Labels(names, values) + rest, names) == Some((values, rest))
    decreases names
  {
    if names == [] {
      assert "" + rest == rest;
    } else {
      ReadsFirstLabel(names, values, rest);
      var more := More(names, values) + rest;
      if |names| == 1 {
        assert more == rest && values == [values[0]];
      } else {
        assert more[1..] == Labels(names[1..], values[1..]) + rest;
        LabelsRoundTrip(names[1..], values[1..], rest);
        assert values == [values[0]] + values[1..];
      }
    }
  }

  lemma SampleRoundTrip(name: string, names: seq<string>, s: Sample)
    requires |names| == |s.values|
    ensures ReadSample(SampleLine(name, names, s), name, names) == Some(s)
  {
    var line, digits := SampleLine(name, names, s), Decimal.Render(s.count);
    var rest := "} " + digits;
    assert line == name + "{" + (Labels(names, s.values) + rest);
    assert line[|name| + 1..] == Labels(names, s.values) + rest;
    LabelsRoundTrip(names, s.values, rest);
    assert rest[2..] == digits;
    Decimal.RoundTrip(s.count);
  }

  predicate IsName(name: string) {
    name != "" && forall c :: c in name ==> c == '_' || 'a' <= c <= 'z' || 'A' <= c <= 'Z' || Decimal.IsDigit(c)
  }

  predicate AreNames(names: seq<string>) {
    forall n :: n in names ==> IsName(n)
  }

  lemma {:induction false} LabelsOneLine(names: seq<string>, values: seq<string>)
    requires |names| == |values| && AreNames(names)
    ensures OneLine(Labels(names, values))
  {
    if names != [] {
      assert names[0] in names;
      EscapedOneLine(values[0]);
      LabelsOneLine(names[1..], values[1..]);
    }
  }

  lemma SampleOneLine(name: string, names: seq<string>, s: Sample)
    requires |names| == |s.values| && IsName(name) && AreNames(names)
    ensures var line := SampleLine(name, names, s); OneLine(line) && Chop(line) == line && line[0] != '#'
  {
    LabelsOneLine(names, s.values);
    var line, digits := SampleLine(name, names, s), Decimal.Render(s.count);
    assert line[|line| - 1] == digits[|digits| - 1] && Decimal.IsDigit(digits[|digits| - 1]);
    assert line[0] == name[0] && name[0] in name;
  }

  lemma {:induction false} SamplesRoundTrip(name: string, names: seq<string>, samples: seq<Sample>)
    requires Shaped(names, samples) && IsName(name) && AreNames(names)
    ensures ReadLines(SampleLines(name, names, samples), name, names) == Some(samples)
  {
    if samples != [] {
      assert samples == [samples[0]] + samples[1..];
      SamplesRoundTrip(name, names, samples[1..]);
      assert SampleLines(name, names, samples)[1..] == SampleLines(name, names, samples[1..]);
      SampleRoundTrip(name, names, samples[0]);
      SampleOneLine(name, names, samples[0]);
    }
  }

  lemma CommentsSkipped(name: string, help: string, names: seq<string>, rows: seq<string>)
    ensures ReadLines(Header(name, help) + rows, name, names) == ReadLines(rows, name, names)
  {
    var front := Header(name, help);
    assert (front + rows)[1..] == [front[1]] + rows && (front + rows)[1..][1..] == rows;
  }

  lemma FamilyLines(name: string, help: string, names: seq<string>, samples: seq<Sample>)
    requires Shaped(names, samples) && IsName(name) && AreNames(names) && OneLine(help) && Chop(help) == help
    ensures Lines(FamilyText(name, help, names, samples)) == Header(name, help) + SampleLines(name, names, samples)
  {
    var rows := SampleLines(name, names, samples);
    var ls := Header(name, help) + rows;
    assert help != "" ==> ls[0][|ls[0]| - 1] == help[|help| - 1];
    forall l | l in ls ensures OneLine(l) && Chop(l) == l {
      if l in rows {
        var i :| 0 <= i < |rows| && rows[i] == l;
        SampleOneLine(name, names, samples[i]);
      }
    }
    LinesOfUnlines(ls, "");
    assert Unlines(ls) + "" == Unlines(ls) && ls + Lines("") == ls;
  }

  /** A family text reads back as exactly the samples it was written from: every label value, whatever its characters,
      every count, in order. */
  lemma FamilyRoundTrip(name: string, help: string, names: seq<string>, samples: seq<Sample>)
    requires Shaped(names, samples) && IsName(name) && AreNames(names) && OneLine(help) && Chop(help) == help
    ensures ReadLines(Lines(FamilyText(name, help, names, samples)), name, names) == Some(samples)
  {
    FamilyLines(name, help, names, samples);
    CommentsSkipped(name, help, names, SampleLines(name, names, samples));
    SamplesRoundTrip(name, names, samples);
  }

  // ---- the maps come back ----

  /** The map that a listing in key order lists. */
  function MapOf(values: seq<(string, nat)>): map<string, nat> {
    if values == [] then map[] else MapOf(values[..|values| - 1])[values[|values| - 1].0 := values[|values| - 1].1]
  }

  function MapOfMaps(values: seq<(string, seq<(string, nat)>)>): map<string, map<string, nat>> {
    if values == [] then map[]
    else MapOfMaps(values[..|values| - 1])[values[|values| - 1].0 := MapOf(values[|values| - 1].1)]
  }

  /** The map that samples with one label stand for. */
  function CountsOf(samples: seq<Sample>): map<string, nat>
    requires forall s :: s in samples ==> |s.values| == 1
  {
    if samples == [] then map[]
    else
      var init, last := samples[..|samples| - 1], samples[|samples| - 1];
      CountsOf(init)[last.values[0] := last.count]
  }

  function RowOf(m: map<string, map<string, nat>>, k: string): map<string, nat> {
    if k in m then m[k] else map[]
  }

  /** The map of maps that samples with two labels stand for. */
  function NestedOf(samples: seq<Sample>): map<string, map<string, nat>>
    requires forall s :: s in samples ==> |s.values| == 2
  {
    if samples == [] then map[]
    else
      var init, last := samples[..|samples| - 1], samples[|samples| - 1];
      var before := NestedOf(init);
      before[last.values[0] := RowOf(before, last.values[0])[last.values[1] := last.count]]
  }

  lemma {:induction false} SingleCounts(values: seq<(string, nat)>)
    ensures CountsOf(Single(values)) == MapOf(values)
  {
    if values != [] {
      var n := |values| - 1;
      SingleCounts(values[..n]);
      assert Single(values)[..n] == Single(values[..n]);
    }
  }

  /** One more sample of a tool. */
  lemma SampleAdds(xs: seq<Sample>, x: Sample)
    requires (forall s :: s in xs ==> |s.values| == 2) && |x.values| == 2
    ensures forall s :: s in xs + [x] ==> |s.values| == 2
    ensures var before := NestedOf(xs);
      NestedOf(xs + [x]) == before[x.values[0] := RowOf(before, x.values[0])[x.values[1] := x.count]]
  {
    assert (xs + [x])[..|xs + [x]| - 1] == xs;
  }

  lemma PairsStep(tool: string, codes: seq<(string, nat)>)
    requires codes != []
    ensures var n := |codes| - 1;
      Pairs(tool, codes) == Pairs(tool, codes[..n]) + [Sample([tool, codes[n].0], codes[n].1)]
  {}

  lemma {:induction false} PairsAdd(xs: seq<Sample>, tool: string, codes: seq<(string, nat)>)
    requires (forall s :: s in xs ==> |s.values| == 2) && tool !in NestedOf(xs)
    ensures NestedOf(xs + Pairs(tool, codes))
      == if codes == [] then NestedOf(xs) else NestedOf(xs)[tool := MapOf(codes)]
  {
    if codes == [] {
      assert xs + Pairs(tool, codes) == xs;
    } else {
      var n := |codes| - 1;
      var x, before := Sample([tool, codes[n].0], codes[n].1), xs + Pairs(tool, codes[..n]);
      PairsAdd(xs, tool, codes[..n]);
      PairsStep(tool, codes);
      Assoc(xs, Pairs(tool, codes[..n]), [x]);
      SampleAdds(before, x);
      assert RowOf(NestedOf(before), tool) == MapOf(codes[..n]);
    }
  }

  /** The rows that are not empty. */
  function NonEmpty(m: map<string, map<string, nat>>): map<string, map<string, nat>> {
    map k | k in m && m[k] != map[] :: m[k]
  }

  predicate ToolsDistinct(values: seq<(string, seq<(string, nat)>)>) {
    forall i, j :: 0 <= i < j < |values| ==> values[i].0 != values[j].0
  }

  lemma {:induction false} MapOfMapsKeys(values: seq<(string, seq<(string, nat)>)>, k: string)
    ensures k in MapOfMaps(values) <==> exists i :: 0 <= i < |values| && values[i].0 == k
  {
    if values != [] { MapOfMapsKeys(values[..|values| - 1], k); }
  }

  lemma NonEmptyAdds(m: map<string, map<string, nat>>, k: string, row: map<string, nat>)
    requires k !in m
    ensures NonEmpty(m[k := row]) == if row == map[] then NonEmpty(m) else NonEmpty(m)[k := row]
  {}

  lemma MapOfEmptyIff(codes: seq<(string, nat)>)
    ensures MapOf(codes) == map[] <==> codes == []
  {
    if codes != [] { assert codes[|codes| - 1].0 in MapOf(codes); }
  }

  lemma {:induction false} NestedCounts(values: seq<(string, seq<(string, nat)>)>)
    requires ToolsDistinct(values)
    ensures NestedOf(Nested(values)) == NonEmpty(MapOfMaps(values))
  {
    if values != [] {
      var n := |values| - 1;
      var init, tool, codes := values[..n], values[n].0, values[n].1;
      NestedCounts(init);
      MapOfMapsKeys(init, tool);
      PairsAdd(Nested(init), tool, codes);
      NonEmptyAdds(MapOfMaps(init), tool, MapOf(codes));
      MapOfEmptyIff(codes);
    }
  }

  /** What `write_labeled_counter` writes reads back as the map it was given. */
  lemma LabeledCounterRoundTrip(name: string, help: string, labelName: string, values: seq<(string, nat)>)
    requires IsName(name) && IsName(labelName) && OneLine(help) && Chop(help) == help
    ensures var read := ReadLines(Lines(FamilyText(name, help, [labelName], Single(values))), name, [labelName]);
      read == Some(Single(values)) && CountsOf(Single(values)) == MapOf(values)
  {
    FamilyRoundTrip(name, help, [labelName], Single(values));
    SingleCounts(values);
  }

  lemma NameJoins(a: string, b: string)
    requires IsName(a) && IsName(b)
    ensures IsName(a + b)
  {}

  lemma CodesNameIsName()
    ensures IsName(CODES_NAME)
  {
    assert CODES_NAME == "synrepo_mcp_tool" + "_error_codes_total";
    NameJoins("synrepo_mcp_tool", "_error_codes_total");
  }

  lemma OneLineJoins(a: string, b: string)
    requires OneLine(a) && OneLine(b)
    ensures OneLine(a + b)
  {}

  lemma CodesHelpIsOneLine()
    ensures OneLine(CODES_HELP) && Chop(CODES_HELP) == CODES_HELP
  {
    OneLineJoins("Observed: MCP tool errors keyed by tool ", "and stable error code.");
  }

  /** What `write_tool_error_code_counter` writes reads back as the map of maps it was given, up to empty rows. */
  lemma ToolErrorCodeRoundTrip(values: seq<(string, seq<(string, nat)>)>)
    requires ToolsDistinct(values)
    ensures var text := FamilyText(CODES_NAME, CODES_HELP, CODES_LABELS, Nested(values));
      && ReadLines(Lines(text), CODES_NAME, CODES_LABELS) == Some(Nested(values))
      && NestedOf(Nested(values)) == NonEmpty(MapOfMaps(values))
  {
    CodesNameIsName();
    CodesHelpIsOneLine();
    FamilyRoundTrip(CODES_NAME, CODES_HELP, CODES_LABELS, Nested(values));
    NestedCounts(values);
  }
}
