/** Rotation of the repair log: old entries are replaced by one header line that carries their number. */
module RepairLog {
  // How JSON and timestamps parse is left open; all that is assumed is that a line starting with `#` is not JSON.
  // Times are numbers.

  import opened Options
  import opened Tally
  import opened TextLines
  import Decimal

  /** The fields that rotation uses of a log line. */
  datatype View = View(timestamp: Option<string>, surface: Option<string>)

  const NO_FIELDS := View(None, None)

  /** The JSON parser, which fails on a malformed line, and the timestamp parser. */
  datatype Parser = Parser(json: string -> Option<View>, time: string -> Option<int>)

  predicate IsHeader(line: string) {
    line != "" && line[0] == '#'
  }

  ghost predicate HeadersAreNotJson(parse: Parser) {
    forall l :: IsHeader(l) ==> parse.json(l) == None
  }

  /** The test of the first pass, which takes a malformed line for one without fields. */
  predicate Summarised(parse: Parser, line: string, cutoff: int) {
    var view := parse.json(line).GetOr(NO_FIELDS);
    line != "" && view.timestamp.Some? && parse.time(view.timestamp.value).Some?
    && !(parse.time(view.timestamp.value).value >= cutoff)
  }

  /** The test of the second pass, `line_is_too_old`. */
  predicate TooOld(parse: Parser, line: string, cutoff: int) {
    match parse.json(line)
    case None => false
    case Some(view) =>
      match view.timestamp
      case None => false
      case Some(ts) => parse.time(ts).Some? && parse.time(ts).value < cutoff
  }

  // ---- the header line ----

  /** The leading digits of a text. */
  function LeadingDigits(s: string): (d: string)
    ensures d <= s && Decimal.AllDigits(d) && (|d| < |s| ==> !Decimal.IsDigit(s[|d|]))
  {
    if s == "" || !Decimal.IsDigit(s[0]) then "" else [s[0]] + LeadingDigits(s[1..])
  }

  /** The count a header line starts with. */
  function HeaderCount(line: string): nat {
    if "# compacted " <= line then Decimal.Value(LeadingDigits(line[12..]))
    else if "# " <= line then Decimal.Value(LeadingDigits(line[2..]))
    else 0
  }

  function NameCounts(counts: Tally, order: seq<string>): string
    requires forall k :: k in order ==> k in counts
  {
    if order == [] then ""
    else ", " + order[0] + "=" + Decimal.Render(counts[order[0]]) + NameCounts(counts, order[1..])
  }

  /** The header, with the surfaces in the order in which the hash map happens to list them. */
  function Header(n: nat, surfaces: Tally, order: seq<string>): string
    requires forall k :: k in order ==> k in surfaces
  {
    if order == [] then "# compacted " + Decimal.Render(n) + " entries"
    else "# " + Decimal.Render(n) + " | summarized:" + Decimal.Render(n) + "entries" + NameCounts(surfaces, order)
  }

  lemma {:induction false} DigitsThenSpace(d: string, rest: string)
    requires Decimal.AllDigits(d) && rest != "" && !Decimal.IsDigit(rest[0])
    ensures LeadingDigits(d + rest) == d
  {
    if d == "" {
      assert d + rest == rest;
    } else {
      assert (d + rest)[1..] == d[1..] + rest;
      DigitsThenSpace(d[1..], rest);
    }
  }

  lemma LeadThenRest(lead: string, d: string, line: string)
    requires lead + d + " " <= line
    ensures var rest := " " + line[|lead| + |d| + 1..];
      line == lead + (d + rest) && lead <= line && line[|lead|..] == d + rest
  {
    var stub := lead + d + " ";
    assert line == line[..|stub|] + line[|stub|..] && line[..|stub|] == stub;
  }

  lemma LeadCounts(lead: string, n: nat, line: string)
    requires (lead == "# compacted " || lead == "# ") && lead + Decimal.Render(n) + " " <= line
    ensures IsHeader(line) && HeaderCount(line) == n
  {
    var d := Decimal.Render(n);
    var rest := " " + line[|lead| + |d| + 1..];
    LeadThenRest(lead, d, line);
    DigitsThenSpace(d, rest);
    Decimal.RoundTrip(n);
    if lead == "# " {
      assert line[2] == (lead + (d + rest))[2] == d[0] && "# compacted "[2] == 'c';
    }
  }

  lemma StaysOnFirstLine(stub: string, h: string)
    requires stub <= h && OneLine(stub) && stub != "" && stub[|stub| - 1] == ' '
    ensures stub <= Chop(h[..FirstLf(h)])
  {
    FirstLfIsFirst(h);
    assert forall j :: 0 <= j < |stub| ==> h[j] == stub[j];
    assert stub <= h[..FirstLf(h)];
  }

  /** Everything up to the count is on the header's first line, so that line counts `n` whatever follows. */
  lemma FirstLineCounts(n: nat, surfaces: Tally, order: seq<string>)
    requires forall k :: k in order ==> k in surfaces
    ensures var h := Header(n, surfaces, order);
      var line := Chop(h[..FirstLf(h)]);
      IsHeader(line) && HeaderCount(line) == n
  {
    var h, d := Header(n, surfaces, order), Decimal.Render(n);
    var lead := if order == [] then "# compacted " else "# ";
    assert OneLine(lead + d + " ");
    StaysOnFirstLine(lead + d + " ", h);
    LeadCounts(lead, n, Chop(h[..FirstLf(h)]));
  }

  lemma {:induction false} NameCountsOneLine(counts: Tally, order: seq<string>)
    requires forall k :: k in order ==> k in counts && OneLine(k)
    ensures OneLine(NameCounts(counts, order))
  {
    if order != [] { NameCountsOneLine(counts, order[1..]); }
  }

  lemma HeaderOneLine(n: nat, surfaces: Tally, order: seq<string>)
    requires forall k :: k in order ==> k in surfaces && OneLine(k)
    ensures OneLine(Header(n, surfaces, order))
  {
    NameCountsOneLine(surfaces, order);
    FrontChars(Decimal.Render(n));
    var front := "# " + Decimal.Render(n) + " | summarized:" + Decimal.Render(n) + "entries";
    assert order != [] ==> Header(n, surfaces, order) == front + NameCounts(surfaces, order);
  }

  // ---- rotation ----

  function Count(parse: Parser, ls: seq<string>, cutoff: int): nat {
    if ls == [] then 0
    else Count(parse, ls[..|ls| - 1], cutoff)
         + (if Summarised(parse, ls[|ls| - 1], cutoff) then 1 else 0)
  }

  function Surfaces(parse: Parser, ls: seq<string>, cutoff: int): Tally {
    if ls == [] then map[]
    else
      var before, l := Surfaces(parse, ls[..|ls| - 1], cutoff), ls[|ls| - 1];
      var surface := parse.json(l).GetOr(NO_FIELDS).surface;
      if Summarised(parse, l, cutoff) && surface.Some? then Bump(before, surface.value, 1)
      else before
  }

  /** The lines that stay, in order. */
  function Survivors(parse: Parser, ls: seq<string>, cutoff: int): seq<string> {
    if ls == [] then []
    else Survivors(parse, ls[..|ls| - 1], cutoff)
         + (if ls[|ls| - 1] == "" || TooOld(parse, ls[|ls| - 1], cutoff) then [] else [ls[|ls| - 1]])
  }

  ghost predicate IsOrderOf(order: seq<string>, counts: Tally) {
    (forall k :: k in order <==> k in counts) && (forall i, j :: 0 <= i < j < |order| ==> order[i] != order[j])
  }

  function HeaderOf(parse: Parser, text: string, cutoff: int, order: seq<string>): string
    requires forall k :: k in order ==> k in Surfaces(parse, Lines(text), cutoff)
  {
    Header(Count(parse, Lines(text), cutoff), Surfaces(parse, Lines(text), cutoff), order)
  }

  function Rotated(parse: Parser, text: string, cutoff: int, order: seq<string>): string
    requires forall k :: k in order ==> k in Surfaces(parse, Lines(text), cutoff)
  {
    HeaderOf(parse, text, cutoff, order) + [LF] + Unlines(Survivors(parse, Lines(text), cutoff))
  }

  /** First pass: the entries to be summarised, and per surface how many. */
  method CountOld(parse: Parser, ls: seq<string>, cutoff: int) returns (summarized: nat, surfaces: Tally)
    ensures summarized == Count(parse, ls, cutoff) && surfaces == Surfaces(parse, ls, cutoff)
  {
    summarized, surfaces := 0, map[];
    for i := 0 to |ls|
      invariant summarized == Count(parse, ls[..i], cutoff) && surfaces == Surfaces(parse, ls[..i], cutoff)
    {
      assert ls[..i + 1][..i] == ls[..i];
      if ls[i] == "" { continue; }
      var view := parse.json(ls[i]).GetOr(NO_FIELDS);
      if view.timestamp.None? { continue; }
      var dt := parse.time(view.timestamp.value);
      if dt.None? { continue; }
      if dt.value >= cutoff { continue; }
      summarized := summarized + 1;
      if view.surface.Some? { surfaces := Bump(surfaces, view.surface.value, 1); }
    }
    assert ls[..|ls|] == ls;
  }

  lemma SurvivorsStep(parse: Parser, ls: seq<string>, cutoff: int, i: nat)
    requires i < |ls|
    ensures Survivors(parse, ls[..i + 1], cutoff)
      == if ls[i] == "" || TooOld(parse, ls[i], cutoff) then Survivors(parse, ls[..i], cutoff)
         else Survivors(parse, ls[..i], cutoff) + [ls[i]]
  {
    assert ls[..i + 1][..i] == ls[..i];
  }

  lemma CopyOne(start: string, kept: seq<string>, line: string)
    ensures start + Unlines(kept) + (line + [LF]) == start + Unlines(kept + [line])
  {
    UnlinesConcat(kept, [line]);
    assert Unlines([line]) == line + [LF] + "" == line + [LF];
    Assoc(start, Unlines(kept), line + [LF]);
  }

  /** Second pass: copies the lines that stay. */
  method CopySurvivors(parse: Parser, ls: seq<string>, cutoff: int, start: string) returns (out: string)
    ensures out == start + Unlines(Survivors(parse, ls, cutoff))
  {
    out := start;
    for i := 0 to |ls|
      invariant out == start + Unlines(Survivors(parse, ls[..i], cutoff))
    {
      SurvivorsStep(parse, ls, cutoff, i);
      if ls[i] == "" || TooOld(parse, ls[i], cutoff) { continue; }
      CopyOne(start, Survivors(parse, ls[..i], cutoff), ls[i]);
      out := out + (ls[i] + [LF]);
    }
    assert ls[..|ls|] == ls;
  }

  /** What can happen to the log. `io` tells whether the write (or the rename) succeeds; `order` is the order in
      which the hash map lists the surfaces. */
  datatype Event = Append(line: string, io: bool) | Rotate(cutoff: int, order: seq<string>, io: bool)

  ghost predicate Enabled(parse: Parser, log: Option<string>, e: Event) {
    e.Rotate? && log.Some? ==> IsOrderOf(e.order, Surfaces(parse, Lines(log.value), e.cutoff))
  }

  ghost function After(parse: Parser, log: Option<string>, e: Event): Option<string>
    requires Enabled(parse, log, e)
  {
    if !e.io then log
    else match e
      case Append(line, _) => Some((if log.Some? then log.value else "") + (line + [LF]))
      case Rotate(cutoff, order, _) => if log.None? then None else Some(Rotated(parse, log.value, cutoff, order))
  }

  /** The log file, absent until the first append. */
  class LogFile {
    var content: Option<string>

    constructor ()
      ensures content == None
    {
      content := None;
    }

    method Append(parse: Parser, line: string, io: bool)
      modifies this
      ensures content == After(parse, old(content), Event.Append(line, io))
    {
      if io { content := Some((if content.Some? then content.value else "") + (line + [LF])); }
    }

    method Rotate(parse: Parser, cutoff: int, order: seq<string>, io: bool) returns (summarized: nat)
      requires Enabled(parse, content, Event.Rotate(cutoff, order, io))
      modifies this
      ensures content == After(parse, old(content), Event.Rotate(cutoff, order, io))
      ensures summarized == if old(content).None? then 0 else Count(parse, Lines(old(content).value), cutoff)
    {
      if content.None? { return 0; }
      var ls := Lines(content.value);
      var surfaces;
      summarized, surfaces := CountOld(parse, ls, cutoff);
      var header := Header(summarized, surfaces, order);
      var tmp := CopySurvivors(parse, ls, cutoff, header + [LF]);
      if io { content := Some(tmp); }
    }
  }

  // ---- conservation ----

  /** What a line stands for: an entry, or the entries a header summarises. */
  function Weight(line: string): nat {
    if line == "" then 0 else if IsHeader(line) then HeaderCount(line) else 1
  }

  function Weights(ls: seq<string>): nat {
    if ls == [] then 0 else Weights(ls[..|ls| - 1]) + Weight(ls[|ls| - 1])
  }

  /** All entries a log text accounts for. */
  function Entries(text: string): nat {
    Weights(Lines(text))
  }

  lemma {:induction false} WeightsConcat(a: seq<string>, b: seq<string>)
    ensures Weights(a + b) == Weights(a) + Weights(b)
  {
    if b == [] {
      assert a + b == a;
    } else {
      WeightsConcat(a, b[..|b| - 1]);
      assert (a + b)[..|a + b| - 1] == a + b[..|b| - 1];
    }
  }

  /** Old entries leave one by one into the count; nothing else leaves. */
  lemma {:induction false} SurvivorsAndCount(parse: Parser, ls: seq<string>, cutoff: int)
    requires HeadersAreNotJson(parse)
    ensures Weights(Survivors(parse, ls, cutoff)) + Count(parse, ls, cutoff) == Weights(ls)
  {
    if ls != [] {
      var init, l := ls[..|ls| - 1], ls[|ls| - 1];
      SurvivorsAndCount(parse, init, cutoff);
      WeightsConcat(Survivors(parse, init, cutoff), if l == "" || TooOld(parse, l, cutoff) then [] else [l]);
    }
  }

  lemma {:induction false} SurvivorsAreLines(parse: Parser, ls: seq<string>, cutoff: int)
    requires HeadersAreNotJson(parse)
    ensures forall l :: l in Survivors(parse, ls, cutoff) <==> l in ls && l != "" && !TooOld(parse, l, cutoff)
    ensures forall l :: l in ls && IsHeader(l) ==> l in Survivors(parse, ls, cutoff)
  {
    if ls != [] {
      SurvivorsAreLines(parse, ls[..|ls| - 1], cutoff);
      assert ls == ls[..|ls| - 1] + [ls[|ls| - 1]];
    }
  }

  /** Lines that a reader would not shorten. */
  predicate Plain(ls: seq<string>) {
    forall l <- ls :: OneLine(l) && Chop(l) == l
  }

  lemma CutAt(a: string, i: nat, rest: string)
    requires i < |a| && a[i] == LF
    ensures a + [LF] + rest == a[..i] + [LF] + (a[i + 1..] + [LF] + rest)
    ensures a + [LF] == a[..i] + [LF] + (a[i + 1..] + [LF])
  {
    assert a == a[..i] + [LF] + a[i + 1..];
  }

  lemma {:induction false} LinesSplit(a: string, rest: string)
    ensures Lines(a + [LF] + rest) == Lines(a + [LF]) + Lines(rest)
    decreases |a|
  {
    var i := FirstLf(a);
    FirstLine(a);
    if i == |a| {
      assert a + [LF] == a + [LF] + "";
      LinesCons(a, rest);
      LinesCons(a, "");
    } else {
      CutAt(a, i, rest);
      LinesSplit(a[i + 1..], rest);
      LinesCons(a[..i], a[i + 1..] + [LF]);
      LinesCons(a[..i], a[i + 1..] + [LF] + rest);
      Assoc([Chop(a[..i])], Lines(a[i + 1..] + [LF]), Lines(rest));
    }
  }

  /** What a header text carries beyond its first line. */
  function Spill(h: string): nat {
    if FirstLf(h) == |h| then 0 else Entries(h[FirstLf(h) + 1..] + [LF])
  }

  lemma SpillOverFirstLine(h: string)
    ensures Entries(h + [LF]) == Weight(Chop(h[..FirstLf(h)])) + Spill(h)
  {
    var i := FirstLf(h);
    FirstLine(h);
    var first := Chop(h[..i]);
    assert Weights([first]) == Weight(first) by { assert [first][..0] == []; }
    if i == |h| {
      assert h[..i] == h && h + [LF] == h + [LF] + "";
      LinesCons(h, "");
    } else {
      CutAt(h, i, "");
      LinesCons(h[..i], h[i + 1..] + [LF]);
      WeightsConcat([first], Lines(h[i + 1..] + [LF]));
    }
  }

  lemma HeaderEntries(n: nat, surfaces: Tally, order: seq<string>)
    requires forall k :: k in order ==> k in surfaces
    ensures var h := Header(n, surfaces, order); Entries(h + [LF]) == n + Spill(h)
  {
    FirstLineCounts(n, surfaces, order);
    SpillOverFirstLine(Header(n, surfaces, order));
  }

  /** Rotation changes the number of entries accounted for only by what the header spills over its first line. */
  lemma RotationAccounts(parse: Parser, text: string, cutoff: int, order: seq<string>)
    requires HeadersAreNotJson(parse) && IsOrderOf(order, Surfaces(parse, Lines(text), cutoff))
    requires Plain(Lines(text))
    ensures Entries(Rotated(parse, text, cutoff, order)) == Entries(text) + Spill(HeaderOf(parse, text, cutoff, order))
  {
    var ls, h := Lines(text), HeaderOf(parse, text, cutoff, order);
    var kept := Survivors(parse, ls, cutoff);
    SurvivorsAndCount(parse, ls, cutoff);
    SurvivorsAreLines(parse, ls, cutoff);
    HeaderEntries(Count(parse, ls, cutoff), Surfaces(parse, ls, cutoff), order);
    LinesOfUnlines(kept, "");
    assert Unlines(kept) + "" == Unlines(kept) && kept + Lines("") == kept;
    LinesSplit(h, Unlines(kept));
    WeightsConcat(Lines(h + [LF]), kept);
  }

  // ---- runs ----

  /** A line of the kind `append_resolution_log` writes: a serialised entry. */
  predicate IsEntry(line: string) {
    line != "" && !IsHeader(line) && OneLine(line) && Chop(line) == line
  }

  /** A text made of whole lines, each of which reads back as written. */
  predicate Whole(text: string) {
    Plain(Lines(text)) && Unlines(Lines(text)) == text
  }

  /** The surface a line names, if any, has no line feed. */
  predicate NameIsOneLine(parse: Parser, line: string) {
    var surface := parse.json(line).GetOr(NO_FIELDS).surface;
    surface.Some? ==> OneLine(surface.value)
  }

  predicate NamesAreOneLine(parse: Parser, ls: seq<string>) {
    forall l :: l in ls ==> NameIsOneLine(parse, l)
  }

  lemma {:induction false} SurfacesOneLine(parse: Parser, ls: seq<string>, cutoff: int)
    requires NamesAreOneLine(parse, ls)
    ensures forall k :: k in Surfaces(parse, ls, cutoff) ==> OneLine(k)
  {
    if ls != [] {
      var init, l := ls[..|ls| - 1], ls[|ls| - 1];
      forall m | m in init ensures NameIsOneLine(parse, m) { assert m in ls; }
      SurfacesOneLine(parse, init, cutoff);
      assert l in ls;
    }
  }

  lemma AppendKeepsWhole(text: string, line: string)
    requires Whole(text) && IsEntry(line)
    ensures Lines(text + (line + [LF])) == Lines(text) + [line]
    ensures Whole(text + (line + [LF])) && Entries(text + (line + [LF])) == Entries(text) + 1
  {
    var ls := Lines(text);
    assert [line][..0] == [];
    UnlinesConcat(ls, [line]);
    assert Unlines([line]) == line + [LF] + "" == line + [LF];
    LinesOfUnlines(ls + [line], "");
    assert Unlines(ls + [line]) + "" == Unlines(ls + [line]) && ls + [line] + Lines("") == ls + [line];
    WeightsConcat(ls, [line]);
  }

  /** With names on one line a rotated text is again whole, its first line is the header, and the rest are the
      survivors. */
  lemma RotatedLines(parse: Parser, text: string, cutoff: int, order: seq<string>)
    requires IsOrderOf(order, Surfaces(parse, Lines(text), cutoff))
    requires Plain(Lines(text)) && NamesAreOneLine(parse, Lines(text))
    ensures Lines(Rotated(parse, text, cutoff, order))
      == [HeaderOf(parse, text, cutoff, order)] + Survivors(parse, Lines(text), cutoff)
    ensures Whole(Rotated(parse, text, cutoff, order)) && OneLine(HeaderOf(parse, text, cutoff, order))
  {
    var ls, h := Lines(text), HeaderOf(parse, text, cutoff, order);
    var kept := Survivors(parse, ls, cutoff);
    SurfacesOneLine(parse, ls, cutoff);
    HeaderOneLine(Count(parse, ls, cutoff), Surfaces(parse, ls, cutoff), order);
    HeaderNotChopped(Count(parse, ls, cutoff), Surfaces(parse, ls, cutoff), order);
    KeptAreLines(parse, ls, cutoff);
    assert ([h] + kept)[0] == h && ([h] + kept)[1..] == kept;
    LinesOfUnlines([h] + kept, "");
    assert Unlines([h] + kept) + "" == Unlines([h] + kept) && [h] + kept + Lines("") == [h] + kept;
  }

  lemma {:induction false} NameCountsEnd(counts: Tally, order: seq<string>)
    requires order != [] && forall k :: k in order ==> k in counts
    ensures var s := NameCounts(counts, order); s != "" && Decimal.IsDigit(s[|s| - 1])
  {
    if |order| > 1 { NameCountsEnd(counts, order[1..]); }
  }

  lemma HeaderNotChopped(n: nat, surfaces: Tally, order: seq<string>)
    requires forall k :: k in order ==> k in surfaces
    ensures Chop(Header(n, surfaces, order)) == Header(n, surfaces, order)
  {
    if order != [] { NameCountsEnd(surfaces, order); }
  }

  lemma {:induction false} KeptAreLines(parse: Parser, ls: seq<string>, cutoff: int)
    ensures forall l :: l in Survivors(parse, ls, cutoff) ==> l in ls
  {
    if ls != [] {
      KeptAreLines(parse, ls[..|ls| - 1], cutoff);
      SurvivorsStep(parse, ls, cutoff, |ls| - 1);
      assert ls[..|ls| - 1 + 1] == ls;
    }
  }

  ghost predicate Runs(parse: Parser, log: Option<string>, events: seq<Event>)
    decreases events
  {
    events == []
    || (Enabled(parse, log, events[0])
        && (events[0].Append? ==> IsEntry(events[0].line) && NameIsOneLine(parse, events[0].line))
        && Runs(parse, After(parse, log, events[0]), events[1..]))
  }

  ghost function Final(parse: Parser, log: Option<string>, events: seq<Event>): Option<string>
    requires Runs(parse, log, events)
    decreases events
  {
    if events == [] then log else Final(parse, After(parse, log, events[0]), events[1..])
  }

  function Appended(events: seq<Event>): nat {
    if events == [] then 0 else (if events[0].Append? && events[0].io then 1 else 0) + Appended(events[1..])
  }

  function EntriesOf(log: Option<string>): nat {
    if log.None? then 0 else Entries(log.value)
  }

  /** A log of whole lines that name surfaces on one line each; so is the absent log. */
  predicate Sound(parse: Parser, log: Option<string>) {
    log.Some? ==> Whole(log.value) && NamesAreOneLine(parse, Lines(log.value))
  }

  lemma RotatedIsSound(parse: Parser, text: string, cutoff: int, order: seq<string>)
    requires HeadersAreNotJson(parse) && IsOrderOf(order, Surfaces(parse, Lines(text), cutoff))
    requires Sound(parse, Some(text))
    ensures Sound(parse, Some(Rotated(parse, text, cutoff, order)))
  {
    var h, kept := HeaderOf(parse, text, cutoff, order), Survivors(parse, Lines(text), cutoff);
    RotatedLines(parse, text, cutoff, order);
    KeptAreLines(parse, Lines(text), cutoff);
    forall l | l in [h] + kept ensures NameIsOneLine(parse, l) { assert l == h || l in kept; }
  }

  /** One event keeps the books. */
  lemma EventConserves(parse: Parser, log: Option<string>, e: Event)
    requires HeadersAreNotJson(parse) && Sound(parse, log) && Enabled(parse, log, e)
    requires e.Append? ==> IsEntry(e.line) && NameIsOneLine(parse, e.line)
    ensures var after := After(parse, log, e);
      && Sound(parse, after)
      && EntriesOf(after) == EntriesOf(log) + if e.Append? && e.io then 1 else 0
  {
    if e.io {
      match e
      case Append(line, _) => AppendKeepsWhole(if log.Some? then log.value else "", line);
      case Rotate(cutoff, order, _) =>
        if log.Some? {
          RotatedLines(parse, log.value, cutoff, order);
          RotatedIsSound(parse, log.value, cutoff, order);
          RotationAccounts(parse, log.value, cutoff, order);
        }
    }
  }

  /** Over every run of appends and rotations the entries still in the log, plus the counts its header lines start
      with, are the entries ever appended. Only lines that are in the log or get appended must name their surface
      on one line; what the parser makes of other texts does not matter. */
  lemma {:induction false} NothingIsForgotten(parse: Parser, log: Option<string>, events: seq<Event>)
    requires HeadersAreNotJson(parse) && Sound(parse, log) && Runs(parse, log, events)
    ensures EntriesOf(Final(parse, log, events)) == EntriesOf(log) + Appended(events)
    decreases events
  {
    if events != [] {
      EventConserves(parse, log, events[0]);
      NothingIsForgotten(parse, After(parse, log, events[0]), events[1..]);
    }
  }

  // ---- what stays, and in which order ----

  lemma {:induction false} SurvivorsConcat(parse: Parser, a: seq<string>, b: seq<string>, cutoff: int)
    ensures Survivors(parse, a + b, cutoff) == Survivors(parse, a, cutoff) + Survivors(parse, b, cutoff)
  {
    if b == [] {
      assert a + b == a;
    } else {
      var n := |b| - 1;
      SurvivorsConcat(parse, a, b[..n], cutoff);
      assert (a + b)[..|a + b| - 1] == a + b[..n];
    }
  }

  /** Lines that all survive come out unchanged; this is also how later rotations pass the earlier headers on. */
  lemma {:induction false} AllSurvive(parse: Parser, ls: seq<string>, cutoff: int)
    requires forall l :: l in ls ==> l != "" && !TooOld(parse, l, cutoff)
    ensures Survivors(parse, ls, cutoff) == ls && Count(parse, ls, cutoff) == 0 && Surfaces(parse, ls, cutoff) == map[]
  {
    if ls != [] {
      assert ls == ls[..|ls| - 1] + [ls[|ls| - 1]] && ls[|ls| - 1] in ls;
      var init := ls[..|ls| - 1];
      forall l | l in init ensures l != "" && !TooOld(parse, l, cutoff) { assert l in ls; }
      AllSurvive(parse, init, cutoff);
    }
  }

  lemma NothingOld(parse: Parser, text: string, cutoff: int)
    requires Whole(text) && forall l :: l in Lines(text) ==> l != "" && !TooOld(parse, l, cutoff)
    ensures IsOrderOf([], Surfaces(parse, Lines(text), cutoff))
    ensures Rotated(parse, text, cutoff, []) == "# compacted 0 entries" + [LF] + text
  {
    AllSurvive(parse, Lines(text), cutoff);
    assert Decimal.Render(0) == "0";
    assert "# compacted " + "0" + " entries" == "# compacted 0 entries";
  }

  /** A second rotation with no later cutoff finds nothing; it puts one empty header on top of the same lines. */
  lemma RotatingTwice(parse: Parser, text: string, cutoff: int, earlier: int, order: seq<string>)
    requires HeadersAreNotJson(parse) && Whole(text) && NamesAreOneLine(parse, Lines(text)) && earlier <= cutoff
    requires IsOrderOf(order, Surfaces(parse, Lines(text), cutoff))
    ensures var once := Rotated(parse, text, cutoff, order);
      && IsOrderOf([], Surfaces(parse, Lines(once), earlier))
      && Rotated(parse, once, earlier, []) == "# compacted 0 entries" + [LF] + once
  {
    var once, h := Rotated(parse, text, cutoff, order), HeaderOf(parse, text, cutoff, order);
    RotatedLines(parse, text, cutoff, order);
    forall l | l in Lines(once) ensures l != "" && !TooOld(parse, l, earlier) {
      SurvivorsAreLines(parse, Lines(text), cutoff);
      assert l == h || l in Survivors(parse, Lines(text), cutoff);
    }
    NothingOld(parse, once, earlier);
  }

  /** Entries stamped with a field other than `timestamp` are never summarised, however old they are. */
  lemma WithoutTimestampNothingLeaves(parse: Parser, text: string, cutoff: int)
    requires Whole(text) && forall l :: l in Lines(text) ==> l != "" && parse.json(l).GetOr(NO_FIELDS).timestamp == None
    ensures IsOrderOf([], Surfaces(parse, Lines(text), cutoff))
    ensures Rotated(parse, text, cutoff, []) == "# compacted 0 entries" + [LF] + text
  {
    NothingOld(parse, text, cutoff);
  }

  // ---- surface names with line feeds ----

  lemma {:induction false} TailWeighs(t: string)
    requires t != "" && '#' !in t && Decimal.IsDigit(t[|t| - 1])
    ensures Entries(t + [LF]) > 0
    decreases |t|
  {
    var i := FirstLf(t);
    FirstLine(t);
    if i == |t| {
      assert t + [LF] == t + [LF] + "";
      LinesCons(t, "");
      assert [t][..0] == [];
    } else {
      TailWeighs(t[i + 1..]);
      SpillOverFirstLine(t);
    }
  }

  lemma {:induction false} NameCountsChars(counts: Tally, order: seq<string>, c: char)
    requires forall k :: k in order ==> k in counts
    requires c == LF || c == '#'
    ensures c in NameCounts(counts, order) <==> exists k :: k in order && c in k
  {
    if order != [] {
      NameCountsChars(counts, order[1..], c);
      var d := Decimal.Render(counts[order[0]]);
      assert forall x :: x in order <==> x == order[0] || x in order[1..];
      assert c !in d && c !in ", " && c !in "=";
      assert NameCounts(counts, order) == ", " + order[0] + "=" + d + NameCounts(counts, order[1..]);
    }
  }

  lemma HeaderChars(n: nat, surfaces: Tally, order: seq<string>)
    requires order != [] && forall k :: k in order ==> k in surfaces && '#' !in k
    ensures var h := Header(n, surfaces, order);
      && h != "" && Decimal.IsDigit(h[|h| - 1]) && '#' !in h[1..]
      && (OneLine(h) <==> forall k :: k in order ==> OneLine(k))
  {
    var d, names := Decimal.Render(n), NameCounts(surfaces, order);
    var front := "# " + d + " | summarized:" + d + "entries";
    NameCountsChars(surfaces, order, LF);
    NameCountsChars(surfaces, order, '#');
    NameCountsEnd(surfaces, order);
    FrontChars(d);
    assert (front + names)[1..] == front[1..] + names;
  }

  lemma FrontChars(d: string)
    requires Decimal.AllDigits(d)
    ensures var front := "# " + d + " | summarized:" + d + "entries"; OneLine(front) && '#' !in front[1..]
  {
    var front := "# " + d + " | summarized:" + d + "entries";
    assert front[1..] == " " + d + " | summarized:" + d + "entries";
    assert '#' !in d && LF !in d;
  }

  lemma SpillsIff(h: string)
    requires h != "" && Decimal.IsDigit(h[|h| - 1]) && '#' !in h[1..]
    ensures Spill(h) == 0 <==> OneLine(h)
  {
    var i := FirstLf(h);
    FirstLine(h);
    if i < |h| {
      assert h[i + 1..] == h[1..][i..];
      TailWeighs(h[i + 1..]);
    }
  }

  /** The lines a header text has beyond its first. */
  function SpilledLines(h: string): seq<string> {
    if FirstLf(h) == |h| then [] else Lines(h[FirstLf(h) + 1..] + [LF])
  }

  lemma {:induction false} WeighNothing(ls: seq<string>)
    ensures Weights(ls) == 0 <==> forall l :: l in ls ==> Weight(l) == 0
  {
    if ls != [] {
      WeighNothing(ls[..|ls| - 1]);
      assert forall l :: l in ls <==> l in ls[..|ls| - 1] || l == ls[|ls| - 1];
    }
  }

  /** Whatever the names are, a rotation keeps the books exactly when each line its header has beyond the first is
      empty or a header line that counts nothing. */
  lemma ConservedIff(parse: Parser, text: string, cutoff: int, order: seq<string>)
    requires HeadersAreNotJson(parse) && IsOrderOf(order, Surfaces(parse, Lines(text), cutoff))
    requires Plain(Lines(text))
    ensures Entries(Rotated(parse, text, cutoff, order)) == Entries(text)
      <==> forall l :: l in SpilledLines(HeaderOf(parse, text, cutoff, order)) ==>
             l == "" || (IsHeader(l) && HeaderCount(l) == 0)
  {
    RotationAccounts(parse, text, cutoff, order);
    WeighNothing(SpilledLines(HeaderOf(parse, text, cutoff, order)));
  }

  /** For names free of `#`, a rotation keeps the books exactly when no summarised name holds a line feed. */
  lemma ConservedIffNamesOneLine(parse: Parser, text: string, cutoff: int, order: seq<string>)
    requires HeadersAreNotJson(parse) && IsOrderOf(order, Surfaces(parse, Lines(text), cutoff))
    requires Plain(Lines(text)) && forall k :: k in order ==> '#' !in k
    ensures Entries(Rotated(parse, text, cutoff, order)) == Entries(text) <==> forall k :: k in order ==> OneLine(k)
  {
    var n, surfaces := Count(parse, Lines(text), cutoff), Surfaces(parse, Lines(text), cutoff);
    RotationAccounts(parse, text, cutoff, order);
    if order == [] {
      HeaderOneLine(n, surfaces, order);
    } else {
      HeaderChars(n, surfaces, order);
      SpillsIff(Header(n, surfaces, order));
    }
  }

  // ---- line by line ----

  /** What a rotation does with one line, by what its fields say. */
  lemma LineLeavesIff(parse: Parser, l: string, cutoff: int)
    requires l != ""
    ensures match parse.json(l)
      case Some(View(Some(ts), surface)) =>
        (match parse.time(ts)
         case Some(t) =>
           if t < cutoff then
             && Count(parse, [l], cutoff) == 1 && Survivors(parse, [l], cutoff) == []
             && Surfaces(parse, [l], cutoff) == (if surface.Some? then map[surface.value := 1] else map[])
           else Stays(parse, l, cutoff)
         case None => Stays(parse, l, cutoff))
      case _ => Stays(parse, l, cutoff)
  {
    assert [l][..0] == [];
    assert Count(parse, [], cutoff) == 0 && Surfaces(parse, [], cutoff) == map[] && Survivors(parse, [], cutoff) == [];
  }

  /** The line is copied and nothing is counted. */
  predicate Stays(parse: Parser, l: string, cutoff: int) {
    Count(parse, [l], cutoff) == 0 && Survivors(parse, [l], cutoff) == [l] && Surfaces(parse, [l], cutoff) == map[]
  }

  /** Empty lines are dropped uncounted. */
  lemma EmptyLineGoes(parse: Parser, cutoff: int)
    ensures Count(parse, [""], cutoff) == 0 && Survivors(parse, [""], cutoff) == []
    ensures Surfaces(parse, [""], cutoff) == map[]
  {
    assert [""][..0] == [];
  }

  /** And a log is rotated line by line. */
  lemma {:induction false} CountsConcat(parse: Parser, a: seq<string>, b: seq<string>, cutoff: int)
    ensures Count(parse, a + b, cutoff) == Count(parse, a, cutoff) + Count(parse, b, cutoff)
    ensures Surfaces(parse, a + b, cutoff) == Merged(Surfaces(parse, a, cutoff), Surfaces(parse, b, cutoff))
  {
    if b == [] {
      assert a + b == a;
      MergedUnit(Surfaces(parse, a, cutoff));
    } else {
      var init, l := b[..|b| - 1], b[|b| - 1];
      assert (a + b)[..|a + b| - 1] == a + init;
      CountsConcat(parse, a, init, cutoff);
      var surface := parse.json(l).GetOr(NO_FIELDS).surface;
      if surface.Some? {
        BumpThroughMerge(Surfaces(parse, a, cutoff), Surfaces(parse, init, cutoff), surface.value, 1);
      }
    }
  }

  /** The header without surfaces and with one. */
  lemma ShortHeader(n: nat, surfaces: Tally, k: string)
    requires k in surfaces
    ensures Header(n, surfaces, []) == "# compacted " + Decimal.Render(n) + " entries"
    ensures Header(n, surfaces, [k]) == "# " + Decimal.Render(n) + " | summarized:" + Decimal.Render(n) + "entries"
                                        + (", " + k + "=" + Decimal.Render(surfaces[k]))
  {
    NameCountsAppend(surfaces, [], k);
    assert [] + [k] == [k];
  }

  /** Each further surface stands at the end with its own count. */
  lemma LongerHeader(n: nat, surfaces: Tally, order: seq<string>, k: string)
    requires order != [] && (forall x :: x in order ==> x in surfaces) && k in surfaces
    ensures Header(n, surfaces, order + [k])
      == Header(n, surfaces, order) + (", " + k + "=" + Decimal.Render(surfaces[k]))
  {
    var front := "# " + Decimal.Render(n) + " | summarized:" + Decimal.Render(n) + "entries";
    NameCountsAppend(surfaces, order, k);
    Assoc(front, NameCounts(surfaces, order), ", " + k + "=" + Decimal.Render(surfaces[k]));
  }

  lemma {:induction false} NameCountsAppend(surfaces: Tally, order: seq<string>, k: string)
    requires (forall x :: x in order ==> x in surfaces) && k in surfaces
    ensures NameCounts(surfaces, order + [k])
      == NameCounts(surfaces, order) + (", " + k + "=" + Decimal.Render(surfaces[k]))
  {
    var last := ", " + k + "=" + Decimal.Render(surfaces[k]);
    if order == [] {
      assert [] + [k] == [k] && [k][1..] == [] && last + "" == last && "" + last == last;
    } else {
      var first := ", " + order[0] + "=" + Decimal.Render(surfaces[order[0]]);
      assert (order + [k])[1..] == order[1..] + [k] && (order + [k])[0] == order[0];
      NameCountsAppend(surfaces, order[1..], k);
      Assoc(first, NameCounts(surfaces, order[1..]), last);
    }
  }
}
