/** The direct scan of one file of a root that has no index. */
module FileScan {
  import opened Options
  import opened TextLines
  import opened GlobPlan

  /** A hit and the root that owns its file. */
  datatype Rooted = Rooted(root: string, hit: Hit)

  predicate OccursAt(haystack: string, needle: string, i: nat) {
    i + |needle| <= |haystack| && haystack[i..i + |needle|] == needle
  }

  /** `find`, from index `i` on. */
  function Find(haystack: string, needle: string, i: nat): Option<nat>
    requires i <= |haystack|
    decreases |haystack| - i
  {
    if OccursAt(haystack, needle, i) then Some(i)
    else if i == |haystack| then None
    else Find(haystack, needle, i + 1)
  }

  /** It finds the first occurrence, if there is one. */
  lemma {:induction false} FindIsFirst(haystack: string, needle: string, i: nat)
    requires i <= |haystack|
    ensures var r := Find(haystack, needle, i);
      && (r.Some? ==> i <= r.value && OccursAt(haystack, needle, r.value))
      && (forall j :: i <= j <= |haystack| && (r.Some? ==> j < r.value) ==> !OccursAt(haystack, needle, j))
    decreases |haystack| - i
  {
    if !OccursAt(haystack, needle, i) && i < |haystack| { FindIsFirst(haystack, needle, i + 1); }
  }

  function LowerChar(c: char): char {
    if 'A' <= c <= 'Z' then (c as int + 32) as char else c
  }

  function Lower(s: string): (r: string)
    ensures |r| == |s|
  {
    seq(|s|, i requires 0 <= i < |s| => LowerChar(s[i]))
  }

  function Folded(s: string, ignoreCase: bool): (r: string)
    ensures |r| == |s|
  {
    if ignoreCase then Lower(s) else s
  }

  /** What a scan of one file looks for; `query` is already folded when case is ignored. */
  datatype Scan = Scan(root: string, path: string, query: string, ignoreCase: bool)

  /** The row of one line: its first occurrence, if any. */
  function LineRow(k: Scan, content: string, line: nat, offset: nat): seq<Rooted> {
    var at := Find(Folded(content, k.ignoreCase), k.query, 0);
    if at.None? then []
    else [Rooted(k.root, Hit(k.path, line, content, offset + at.value, at.value, at.value + |k.query|))]
  }

  function ScanLines(k: Scan, ls: seq<string>, line: nat, offset: nat): seq<Rooted>
    decreases ls
  {
    if ls == [] then [] else LineRow(k, ls[0], line, offset) + ScanLines(k, ls[1..], line + 1, offset + |ls[0]| + 1)
  }

  function Full(limit: Option<nat>, n: nat): bool {
    limit.Some? && n >= limit.value
  }

  lemma ScanStep(k: Scan, ls: seq<string>, i: nat, offset: nat, out: seq<Rooted>, all: seq<Rooted>)
    requires i < |ls| && all == out + ScanLines(k, ls[i..], i + 1, offset)
    ensures all == out + LineRow(k, ls[i], i + 1, offset) + ScanLines(k, ls[i + 1..], i + 2, offset + |ls[i]| + 1)
  {
    assert ls[i..][1..] == ls[i + 1..];
    Assoc(out, LineRow(k, ls[i], i + 1, offset), ScanLines(k, ls[i + 1..], i + 2, offset + |ls[i]| + 1));
  }

  /** `scan_file`, on the lines of the file: appends its rows to `rows` until the limit is reached. */
  method ScanFile(k: Scan, ls: seq<string>, limit: Option<nat>, rows: seq<Rooted>) returns (out: seq<Rooted>)
    requires !Full(limit, |rows|)
    ensures out == Take(limit, rows + ScanLines(k, ls, 1, 0))
  {
    out := rows;
    var offset: nat := 0;
    ghost var all := rows + ScanLines(k, ls, 1, 0);
    for i := 0 to |ls|
      invariant !Full(limit, |out|)
      invariant all == out + ScanLines(k, ls[i..], i + 1, offset)
    {
      var found := LineRow(k, ls[i], i + 1, offset);
      ScanStep(k, ls, i, offset, out, all);
      out := out + found;
      offset := offset + |ls[i]| + 1;
      if found != [] && Full(limit, |out|) {
        assert |found| == 1;
        return;
      }
    }
  }

  /** A row is true of the file: the query stands at its byte offset, and at its submatch range in its line. */
  ghost predicate RowHolds(r: Hit, text: string, query: string, ignoreCase: bool) {
    && r.start + |query| == r.end <= |r.content| && Folded(r.content, ignoreCase)[r.start..r.end] == query
    && r.byteOffset + |query| <= |text| && Folded(text[r.byteOffset..r.byteOffset + |query|], ignoreCase) == query
  }

  lemma LineRowIs(k: Scan, content: string, line: nat, offset: nat, r: Rooted)
    requires r in LineRow(k, content, line, offset)
    ensures r.root == k.root && r.hit.line == line && r.hit.content == content
    ensures r.hit.byteOffset == offset + r.hit.start && r.hit.end == r.hit.start + |k.query|
    ensures OccursAt(Folded(content, k.ignoreCase), k.query, r.hit.start)
  {
    FindIsFirst(Folded(content, k.ignoreCase), k.query, 0);
  }

  lemma FoldedSlice(s: string, ignoreCase: bool, from: nat, to: nat)
    requires from <= to <= |s|
    ensures Folded(s[from..to], ignoreCase) == Folded(s, ignoreCase)[from..to]
  {
    var part, whole := Folded(s[from..to], ignoreCase), Folded(s, ignoreCase);
    forall i | 0 <= i < |part| ensures part[i] == whole[from..to][i] { assert s[from..to][i] == s[from + i]; }
  }

  lemma SliceOfSlice(text: string, at: nat, n: nat, from: nat, to: nat)
    requires from <= to <= n && at + n <= |text|
    ensures text[at..at + n][from..to] == text[at + from..at + to]
  {
    var line, there := text[at..at + n], text[at + from..at + to];
    forall i | 0 <= i < to - from ensures line[from..to][i] == there[i] {
      assert line[from + i] == text[at + from + i];
    }
  }

  /** The query stands in the text at offset `at`. */
  predicate StandsAt(text: string, query: string, ignoreCase: bool, at: nat) {
    at + |query| <= |text| && Folded(text[at..at + |query|], ignoreCase) == query
  }

  /** What stands in a piece of the text at `start` stands in the text at the piece's offset plus `start`. */
  lemma StandsInLine(text: string, at: nat, line: string, query: string, ignoreCase: bool, start: nat)
    requires LineAt(text, line, at) && StandsAt(line, query, ignoreCase, start)
    ensures StandsAt(text, query, ignoreCase, at + start)
  {
    SliceOfSlice(text, at, |line|, start, start + |query|);
  }

  /** The offset the scan has counted up to when it comes to line `n`. */
  function Counted(ls: seq<string>, n: nat): nat
    requires n <= |ls|
  {
    if n == 0 then 0 else |ls[0]| + 1 + Counted(ls[1..], n - 1)
  }

  /** The count misses the carriage returns that were dropped. */
  lemma {:induction false} CountedFallsShort(text: string, n: nat)
    requires n < |Lines(text)|
    ensures Counted(Lines(text), n) + Crlfs(text, n) == LineStart(text, n)
    decreases n
  {
    if n > 0 {
      LinesStep(text);
      CountedFallsShort(text[FirstLf(text) + 1..], n - 1);
    }
  }

  /** The text from line `n` on. */
  function FromLine(text: string, n: nat): string
    decreases n
  {
    if n == 0 || FirstLf(text) == |text| then text else FromLine(text[FirstLf(text) + 1..], n - 1)
  }

  lemma {:induction false} FromLineIs(text: string, n: nat)
    ensures FromLine(text, n) == text[LineStart(text, n)..]
    decreases n
  {
    if n > 0 && FirstLf(text) < |text| {
      var i := FirstLf(text);
      var tail := text[i + 1..];
      FromLineIs(tail, n - 1);
      assert FromLine(text, n) == FromLine(tail, n - 1) && LineStart(text, n) == i + 1 + LineStart(tail, n - 1);
    }
  }

  lemma {:induction false} LineIsFirst(text: string, n: nat)
    requires n < |Lines(text)|
    ensures FromLine(text, n) != "" && Lines(FromLine(text, n)) == Lines(text)[n..]
    decreases n
  {
    if n > 0 {
      LinesStep(text);
      LineIsFirst(text[FirstLf(text) + 1..], n - 1);
      assert Lines(text)[1..][n - 1..] == Lines(text)[n..];
    }
  }

  /** The line stands in the text at its start. */
  predicate LineAt(text: string, line: string, at: nat) {
    at + |line| <= |text| && line == text[at..at + |line|]
  }

  lemma FirstStands(text: string)
    requires text != ""
    ensures LineAt(text, Lines(text)[0], 0)
  {
    LinesStep(text);
  }

  lemma LineStands(text: string, n: nat)
    requires n < |Lines(text)|
    ensures LineAt(text, Lines(text)[n], LineStart(text, n))
  {
    LineIsFirst(text, n);
    assert Lines(text)[n] == Lines(FromLine(text, n))[0];
    FirstStands(FromLine(text, n));
    FromLineIs(text, n);
  }

  /** The place in the text of the submatch of a row: its line's own offset plus the submatch's offset in the line. */
  function Place(text: string, r: Hit): nat
    requires r.line > 0
  {
    LineStart(text, r.line - 1) + r.start
  }

  /** The submatch of a row is where it says in its line. */
  predicate StandsInRow(k: Scan, r: Rooted) {
    r.root == k.root && r.hit.end == r.hit.start + |k.query|
    && StandsAt(r.hit.content, k.query, k.ignoreCase, r.hit.start)
  }

  /** Every row comes from its line, under the offset counted so far. */
  lemma {:induction false} RowComesFrom(k: Scan, ls: seq<string>, line: nat, offset: nat, r: Rooted)
    requires r in ScanLines(k, ls, line, offset)
    ensures line <= r.hit.line < line + |ls|
    ensures var n := r.hit.line - line; r in LineRow(k, ls[n], line + n, offset + Counted(ls, n))
    decreases ls
  {
    if r in LineRow(k, ls[0], line, offset) {
      LineRowIs(k, ls[0], line, offset, r);
    } else {
      RowComesFrom(k, ls[1..], line + 1, offset + |ls[0]| + 1, r);
    }
  }

  /** What a scan says of a row: the line it quotes, the offset counted so far, the submatch. */
  predicate RowOf(k: Scan, ls: seq<string>, line: nat, offset: nat, r: Rooted) {
    && line <= r.hit.line < line + |ls| && r.hit.content == ls[r.hit.line - line]
    && r.hit.byteOffset == offset + Counted(ls, r.hit.line - line) + r.hit.start
    && StandsInRow(k, r)
  }

  lemma RowIs(k: Scan, ls: seq<string>, line: nat, offset: nat, r: Rooted)
    requires r in ScanLines(k, ls, line, offset)
    ensures RowOf(k, ls, line, offset, r)
  {
    RowComesFrom(k, ls, line, offset, r);
    var n := r.hit.line - line;
    LineRowIs(k, ls[n], line + n, offset + Counted(ls, n), r);
    FoldedSlice(ls[n], k.ignoreCase, r.hit.start, r.hit.start + |k.query|);
  }

  lemma StandsAtPlace(k: Scan, text: string, r: Rooted)
    requires RowOf(k, Lines(text), 1, 0, r)
    ensures StandsAt(text, k.query, k.ignoreCase, Place(text, r.hit))
  {
    LineStands(text, r.hit.line - 1);
    StandsInLine(text, LineStart(text, r.hit.line - 1), r.hit.content, k.query, k.ignoreCase, r.hit.start);
  }

  lemma FallsShort(k: Scan, text: string, r: Rooted)
    requires RowOf(k, Lines(text), 1, 0, r)
    ensures r.hit.byteOffset + Crlfs(text, r.hit.line - 1) == Place(text, r.hit)
    ensures r.hit.byteOffset == Place(text, r.hit) <==> NoCrLfBefore(text, LineStart(text, r.hit.line - 1))
  {
    CountedFallsShort(text, r.hit.line - 1);
    CrlfsNone(text, r.hit.line - 1);
  }

  /** A row's byte offset plus the number of earlier CR LF lines is the place of its submatch, where the query does
      stand; so the offset is right exactly when no CR LF ends before the row's line. */
  lemma OffsetFallsShort(k: Scan, text: string, r: Rooted)
    requires r in ScanLines(k, Lines(text), 1, 0)
    ensures 0 < r.hit.line <= |Lines(text)| && StandsAt(text, k.query, k.ignoreCase, Place(text, r.hit))
    ensures r.hit.byteOffset + Crlfs(text, r.hit.line - 1) == Place(text, r.hit)
    ensures r.hit.byteOffset == Place(text, r.hit) <==> NoCrLfBefore(text, LineStart(text, r.hit.line - 1))
  {
    RowIs(k, Lines(text), 1, 0, r);
    StandsAtPlace(k, text, r);
    FallsShort(k, text, r);
  }

  lemma RowHoldsUnlessCrLf(k: Scan, text: string, r: Rooted)
    requires RowOf(k, Lines(text), 1, 0, r) && NoCrLfBefore(text, LineStart(text, r.hit.line - 1))
    ensures r.root == k.root && RowHolds(r.hit, text, k.query, k.ignoreCase)
  {
    StandsAtPlace(k, text, r);
    FallsShort(k, text, r);
    FoldedSlice(r.hit.content, k.ignoreCase, r.hit.start, r.hit.end);
  }

  /** Every row points at the query in the file and in its line, if no CR LF ends before that line. */
  lemma RowsHold(k: Scan, text: string, r: Rooted)
    requires r in ScanLines(k, Lines(text), 1, 0)
    requires r.hit.line > 0 ==> NoCrLfBefore(text, LineStart(text, r.hit.line - 1))
    ensures r.root == k.root && RowHolds(r.hit, text, k.query, k.ignoreCase)
  {
    RowIs(k, Lines(text), 1, 0, r);
    RowHoldsUnlessCrLf(k, text, r);
  }

  predicate LineMatches(k: Scan, content: string) {
    Find(Folded(content, k.ignoreCase), k.query, 0).Some?
  }

  ghost predicate HasRow(rows: seq<Rooted>, line: nat) {
    exists i :: 0 <= i < |rows| && rows[i].hit.line == line
  }

  ghost predicate LinesWithin(rows: seq<Rooted>, from: nat, to: nat) {
    && (forall i :: 0 <= i < |rows| ==> from <= rows[i].hit.line < to)
    && (forall i, j :: 0 <= i < j < |rows| ==> rows[i].hit.line < rows[j].hit.line)
  }

  lemma LineMatchesIff(k: Scan, content: string)
    ensures LineMatches(k, content)
      <==> exists at :: 0 <= at <= |content| && OccursAt(Folded(content, k.ignoreCase), k.query, at)
  {
    FindIsFirst(Folded(content, k.ignoreCase), k.query, 0);
  }

  /** The rows come in line order, one per line at most. */
  lemma {:induction false} RowsInOrder(k: Scan, ls: seq<string>, line: nat, offset: nat)
    ensures LinesWithin(ScanLines(k, ls, line, offset), line, line + |ls|)
    decreases ls
  {
    if ls != [] {
      var first := LineRow(k, ls[0], line, offset);
      RowsInOrder(k, ls[1..], line + 1, offset + |ls[0]| + 1);
      forall i | 0 <= i < |first| ensures first[i].hit.line == line { LineRowIs(k, ls[0], line, offset, first[i]); }
    }
  }

  /** A line has a row exactly when the query occurs in it. */
  lemma {:induction false} RowsAreMatchingLines(k: Scan, ls: seq<string>, line: nat, offset: nat, n: nat)
    requires n < |ls|
    ensures HasRow(ScanLines(k, ls, line, offset), line + n) <==> LineMatches(k, ls[n])
    decreases ls
  {
    var first := LineRow(k, ls[0], line, offset);
    var rest := ScanLines(k, ls[1..], line + 1, offset + |ls[0]| + 1);
    RowsInOrder(k, ls[1..], line + 1, offset + |ls[0]| + 1);
    HasRowConcat(first, rest, line + n);
    forall i | 0 <= i < |first| ensures first[i].hit.line == line { LineRowIs(k, ls[0], line, offset, first[i]); }
    if n > 0 {
      RowsAreMatchingLines(k, ls[1..], line + 1, offset + |ls[0]| + 1, n - 1);
    } else if LineMatches(k, ls[0]) {
      assert first != [] && first[0].hit.line == line;
    }
  }

  // ---- rows in terms of the query as given ----

  /** Equal but for the case of an ASCII letter. */
  predicate SameLetter(a: char, b: char) {
    || a == b
    || ('A' <= a <= 'Z' && b as int == a as int + 32)
    || ('A' <= b <= 'Z' && a as int == b as int + 32)
  }

  /** The query stands in the line at this index, letter by letter. */
  predicate Agrees(line: string, query: string, ignoreCase: bool, at: nat) {
    && at + |query| <= |line|
    && forall j :: 0 <= j < |query| ==>
         if ignoreCase then SameLetter(line[at + j], query[j]) else line[at + j] == query[j]
  }

  lemma OccursIff(line: string, query: string, ignoreCase: bool, at: nat)
    ensures OccursAt(Folded(line, ignoreCase), Folded(query, ignoreCase), at) <==> Agrees(line, query, ignoreCase, at)
  {
    var l, q := Folded(line, ignoreCase), Folded(query, ignoreCase);
    if at + |q| <= |l| {
      assert l[at..at + |q|] == q <==> forall j :: 0 <= j < |q| ==> l[at + j] == q[j];
      forall j | 0 <= j < |q|
        ensures l[at + j] == q[j]
          <==> if ignoreCase then SameLetter(line[at + j], query[j]) else line[at + j] == query[j]
      {}
    }
  }

  /** Row `r` tells of the first place in line `n` where the query stands, and of no other; its offset counts the
      lines before, with one line feed each. */
  predicate TellsFirst(root: string, path: string, query: string, ignoreCase: bool, ls: seq<string>, n: nat, r: Rooted)
  {
    && n < |ls|
    && r == Rooted(root, Hit(path, n + 1, ls[n], |Unlines(ls[..n])| + r.hit.start, r.hit.start, r.hit.start + |query|))
    && Agrees(ls[n], query, ignoreCase, r.hit.start)
    && forall at :: 0 <= at < r.hit.start ==> !Agrees(ls[n], query, ignoreCase, at)
  }

  lemma {:induction false} CountedIsLength(ls: seq<string>, n: nat)
    requires n <= |ls|
    ensures Counted(ls, n) == |Unlines(ls[..n])|
  {
    if n > 0 {
      CountedIsLength(ls[1..], n - 1);
      assert ls[..n][1..] == ls[1..][..n - 1];
    }
  }

  /** The first place where the query stands in the line, if any. */
  ghost predicate FirstPlace(line: string, query: string, ignoreCase: bool, place: Option<nat>) {
    && (place.Some? ==> Agrees(line, query, ignoreCase, place.value))
    && (forall at: nat :: Agrees(line, query, ignoreCase, at) ==> place.Some? && place.value <= at)
  }

  /** `find` on the folded texts returns it. */
  lemma FindIsFirstPlace(line: string, query: string, ignoreCase: bool)
    ensures FirstPlace(line, query, ignoreCase, Find(Folded(line, ignoreCase), Folded(query, ignoreCase), 0))
  {
    var l, q := Folded(line, ignoreCase), Folded(query, ignoreCase);
    var found := Find(l, q, 0);
    FindIsFirst(l, q, 0);
    if found.Some? { OccursIff(line, query, ignoreCase, found.value); }
    forall at: nat | Agrees(line, query, ignoreCase, at) ensures found.Some? && found.value <= at {
      OccursIff(line, query, ignoreCase, at);
    }
  }

  lemma TellsIff(root: string, path: string, query: string, ignoreCase: bool, ls: seq<string>, n: nat, r: Rooted,
                 place: Option<nat>)
    requires n < |ls| && FirstPlace(ls[n], query, ignoreCase, place)
    ensures TellsFirst(root, path, query, ignoreCase, ls, n, r)
      <==> place.Some? && r == Rooted(root, Hit(path, n + 1, ls[n], |Unlines(ls[..n])| + place.value,
                                                place.value, place.value + |query|))
  {}

  lemma LineRowForm(k: Scan, content: string, line: nat, offset: nat, r: Rooted)
    ensures var at := Find(Folded(content, k.ignoreCase), k.query, 0);
      r in LineRow(k, content, line, offset)
      <==> at.Some? && r == Rooted(k.root, Hit(k.path, line, content, offset + at.value,
                                               at.value, at.value + |k.query|))
  {}

  lemma LineRowIff(k: Scan, query: string, ls: seq<string>, n: nat, r: Rooted)
    requires k.query == Folded(query, k.ignoreCase) && n < |ls|
    ensures r in LineRow(k, ls[n], n + 1, Counted(ls, n)) <==> TellsFirst(k.root, k.path, query, k.ignoreCase, ls, n, r)
  {
    var found := Find(Folded(ls[n], k.ignoreCase), k.query, 0);
    LineRowForm(k, ls[n], n + 1, Counted(ls, n), r);
    assert FirstPlace(ls[n], query, k.ignoreCase, found) by { FindIsFirstPlace(ls[n], query, k.ignoreCase); }
    assert Counted(ls, n) == |Unlines(ls[..n])| by { CountedIsLength(ls, n); }
    TellsIff(k.root, k.path, query, k.ignoreCase, ls, n, r, found);
  }

  lemma {:induction false} LineRowListed(k: Scan, ls: seq<string>, line: nat, offset: nat, n: nat, r: Rooted)
    requires n < |ls| && r in LineRow(k, ls[n], line + n, offset + Counted(ls, n))
    ensures r in ScanLines(k, ls, line, offset)
    decreases ls
  {
    if n > 0 { LineRowListed(k, ls[1..], line + 1, offset + |ls[0]| + 1, n - 1, r); }
  }

  /** The rows of a file are exactly those that tell of the first place in a line where the query stands. */
  lemma ScanRowsIff(k: Scan, query: string, ls: seq<string>, r: Rooted)
    requires k.query == Folded(query, k.ignoreCase)
    ensures r in ScanLines(k, ls, 1, 0) <==> exists n :: TellsFirst(k.root, k.path, query, k.ignoreCase, ls, n, r)
  {
    if r in ScanLines(k, ls, 1, 0) {
      RowComesFrom(k, ls, 1, 0, r);
      LineRowIff(k, query, ls, r.hit.line - 1, r);
    }
    if n: nat :| TellsFirst(k.root, k.path, query, k.ignoreCase, ls, n, r) {
      LineRowIff(k, query, ls, n, r);
      LineRowListed(k, ls, 1, 0, n, r);
    }
  }

  lemma HasRowConcat(a: seq<Rooted>, b: seq<Rooted>, line: nat)
    ensures HasRow(a + b, line) <==> HasRow(a, line) || HasRow(b, line)
  {
    if i :| 0 <= i < |b| && b[i].hit.line == line { assert (a + b)[|a| + i] == b[i]; }
    if i :| 0 <= i < |a| && a[i].hit.line == line { assert (a + b)[i] == a[i]; }
  }

  lemma CrlfLines(x: string, y: string)
    requires OneLine(x) && OneLine(y) && y != ""
    ensures Lines(x + [CR] + [LF] + y) == [x] + [y]
  {
    LinesCons(x + [CR], y);
    LinesStep(y);
    assert Chop(x + [CR]) == x;
    assert FirstLf(y) == |y|;
    assert Lines(y) == [y];
  }

  lemma AfterCrlf(x: string, query: string)
    requires OneLine(query) && query != ""
    ensures var text := x + [CR] + [LF] + query;
      OccursAt(text, query, |x| + 2) && !OccursAt(text, query, |x| + 1)
  {
    var text := x + [CR] + [LF] + query;
    assert text[|x| + 2..|x| + 2 + |query|] == query;
    assert text[|x| + 1] == LF && query[0] in query;
    assert text[|x| + 1..|x| + 1 + |query|][0] == LF;
  }

  /** It does fall short: a query on the second line of a CR LF file is reported one byte early, where it does not
      stand. */
  lemma CrlfShiftsOffsets(x: string, query: string)
    requires OneLine(x) && OneLine(query) && query != "" && Find(x, query, 0) == None
    ensures var text, k := x + [CR] + [LF] + query, Scan("r", "p", query, false);
      && ScanLines(k, Lines(text), 1, 0) == [Rooted("r", Hit("p", 2, query, |x| + 1, 0, |query|))]
      && OccursAt(text, query, |x| + 2) && !OccursAt(text, query, |x| + 1)
  {
    CrlfLines(x, query);
    SecondLineRow(Scan("r", "p", query, false), x);
    AfterCrlf(x, query);
  }

  lemma SecondLineRow(k: Scan, x: string)
    requires !k.ignoreCase && Find(x, k.query, 0) == None
    ensures ScanLines(k, [x] + [k.query], 1, 0) == [Rooted(k.root, Hit(k.path, 2, k.query, |x| + 1, 0, |k.query|))]
  {
    var q := k.query;
    assert ([x] + [q])[1..] == [q];
    assert q[0..0 + |q|] == q && OccursAt(q, q, 0);
    assert LineRow(k, q, 2, |x| + 1) == [Rooted(k.root, Hit(k.path, 2, q, |x| + 1, 0, |q|))];
    assert ScanLines(k, [q], 2, |x| + 1) == LineRow(k, q, 2, |x| + 1);
  }
}
