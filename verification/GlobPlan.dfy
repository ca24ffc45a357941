/** Path filters with glob characters: the filter is turned into a plain prefix for the index, the index is asked for
    more rows than wanted, and the rows are matched against the glob afterwards. */
module GlobPlan {
  import opened Options

  // ---- glob patterns ----

  predicate IsGlobChar(c: char) {
    c == '*' || c == '?' || c == '[' || c == '{'
  }

  predicate ContainsGlobChars(s: string) {
    exists i :: 0 <= i < |s| && IsGlobChar(s[i])
  }

  /** Index of the `]` that closes the class opened before `i`, or `|p|`; a `]` in first position is a member. */
  function ClassEnd(p: string, i: nat, first: bool): (e: nat)
    requires i <= |p|
    ensures i <= e <= |p|
    decreases |p| - i
  {
    if i == |p| then i
    else if p[i] == ']' && !first then i
    else ClassEnd(p, i + 1, false)
  }

  predicate InClass(members: string, c: char)
    decreases |members|
  {
    if |members| >= 3 && members[1] == '-' then members[0] <= c <= members[2] || InClass(members[3..], c)
    else members != "" && (members[0] == c || InClass(members[1..], c))
  }

  predicate ClassMatches(body: string, c: char) {
    if body != "" && (body[0] == '!' || body[0] == '^') then !InClass(body[1..], c) else InClass(body, c)
  }

  /** Index of the `}` that closes the brace opened before `i`, or `|p|`. */
  function BraceEnd(p: string, i: nat, depth: nat): (e: nat)
    requires i <= |p|
    ensures i <= e <= |p|
    decreases |p| - i
  {
    if i == |p| then i
    else if p[i] == '{' then BraceEnd(p, i + 1, depth + 1)
    else if p[i] == '}' then if depth == 0 then i else BraceEnd(p, i + 1, depth - 1)
    else BraceEnd(p, i + 1, depth)
  }

  /** The alternatives of a brace body: the pieces between commas outside inner braces. */
  function Alternatives(body: string, i: nat, from: nat, depth: int): (alts: seq<string>)
    requires from <= i <= |body|
    ensures forall a :: a in alts ==> |a| <= |body|
    decreases |body| - i
  {
    if i == |body| then [body[from..]]
    else if body[i] == ',' && depth == 0 then [body[from..i]] + Alternatives(body, i + 1, i + 1, 0)
    else
      var inner := if body[i] == '{' then depth + 1 else if body[i] == '}' then depth - 1 else depth;
      Alternatives(body, i + 1, from, inner)
  }

  /** Whether a glob matches a path. `*` and `?` also match `/`; a `**` component matches any number of whole
      components, including none; `start` says that the pattern position begins a component. */
  predicate Matches(p: string, s: string, start: bool)
    decreases |p|, |s|
  {
    if p == "" then s == ""
    else if p[0] == '?' then s != "" && Matches(p[1..], s[1..], false)
    else if p[0] == '*' then
      if start && |p| >= 3 && p[1] == '*' && p[2] == '/' then Matches(p[3..], s, true) || Matches(p[1..], s, false)
      else Matches(p[1..], s, false) || (s != "" && Matches(p, s[1..], start))
    else if p[0] == '[' then
      var e := ClassEnd(p, if |p| >= 2 && (p[1] == '!' || p[1] == '^') then 2 else 1, true);
      e < |p| && s != "" && ClassMatches(p[1..e], s[0]) && Matches(p[e + 1..], s[1..], false)
    else if p[0] == '{' then
      var e := BraceEnd(p, 1, 0);
      e < |p| && exists a :: a in Alternatives(p[1..e], 0, 0, 0) && Matches(a + p[e + 1..], s, start)
    else if p[0] == '\\' then |p| >= 2 && s != "" && s[0] == p[1] && Matches(p[2..], s[1..], p[1] == '/')
    else s != "" && s[0] == p[0] && Matches(p[1..], s[1..], p[0] == '/')
  }

  // ---- the plain prefix ----

  function FirstGlobChar(f: string): (i: nat)
    ensures i <= |f| && (i < |f| ==> IsGlobChar(f[i]))
    ensures forall j :: 0 <= j < i ==> !IsGlobChar(f[j])
  {
    if f == "" || IsGlobChar(f[0]) then 0 else 1 + FirstGlobChar(f[1..])
  }

  /** One past the last `/`, or 0. */
  function AfterLastSlash(s: string): (i: nat)
    ensures i <= |s| && (i > 0 ==> s[i - 1] == '/')
    ensures forall j :: i <= j < |s| ==> s[j] != '/'
  {
    if s == "" then 0 else if s[|s| - 1] == '/' then |s| else AfterLastSlash(s[..|s| - 1])
  }

  function NonGlobPrefix(f: string): string {
    var m := FirstGlobChar(f);
    if m == |f| then f else f[..AfterLastSlash(f[..m])]
  }

  /** `extract_non_glob_prefix` */
  method ExtractNonGlobPrefix(filter: string) returns (prefix: string)
    ensures prefix == NonGlobPrefix(filter)
  {
    var lastSlash := 0;
    for i := 0 to |filter|
      invariant forall j :: 0 <= j < i ==> !IsGlobChar(filter[j])
      invariant lastSlash == AfterLastSlash(filter[..i])
    {
      if IsGlobChar(filter[i]) {
        assert FirstGlobChar(filter) == i;
        return filter[..lastSlash];
      }
      assert filter[..i + 1][..i] == filter[..i];
      if filter[i] == '/' { lastSlash := i + 1; }
    }
    assert FirstGlobChar(filter) == |filter|;
    return filter;
  }

  /** What a stretch of pattern without glob characters stands for. */
  function Unescape(w: string): string {
    if w == "" then ""
    else if w[0] == '\\' && |w| >= 2 then [w[1]] + Unescape(w[2..])
    else [w[0]] + Unescape(w[1..])
  }

  predicate NoGlobChars(w: string) {
    forall i :: 0 <= i < |w| ==> !IsGlobChar(w[i])
  }

  /** A literal or escaped first character. */
  lemma LiteralStep(p: string, s: string, start: bool)
    requires p != "" && !IsGlobChar(p[0]) && Matches(p, s, start)
    ensures s != ""
    ensures if p[0] == '\\' then |p| >= 2 && s[0] == p[1] && Matches(p[2..], s[1..], p[1] == '/')
            else s[0] == p[0] && Matches(p[1..], s[1..], p[0] == '/')
  {}

  lemma PrefixCons(c: char, tail: string, s: string)
    requires s != "" && s[0] == c && tail <= s[1..]
    ensures [c] + tail <= s
  {
    assert [s[0]] + s[1..] == s;
  }

  /** A stretch that does not end inside an escape is matched literally. */
  lemma {:induction false} LiteralStretch(w: string, rest: string, s: string, start: bool)
    requires NoGlobChars(w) && (w == "" || w[|w| - 1] != '\\')
    requires Matches(w + rest, s, start)
    ensures Unescape(w) <= s
    decreases |w|
  {
    if w != "" {
      var step := if w[0] == '\\' then 2 else 1;
      LiteralStep(w + rest, s, start);
      assert (w + rest)[step..] == w[step..] + rest && (w + rest)[step - 1] == w[step - 1];
      LiteralStretch(w[step..], rest, s[1..], w[step - 1] == '/');
      PrefixCons(w[step - 1], Unescape(w[step..]), s);
    }
  }

  lemma {:induction false} UnescapePlain(w: string)
    requires '\\' !in w
    ensures Unescape(w) == w
  {
    if w != "" { UnescapePlain(w[1..]); }
  }

  predicate AllBackslashes(b: string) {
    forall i :: 0 <= i < |b| ==> b[i] == '\\'
  }

  /** Unescaping falls behind for good once it has skipped a backslash. */
  lemma {:induction false} NeverCatchesUp(b: string, w: string)
    requires b != "" && AllBackslashes(b) && w != "" && w[|w| - 1] != '\\'
    ensures !(Unescape(w) <= b + w)
    decreases |w|
  {
    if w[0] == '\\' {
      if w[1] == '\\' {
        var b' := b + ['\\'];
        NeverCatchesUp(b', w[2..]);
        assert (b + w)[1..] == b' + w[2..];
        assert Unescape(w)[1..] == Unescape(w[2..]);
      }
    }
    PrefixTail(Unescape(w), b + w);
    assert (b + w)[0] == b[0] == '\\';
  }

  lemma PrefixTail(s: string, t: string)
    ensures s != "" && s <= t ==> s[0] == t[0] && s[1..] <= t[1..]
  {
    if s != "" && s <= t {
      forall i | 0 <= i < |s[1..]| ensures s[1..][i] == t[1..][i] { assert s[i + 1] == t[i + 1]; }
    }
  }

  lemma {:induction false} EscapesBreakPrefix(w: string)
    requires '\\' in w && w[|w| - 1] != '\\'
    ensures !(Unescape(w) <= w)
    decreases |w|
  {
    if w[0] == '\\' {
      if w[1] == '\\' {
        NeverCatchesUp(['\\'], w[2..]);
        assert w[1..] == ['\\'] + w[2..] && Unescape(w)[1..] == Unescape(w[2..]);
      }
    } else {
      EscapesBreakPrefix(w[1..]);
      assert Unescape(w)[1..] == Unescape(w[1..]);
    }
    PrefixTail(Unescape(w), w);
  }

  lemma NotBothPrefixes(s: string, w: string, path: string)
    requires s <= path && |s| <= |w| && !(s <= w)
    ensures !(w <= path)
  {
    assert s != w[..|s|];
    var i :| 0 <= i < |s| && s[i] != w[i];
    assert path[i] == s[i];
  }

  /** Every path a glob matches starts with the glob's plain prefix, exactly when that prefix has no backslash. */
  lemma MatchesStartWithPrefix(filter: string, path: string)
    requires ContainsGlobChars(filter) && Matches(filter, path, true)
    ensures NonGlobPrefix(filter) <= path <==> '\\' !in NonGlobPrefix(filter)
  {
    var w := NonGlobPrefix(filter);
    PrefixIsPlain(filter);
    LiteralStretch(w, filter[|w|..], path, true);
    PrefixOfUnescaped(w, path);
  }

  lemma PrefixIsPlain(filter: string)
    requires ContainsGlobChars(filter)
    ensures var w := NonGlobPrefix(filter);
      && w <= filter && filter == w + filter[|w|..] && NoGlobChars(w) && (w == "" || w[|w| - 1] != '\\')
  {}

  /** A path that starts with the unescaped text starts with the text itself exactly when that has no backslash. */
  lemma PrefixOfUnescaped(w: string, path: string)
    requires Unescape(w) <= path && (w == "" || w[|w| - 1] != '\\')
    ensures w <= path <==> '\\' !in w
  {
    if '\\' in w {
      EscapesBreakPrefix(w);
      UnescapeIsShorter(w);
      NotBothPrefixes(Unescape(w), w, path);
    } else {
      UnescapePlain(w);
    }
  }

  lemma {:induction false} UnescapeIsShorter(w: string)
    ensures |Unescape(w)| <= |w|
  {
    if w != "" { UnescapeIsShorter(if w[0] == '\\' && |w| >= 2 then w[2..] else w[1..]); }
  }

  // ---- the plan ----

  /** One row of a search: `line` is 1-based, `start` and `end` are offsets into `content`, `byteOffset` into the
      file. */
  datatype Hit = Hit(path: string, line: nat, content: string, byteOffset: nat, start: nat, end: nat)

  function Filter<T>(xs: seq<T>, keep: T -> bool): seq<T> {
    if xs == [] then [] else (if keep(xs[0]) then [xs[0]] else []) + Filter(xs[1..], keep)
  }

  function Take<T>(limit: Option<nat>, xs: seq<T>): seq<T> {
    if limit.Some? && limit.value < |xs| then xs[..limit.value] else xs
  }

  /** The index contract: the first rows, in a fixed order, whose path starts with the prefix. */
  function IndexSearch(hits: seq<Hit>, prefix: Option<string>, limit: Option<nat>): seq<Hit> {
    Take(limit, Filter(hits, StartsWith(prefix)))
  }

  function StartsWith(prefix: Option<string>): Hit -> bool {
    (h: Hit) => prefix.Some? ==> prefix.value <= h.path
  }

  function GlobKeeps(filter: string): Hit -> bool {
    (h: Hit) => Matches(filter, h.path, true)
  }

  /** The meaning of a path filter: a glob if it has glob characters, otherwise a prefix. */
  function Keeps(filter: Option<string>): Hit -> bool {
    if filter.Some? && ContainsGlobChars(filter.value) then GlobKeeps(filter.value) else StartsWith(filter)
  }

  const OVERFETCH_LIMIT := 10000
  const OVERFETCH_MULTIPLIER := 200

  /** `glob_filter_overfetch_limit`; the saturating product is cut off long before it could saturate. */
  function OverfetchLimit(limit: Option<nat>): nat {
    if limit.None? then OVERFETCH_LIMIT
    else if limit.value * OVERFETCH_MULTIPLIER < OVERFETCH_LIMIT then limit.value * OVERFETCH_MULTIPLIER
    else OVERFETCH_LIMIT
  }

  function IndexPrefix(filter: string): Option<string> {
    if NonGlobPrefix(filter) == "" then None else Some(NonGlobPrefix(filter))
  }

  /** `search_with_options` on an index that holds `hits`; `None` is the error for a pattern that is no glob. */
  function SearchWithOptions(hits: seq<Hit>, filter: Option<string>, limit: Option<nat>, globOk: bool)
    : Option<seq<Hit>>
  {
    if filter.Some? && ContainsGlobChars(filter.value) then
      if !globOk then None
      else Some(Take(limit, Filter(IndexSearch(hits, IndexPrefix(filter.value), Some(OverfetchLimit(limit))),
                                   GlobKeeps(filter.value))))
    else Some(IndexSearch(hits, filter, limit))
  }

  /** What a search should return: the first `limit` rows the filter keeps. */
  function Wanted(hits: seq<Hit>, filter: Option<string>, limit: Option<nat>): seq<Hit> {
    Take(limit, Filter(hits, Keeps(filter)))
  }

  lemma {:induction false} FilterConcat<T>(xs: seq<T>, ys: seq<T>, keep: T -> bool)
    ensures Filter(xs + ys, keep) == Filter(xs, keep) + Filter(ys, keep)
  {
    if xs == [] {
      assert xs + ys == ys;
    } else {
      FilterConcat(xs[1..], ys, keep);
      assert (xs + ys)[0] == xs[0] && (xs + ys)[1..] == xs[1..] + ys;
      var first := if keep(xs[0]) then [xs[0]] else [];
      assert first + (Filter(xs[1..], keep) + Filter(ys, keep)) == first + Filter(xs[1..], keep) + Filter(ys, keep);
    }
  }

  /** Filtering by a weaker test first changes nothing. */
  lemma {:induction false} FilterTwice<T>(xs: seq<T>, weak: T -> bool, strong: T -> bool)
    requires forall x :: x in xs && strong(x) ==> weak(x)
    ensures Filter(Filter(xs, weak), strong) == Filter(xs, strong)
  {
    if xs != [] {
      FilterTwice(xs[1..], weak, strong);
      FilterConcat(if weak(xs[0]) then [xs[0]] else [], Filter(xs[1..], weak), strong);
      assert xs[0] in xs;
      assert Filter([xs[0]], strong) == if strong(xs[0]) then [xs[0]] else [];
    }
  }

  /** No row that the glob keeps lies outside the first `k` rows under its plain prefix. A prefix with a backslash
      is that of no such row. */
  predicate Reaches(hits: seq<Hit>, filter: string, k: Option<nat>) {
    if '\\' in NonGlobPrefix(filter) then Filter(hits, GlobKeeps(filter)) == []
    else
      var candidates := Filter(hits, StartsWith(Some(NonGlobPrefix(filter))));
      k.None? || |candidates| <= k.value || Filter(candidates[k.value..], GlobKeeps(filter)) == []
  }

  /** The glob over the first `k` rows under its plain prefix, cut to the limit: a prefix of the wanted rows, and all
      of them exactly when it filled the limit or those `k` rows reach all the glob keeps. */
  lemma FetchKeepsMeaning(hits: seq<Hit>, filter: string, k: Option<nat>, limit: Option<nat>)
    requires ContainsGlobChars(filter)
    ensures var got := Take(limit, Filter(IndexSearch(hits, Some(NonGlobPrefix(filter)), k), GlobKeeps(filter)));
      var wanted := Wanted(hits, Some(filter), limit);
      && got <= wanted
      && (got == wanted <==> (limit.Some? && |got| == limit.value) || Reaches(hits, filter, k))
      && ('\\' in NonGlobPrefix(filter) ==> got == [])
  {
    var weak, strong := StartsWith(Some(NonGlobPrefix(filter))), GlobKeeps(filter);
    if '\\' in NonGlobPrefix(filter) {
      forall h | h in Filter(hits, weak) ensures !strong(h) {
        FilterKeeps(hits, weak, h);
        if strong(h) { MatchesStartWithPrefix(filter, h.path); }
      }
      FilterNone(Take(k, Filter(hits, weak)), strong);
    } else {
      forall h | h in hits && strong(h) ensures weak(h) { MatchesStartWithPrefix(filter, h.path); }
      FilterTwice(hits, weak, strong);
      TakeFilterTake(Filter(hits, weak), k, limit, strong);
    }
  }

  lemma {:induction false} FilterKeeps<T>(xs: seq<T>, keep: T -> bool, x: T)
    ensures x in Filter(xs, keep) <==> x in xs && keep(x)
  {
    if xs != [] { FilterKeeps(xs[1..], keep, x); }
  }

  lemma {:induction false} FilterNone<T>(xs: seq<T>, keep: T -> bool)
    requires forall x :: x in xs ==> !keep(x)
    ensures Filter(xs, keep) == []
  {
    if xs != [] {
      assert xs[0] in xs;
      FilterNone(xs[1..], keep);
    }
  }

  /** For any glob, the plan returns a prefix of the wanted rows, and returns all of them exactly when it filled the
      limit or the overfetch reaches all the glob keeps. Nothing comes back if the prefix holds a backslash. */
  lemma PlanKeepsMeaning(hits: seq<Hit>, filter: string, limit: Option<nat>)
    requires ContainsGlobChars(filter)
    ensures var got := SearchWithOptions(hits, Some(filter), limit, true).value;
      var wanted := Wanted(hits, Some(filter), limit);
      && got <= wanted
      && (got == wanted <==>
            (limit.Some? && |got| == limit.value) || Reaches(hits, filter, Some(OverfetchLimit(limit))))
      && ('\\' in NonGlobPrefix(filter) ==> got == [])
  {
    if NonGlobPrefix(filter) == "" { SameFilter(hits, StartsWith(None), StartsWith(Some(""))); }
    FetchKeepsMeaning(hits, filter, Some(OverfetchLimit(limit)), limit);
  }

  lemma {:induction false} SameFilter<T>(xs: seq<T>, p: T -> bool, q: T -> bool)
    requires forall x :: x in xs ==> p(x) == q(x)
    ensures Filter(xs, p) == Filter(xs, q)
  {
    if xs != [] {
      assert xs[0] in xs;
      SameFilter(xs[1..], p, q);
    }
  }

  /** Filtering only the first `k` candidates gives a prefix of filtering all of them. */
  lemma TakeFilterTake<T>(candidates: seq<T>, k: Option<nat>, limit: Option<nat>, strong: T -> bool)
    ensures var got := Take(limit, Filter(Take(k, candidates), strong));
      var wanted := Take(limit, Filter(candidates, strong));
      && got <= wanted
      && (got == wanted <==> (limit.Some? && |got| == limit.value) || k.None? || |candidates| <= k.value
                             || Filter(candidates[k.value..], strong) == [])
  {
    if k.Some? && k.value < |candidates| {
      assert candidates == candidates[..k.value] + candidates[k.value..];
      FilterConcat(candidates[..k.value], candidates[k.value..], strong);
    }
  }

  /** A filter without glob characters is passed straight to the index and means the same there. */
  lemma PlainFilterKeepsMeaning(hits: seq<Hit>, filter: Option<string>, limit: Option<nat>, globOk: bool)
    requires filter.Some? ==> !ContainsGlobChars(filter.value)
    ensures SearchWithOptions(hits, filter, limit, globOk) == Some(Wanted(hits, filter, limit))
  {}

  /** The overfetch always covers the limit itself, up to its own cap. */
  lemma OverfetchCoversLimit(limit: nat)
    ensures limit <= OverfetchLimit(Some(limit)) <==> limit <= OVERFETCH_LIMIT
  {}

  // ---- the plan in numbers ----

  /** How many rows lie under a prefix. */
  function Under(hits: seq<Hit>, prefix: string): nat {
    if hits == [] then 0 else (if prefix <= hits[0].path then 1 else 0) + Under(hits[1..], prefix)
  }

  lemma {:induction false} UnderIsFiltered(hits: seq<Hit>, prefix: string)
    ensures |Filter(hits, StartsWith(Some(prefix)))| == Under(hits, prefix)
  {
    if hits != [] { UnderIsFiltered(hits[1..], prefix); }
  }

  /** A limited search finds all it wants when at most two hundred times the limit, or ten thousand rows if that is
      fewer, lie under the plain prefix; an unlimited one when at most ten thousand do. */
  lemma PlanInNumbers(hits: seq<Hit>, filter: string, limit: Option<nat>)
    requires (exists c :: c in filter && c in "*?[{") && '\\' !in NonGlobPrefix(filter)
    requires Under(hits, NonGlobPrefix(filter)) <= 10000
    requires limit.Some? ==> Under(hits, NonGlobPrefix(filter)) <= 200 * limit.value
    ensures SearchWithOptions(hits, Some(filter), limit, true) == Some(Wanted(hits, Some(filter), limit))
  {
    var c :| c in filter && c in "*?[{";
    var i :| 0 <= i < |filter| && filter[i] == c;
    assert ContainsGlobChars(filter);
    UnderIsFiltered(hits, NonGlobPrefix(filter));
    PlanKeepsMeaning(hits, filter, limit);
  }

  /** And it never asks for more: rows under the prefix beyond that number make no difference. */
  lemma OnlyFetchedMatters(hits: seq<Hit>, more: seq<Hit>, filter: string, limit: Option<nat>, globOk: bool)
    requires exists c :: c in filter && c in "*?[{"
    requires Under(hits, NonGlobPrefix(filter)) >= 10000
      || (limit.Some? && Under(hits, NonGlobPrefix(filter)) >= 200 * limit.value)
    ensures SearchWithOptions(hits + more, Some(filter), limit, globOk)
      == SearchWithOptions(hits, Some(filter), limit, globOk)
  {
    var c :| c in filter && c in "*?[{";
    var i :| 0 <= i < |filter| && filter[i] == c;
    assert ContainsGlobChars(filter);
    var weak := StartsWith(IndexPrefix(filter));
    UnderIsFiltered(hits, NonGlobPrefix(filter));
    SameFilter(hits, weak, StartsWith(Some(NonGlobPrefix(filter))));
    FilterConcat(hits, more, weak);
    var k := OverfetchLimit(limit);
    var first := Filter(hits, weak);
    assert |first| >= k;
    assert Take(Some(k), first + Filter(more, weak)) == first[..k] == Take(Some(k), first);
  }

  /** The plain prefix is the longest prefix of whole components without glob characters; a filter without any is its
      own prefix. */
  lemma PrefixIsLongest(filter: string, w: string)
    requires forall c :: c in w ==> c !in "*?[{"
    ensures w <= filter && (w == "" || w[|w| - 1] == '/') ==> |w| <= |NonGlobPrefix(filter)|
    ensures w == filter ==> NonGlobPrefix(filter) == w
  {
    var m := FirstGlobChar(filter);
    if w <= filter {
      forall i | 0 <= i < |w| ensures !IsGlobChar(filter[i]) { assert w[i] in w && filter[i] == w[i]; }
      assert |w| <= m;
      if w != "" && w[|w| - 1] == '/' { assert filter[..m][|w| - 1] == '/'; }
    }
  }

  /** What a path filter asks for: a match of the whole path when it has glob characters, otherwise a prefix. */
  predicate WantedPath(filter: Option<string>, path: string) {
    match filter
    case None => true
    case Some(f) => if exists c :: c in f && c in "*?[{" then Matches(f, path, true) else f <= path
  }

  lemma KeepsIsWanted(filter: Option<string>, h: Hit)
    ensures Keeps(filter)(h) <==> WantedPath(filter, h.path)
  {
    if filter.Some? {
      var f := filter.value;
      if c :| c in f && c in "*?[{" {
        var i :| 0 <= i < |f| && f[i] == c;
        assert IsGlobChar(f[i]);
      }
      if ContainsGlobChars(f) {
        var i :| 0 <= i < |f| && IsGlobChar(f[i]);
        assert f[i] in f && f[i] in "*?[{";
      }
    }
  }
}
