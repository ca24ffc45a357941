/** Search over several roots: the primary index, the indexes of branch snapshots, and a direct scan of all other
    non-primary files, under one limit. */
module RootedSearch {
  import opened Options
  import opened TextLines
  import opened GlobPlan
  import opened FileScan

  datatype RootKind = Primary | Worktree | Submodule | BranchRef

  datatype Root = Root(id: string, kind: RootKind)

  /** A discovered file: its root, its extension and its lines. */
  datatype File = File(rootId: string, kind: RootKind, path: string, ext: string, lines: seq<string>)

  datatype SearchOptions = SearchOptions(
    filter: Option<string>, fileType: Option<string>, excludeType: Option<string>, limit: Option<nat>, ignoreCase: bool)

  const PRIMARY := "primary"

  /** What the search finds on disk. The index rows are those of the query and the type options, before any
      path filter or limit; a branch root has an index exactly when it is a key of `branches`. */
  datatype Repo = Repo(roots: seq<Root>, files: seq<File>, primary: seq<Hit>, branches: map<string, seq<Hit>>)

  function Tag(root: string, hits: seq<Hit>): (r: seq<Rooted>)
    ensures |r| == |hits|
  {
    if hits == [] then [] else [Rooted(root, hits[0])] + Tag(root, hits[1..])
  }

  // ---- the two lanes ----

  predicate HasBranchIndex(repo: Repo, rootId: string) {
    rootId in repo.branches
  }

  predicate InBranchLane(repo: Repo, f: File) {
    Root(f.rootId, BranchRef) in repo.roots && HasBranchIndex(repo, f.rootId)
  }

  predicate InScanLane(repo: Repo, f: File) {
    f.rootId != PRIMARY && !(f.kind == BranchRef && HasBranchIndex(repo, f.rootId))
  }

  /** Discovery walks the listed roots: every file carries the kind of its root, the primary root is the one
      called primary, and root ids are distinct. */
  ghost predicate Discovered(repo: Repo) {
    && (forall f :: f in repo.files ==> Root(f.rootId, f.kind) in repo.roots)
    && (forall r :: r in repo.roots ==> (r.id == PRIMARY <==> r.kind == Primary))
    && (forall r, q :: r in repo.roots && q in repo.roots && r.id == q.id ==> r == q)
  }

  /** Every discovered file outside the primary root is searched by exactly one of the two lanes. */
  lemma ExactlyOneLane(repo: Repo, f: File)
    requires Discovered(repo) && f in repo.files && f.rootId != PRIMARY
    ensures InBranchLane(repo, f) <==> !InScanLane(repo, f)
  {
    assert Root(f.rootId, f.kind) in repo.roots;
  }

  /** `search_branch_root_index` without its own truncation: under a glob the index is asked for only
      `limit` rows before the glob is applied. */
  function BranchHits(hits: seq<Hit>, options: SearchOptions): seq<Hit> {
    if options.filter.Some? && ContainsGlobChars(options.filter.value) then
      var filter := options.filter.value;
      Filter(IndexSearch(hits, Some(NonGlobPrefix(filter)), options.limit), GlobKeeps(filter))
    else Filter(hits, StartsWith(options.filter))
  }

  /** A branch root with an index of its own. */
  predicate Searchable(repo: Repo, root: Root) {
    root.kind == BranchRef && HasBranchIndex(repo, root.id)
  }

  function BranchLane(repo: Repo, roots: seq<Root>, options: SearchOptions): seq<Rooted> {
    if roots == [] then []
    else
      (if Searchable(repo, roots[0])
       then Tag(roots[0].id, BranchHits(repo.branches[roots[0].id], options)) else [])
      + BranchLane(repo, roots[1..], options)
  }

  /** `matches_filters` */
  predicate FileMatches(f: File, options: SearchOptions) {
    && Keeps(options.filter)(Hit(f.path, 0, "", 0, 0, 0))
    && (options.fileType.Some? ==> f.ext == options.fileType.value)
    && (options.excludeType.Some? ==> f.ext != options.excludeType.value)
  }

  function ScanOf(f: File, query: string, options: SearchOptions): Scan {
    Scan(f.rootId, f.path, Folded(query, options.ignoreCase), options.ignoreCase)
  }

  function FileRows(repo: Repo, f: File, query: string, options: SearchOptions): seq<Rooted> {
    if InScanLane(repo, f) && FileMatches(f, options) then ScanLines(ScanOf(f, query, options), f.lines, 1, 0) else []
  }

  function ScanLane(repo: Repo, files: seq<File>, query: string, options: SearchOptions): seq<Rooted> {
    if files == [] then [] else FileRows(repo, files[0], query, options) + ScanLane(repo, files[1..], query, options)
  }

  function Lanes(repo: Repo, query: string, options: SearchOptions): seq<Rooted> {
    if query == "" then [] else BranchLane(repo, repo.roots, options) + ScanLane(repo, repo.files, query, options)
  }

  // ---- limits ----

  /** Cutting a middle piece to the overall limit is lost in the overall cut. */
  lemma TakeMiddle<T>(limit: Option<nat>, a: seq<T>, b: seq<T>, b': seq<T>, c: seq<T>)
    requires Take(limit, b') == Take(limit, b) && (b' == b || (limit.Some? && |b'| >= limit.value))
    ensures Take(limit, a + b' + c) == Take(limit, a + b + c)
  {
    if b' != b {
      var l, x, y := limit.value, a + b' + c, a + b + c;
      assert |Take(limit, b')| == l;
      assert |b| >= l;
      forall i | 0 <= i < l ensures x[i] == y[i] {
        if i >= |a| { assert Take(limit, b')[i - |a|] == Take(limit, b)[i - |a|]; }
      }
      assert Take(limit, x) == x[..l] && Take(limit, y) == y[..l];
    }
  }

  lemma TakeFull<T>(limit: Option<nat>, out: seq<T>, rest: seq<T>)
    requires Full(limit, |out|)
    ensures Take(limit, out + rest) == Take(limit, out)
  {}

  lemma TakeAfter<T>(limit: nat, p: seq<T>, out: seq<T>, all: seq<T>)
    requires |p| < limit && Take(Some(limit - |p|), out) == Take(Some(limit - |p|), all)
    ensures Take(Some(limit), p + out) == Take(Some(limit), p + all)
  {
    var rem := limit - |p|;
    assert Take(Some(limit), p + out) == p + Take(Some(rem), out);
    assert Take(Some(limit), p + all) == p + Take(Some(rem), all);
  }

  lemma {:induction false} TagTake(root: string, hits: seq<Hit>, n: nat)
    requires n <= |hits|
    ensures Tag(root, hits)[..n] == Tag(root, hits[..n])
  {
    if n > 0 {
      TagTake(root, hits[1..], n - 1);
      assert hits[..n][1..] == hits[1..][..n - 1];
    }
  }

  // ---- the search ----

  /** `search_branch_root_index` for one root: the index query under the full limit, the glob if there is one,
      and a cut to what is still wanted. */
  method SearchBranchRoot(hits: seq<Hit>, options: SearchOptions, remaining: Option<nat>) returns (found: seq<Hit>)
    requires remaining.Some? <==> options.limit.Some?
    requires remaining.Some? ==> remaining.value <= options.limit.value
    ensures found == Take(remaining, BranchHits(hits, options))
  {
    if options.filter.Some? && ContainsGlobChars(options.filter.value) {
      var prefix := ExtractNonGlobPrefix(options.filter.value);
      found := Filter(IndexSearch(hits, Some(prefix), options.limit), GlobKeeps(options.filter.value));
    } else {
      found := IndexSearch(hits, options.filter, options.limit);
    }
    found := Take(remaining, found);
  }

  lemma TagOfTake(root: string, hits: seq<Hit>, limit: Option<nat>)
    ensures Tag(root, Take(limit, hits)) == Take(limit, Tag(root, hits))
  {
    if limit.Some? && limit.value < |hits| { TagTake(root, hits, limit.value); }
  }

  lemma TakeTwice<T>(limit: Option<nat>, xs: seq<T>)
    ensures Take(limit, Take(limit, xs)) == Take(limit, xs)
    ensures Take(limit, xs) == xs || (limit.Some? && |Take(limit, xs)| >= limit.value)
  {}

  /** One more branch root: appending its cut rows leaves the overall cut unchanged. */
  lemma BranchStep(repo: Repo, options: SearchOptions, limit: Option<nat>, out: seq<Rooted>, i: nat, found: seq<Hit>,
                   scans: seq<Rooted>)
    requires i < |repo.roots| && repo.roots[i].kind == BranchRef && HasBranchIndex(repo, repo.roots[i].id)
    requires found == Take(limit, BranchHits(repo.branches[repo.roots[i].id], options))
    ensures Take(limit, out + Tag(repo.roots[i].id, found) + (BranchLane(repo, repo.roots[i + 1..], options) + scans))
      == Take(limit, out + (BranchLane(repo, repo.roots[i..], options) + scans))
  {
    var root, later := repo.roots[i], BranchLane(repo, repo.roots[i + 1..], options);
    var hits := BranchHits(repo.branches[root.id], options);
    assert repo.roots[i..][1..] == repo.roots[i + 1..];
    TagOfTake(root.id, hits, limit);
    TakeTwice(limit, Tag(root.id, hits));
    TakeMiddle(limit, out, Tag(root.id, hits), Tag(root.id, found), later + scans);
    Assoc(Tag(root.id, hits), later, scans);
    Assoc(out, Tag(root.id, hits), later + scans);
  }

  predicate Scanned(repo: Repo, f: File, options: SearchOptions) {
    f.rootId != PRIMARY && !(f.kind == BranchRef && HasBranchIndex(repo, f.rootId)) && FileMatches(f, options)
  }

  /** One more scanned file. */
  lemma ScanStepLane(repo: Repo, query: string, options: SearchOptions, limit: Option<nat>, out: seq<Rooted>, i: nat,
                     next: seq<Rooted>)
    requires i < |repo.files| && Scanned(repo, repo.files[i], options)
    requires next == Take(limit, out + FileRows(repo, repo.files[i], query, options))
    ensures Take(limit, next + ScanLane(repo, repo.files[i + 1..], query, options))
      == Take(limit, out + ScanLane(repo, repo.files[i..], query, options))
  {
    var rows := FileRows(repo, repo.files[i], query, options);
    var rest := ScanLane(repo, repo.files[i + 1..], query, options);
    assert repo.files[i..][1..] == repo.files[i + 1..];
    Assoc(out, rows, rest);
    TakeTwice(limit, out + rows);
    TakeMiddle(limit, [], out + rows, next, rest);
    assert [] + next == next && [] + (out + rows) == out + rows;
  }

  /** The second loop of `scan_non_primary_roots`, over the files outside the branch indexes. */
  method ScanFiles(repo: Repo, query: string, options: SearchOptions, limit: Option<nat>, start: seq<Rooted>)
    returns (out: seq<Rooted>)
    requires !Full(limit, |start|)
    ensures Take(limit, out) == Take(limit, start + ScanLane(repo, repo.files, query, options))
  {
    out := start;
    ghost var all := start + ScanLane(repo, repo.files, query, options);
    for i := 0 to |repo.files|
      invariant !Full(limit, |out|)
      invariant Take(limit, out + ScanLane(repo, repo.files[i..], query, options)) == Take(limit, all)
    {
      var f := repo.files[i];
      if f.rootId != PRIMARY && !(f.kind == BranchRef && HasBranchIndex(repo, f.rootId)) && FileMatches(f, options) {
        ghost var before := out;
        out := ScanFile(ScanOf(f, query, options), f.lines, limit, out);
        ScanStepLane(repo, query, options, limit, before, i, out);
        if Full(limit, |out|) {
          TakeFull(limit, out, ScanLane(repo, repo.files[i + 1..], query, options));
          return;
        }
      } else {
        assert repo.files[i..][1..] == repo.files[i + 1..];
        assert ScanLane(repo, repo.files[i..], query, options) == ScanLane(repo, repo.files[i + 1..], query, options);
      }
    }
    assert out + [] == out;
  }

  /** A root without an index of its own adds nothing to the branch lane. */
  lemma BranchSkip(repo: Repo, options: SearchOptions, i: nat)
    requires i < |repo.roots| && !Searchable(repo, repo.roots[i])
    ensures BranchLane(repo, repo.roots[i..], options) == BranchLane(repo, repo.roots[i + 1..], options)
  {
    assert repo.roots[i..][1..] == repo.roots[i + 1..];
  }

  /** The first loop of `scan_non_primary_roots`, over the branch roots that have an index. `scans` is what comes
      after. */
  method SearchBranches(repo: Repo, options: SearchOptions, limit: Option<nat>, ghost scans: seq<Rooted>)
    returns (out: seq<Rooted>)
    requires limit.Some? <==> options.limit.Some?
    requires limit.Some? ==> 0 < limit.value <= options.limit.value
    ensures Take(limit, out + scans) == Take(limit, BranchLane(repo, repo.roots, options) + scans)
  {
    out := [];
    for i := 0 to |repo.roots|
      invariant !Full(limit, |out|)
      invariant Take(limit, out + (BranchLane(repo, repo.roots[i..], options) + scans))
             == Take(limit, BranchLane(repo, repo.roots, options) + scans)
    {
      var root := repo.roots[i];
      if root.kind == BranchRef && HasBranchIndex(repo, root.id) {
        var found := SearchBranchRoot(repo.branches[root.id], options, limit);
        BranchStep(repo, options, limit, out, i, found, scans);
        out := out + Tag(root.id, found);
        if Full(limit, |out|) {
          TakeFull(limit, out, BranchLane(repo, repo.roots[i + 1..], options) + scans);
          TakeFull(limit, out, scans);
          return;
        }
      } else {
        BranchSkip(repo, options, i);
      }
    }
    assert BranchLane(repo, [], options) + scans == scans;
  }

  /** `scan_non_primary_roots`: both lanes under the given limit, with early exits. What comes back
      agrees with the two full lanes up to the limit. */
  method ScanNonPrimaryRoots(repo: Repo, query: string, options: SearchOptions, limit: Option<nat>)
    returns (out: seq<Rooted>)
    requires limit.Some? <==> options.limit.Some?
    requires limit.Some? ==> limit.value <= options.limit.value
    ensures Take(limit, out) == Take(limit, Lanes(repo, query, options))
  {
    out := [];
    if limit == Some(0) || query == "" { return; }
    ghost var scans := ScanLane(repo, repo.files, query, options);
    out := SearchBranches(repo, options, limit, scans);
    if Full(limit, |out|) {
      TakeFull(limit, out, scans);
      return;
    }
    out := ScanFiles(repo, query, options, limit, out);
  }

  /** What the primary lane contributes; `None` for a pattern that is no glob. */
  function PrimaryLane(repo: Repo, options: SearchOptions, globOk: bool): Option<seq<Rooted>> {
    match SearchWithOptions(repo.primary, options.filter, options.limit, globOk)
    case None => None
    case Some(hits) => Some(Tag(PRIMARY, hits))
  }

  /** `search_rooted_with_options`: the limit applied once to the three full lanes, whatever cuts and early exits
      happened inside them. */
  method SearchRooted(repo: Repo, query: string, options: SearchOptions, globOk: bool) returns (r: Option<seq<Rooted>>)
    ensures var primary := PrimaryLane(repo, options, globOk);
      r == if primary.None? then None
           else Some(Take(options.limit, primary.value + Lanes(repo, query, options)))
  {
    var first := SearchWithOptions(repo.primary, options.filter, options.limit, globOk);
    if first.None? { return None; }
    var results := Tag(PRIMARY, first.value);
    if options.limit.None? || |results| < options.limit.value {
      var remaining := if options.limit.None? then None else Some(options.limit.value - |results|);
      var more := ScanNonPrimaryRoots(repo, query, options, remaining);
      if options.limit.Some? {
        TakeAfter(options.limit.value, results, more, Lanes(repo, query, options));
      }
      results := results + more;
    } else {
      TakeFull(options.limit, results, Lanes(repo, query, options));
    }
    return Some(Take(options.limit, results));
  }

  // ---- what it means ----

  /** The file is searched by no index: it is outside the primary root and not in a branch root with an index. */
  predicate Unindexed(repo: Repo, f: File) {
    f.rootId != PRIMARY && (f.kind == BranchRef ==> f.rootId !in repo.branches)
  }

  /** The caller asked for this file: by path, by the extension it must have, by the one it must not have. */
  predicate WantedFile(f: File, options: SearchOptions) {
    && WantedPath(options.filter, f.path)
    && options.fileType in {None, Some(f.ext)} && options.excludeType != Some(f.ext)
  }

  function WithFile(f: File, rows: seq<Rooted>): seq<(File, Rooted)> {
    seq(|rows|, i requires 0 <= i < |rows| => (f, rows[i]))
  }

  function OfWanted(options: SearchOptions): ((File, Rooted)) -> bool {
    (fr: (File, Rooted)) => WantedFile(fr.0, options)
  }

  /** All rows of all files that no index searches, with their files. */
  function UnindexedRows(repo: Repo, files: seq<File>, query: string, options: SearchOptions): seq<(File, Rooted)> {
    if files == [] then []
    else
      var rows := ScanLines(ScanOf(files[0], query, options), files[0].lines, 1, 0);
      (if Unindexed(repo, files[0]) then WithFile(files[0], rows) else [])
      + UnindexedRows(repo, files[1..], query, options)
  }

  function RowsIn(pairs: seq<(File, Rooted)>): seq<Rooted> {
    seq(|pairs|, i requires 0 <= i < |pairs| => pairs[i].1)
  }

  /** Of these the rows of wanted files. */
  function WantedScan(repo: Repo, query: string, options: SearchOptions): seq<Rooted> {
    RowsIn(Filter(UnindexedRows(repo, repo.files, query, options), OfWanted(options)))
  }

  lemma {:induction false} FilterAll<T>(xs: seq<T>, keep: T -> bool)
    requires forall x :: x in xs ==> keep(x)
    ensures Filter(xs, keep) == xs
  {
    if xs != [] {
      assert xs[0] in xs;
      FilterAll(xs[1..], keep);
    }
  }

  lemma {:induction false} ScanLaneIsWanted(repo: Repo, files: seq<File>, query: string, options: SearchOptions)
    ensures ScanLane(repo, files, query, options)
      == RowsIn(Filter(UnindexedRows(repo, files, query, options), OfWanted(options)))
  {
    if files != [] {
      var f, keep := files[0], OfWanted(options);
      var mine := if Unindexed(repo, f) then WithFile(f, ScanLines(ScanOf(f, query, options), f.lines, 1, 0)) else [];
      var later := UnindexedRows(repo, files[1..], query, options);
      ScanLaneIsWanted(repo, files[1..], query, options);
      FilterConcat(mine, later, keep);
      MineIsWanted(repo, f, query, options, mine);
      RowsInConcat(Filter(mine, keep), Filter(later, keep));
    }
  }

  lemma RowsInConcat(a: seq<(File, Rooted)>, b: seq<(File, Rooted)>)
    ensures RowsIn(a + b) == RowsIn(a) + RowsIn(b)
  {}

  lemma MineIsWanted(repo: Repo, f: File, query: string, options: SearchOptions, mine: seq<(File, Rooted)>)
    requires mine
      == if Unindexed(repo, f) then WithFile(f, ScanLines(ScanOf(f, query, options), f.lines, 1, 0)) else []
    ensures RowsIn(Filter(mine, OfWanted(options))) == FileRows(repo, f, query, options)
  {
    KeepsIsWanted(options.filter, Hit(f.path, 0, "", 0, 0, 0));
    assert FileMatches(f, options) <==> WantedFile(f, options);
    if WantedFile(f, options) { FilterAll(mine, OfWanted(options)); } else { FilterNone(mine, OfWanted(options)); }
  }

  /** The rows the caller asked for: every row of every lane that the filter keeps, in lane order. */
  function WantedLanes(repo: Repo, query: string, options: SearchOptions): seq<Rooted> {
    Tag(PRIMARY, Filter(repo.primary, Keeps(options.filter)))
    + (if query == "" then []
       else WantedBranches(repo, repo.roots, options) + WantedScan(repo, query, options))
  }

  function WantedBranches(repo: Repo, roots: seq<Root>, options: SearchOptions): seq<Rooted> {
    if roots == [] then []
    else
      (if Searchable(repo, roots[0])
       then Tag(roots[0].id, Filter(repo.branches[roots[0].id], Keeps(options.filter))) else [])
      + WantedBranches(repo, roots[1..], options)
  }

  lemma {:induction false} PlainBranches(repo: Repo, roots: seq<Root>, options: SearchOptions)
    requires options.filter.Some? ==> !ContainsGlobChars(options.filter.value)
    ensures BranchLane(repo, roots, options) == WantedBranches(repo, roots, options)
  {
    if roots != [] { PlainBranches(repo, roots[1..], options); }
  }

  /** Without glob characters the search returns exactly the first `limit` wanted rows. */
  lemma PlainSearchIsExact(repo: Repo, query: string, options: SearchOptions, globOk: bool)
    requires options.filter.Some? ==> !ContainsGlobChars(options.filter.value)
    ensures PrimaryLane(repo, options, globOk).Some?
    ensures Take(options.limit, PrimaryLane(repo, options, globOk).value + Lanes(repo, query, options))
      == Take(options.limit, WantedLanes(repo, query, options))
  {
    PlainFilterKeepsMeaning(repo.primary, options.filter, options.limit, globOk);
    ScanLaneIsWanted(repo, repo.files, query, options);
    PlainBranches(repo, repo.roots, options);
    var full := Tag(PRIMARY, Filter(repo.primary, Keeps(options.filter)));
    TagOfTake(PRIMARY, Filter(repo.primary, Keeps(options.filter)), options.limit);
    TakeTwice(options.limit, full);
    var rest := Lanes(repo, query, options);
    TakeMiddle(options.limit, [], full, Take(options.limit, full), rest);
    assert [] + full == full && [] + Take(options.limit, full) == Take(options.limit, full);
  }

  /** A branch root under a glob filter: the rows are a prefix of the wanted ones, and all of them exactly when
      no wanted row lies beyond the first `limit` rows under the plain prefix. */
  lemma GlobBranchLane(hits: seq<Hit>, options: SearchOptions)
    requires options.filter.Some? && ContainsGlobChars(options.filter.value)
    ensures var wanted := Filter(hits, Keeps(options.filter));
      && BranchHits(hits, options) <= wanted
      && (BranchHits(hits, options) == wanted <==> Reaches(hits, options.filter.value, options.limit))
      && ('\\' in NonGlobPrefix(options.filter.value) ==> BranchHits(hits, options) == [])
  {
    FetchKeepsMeaning(hits, options.filter.value, options.limit, None);
  }

  // ---- the whole search under a glob ----

  /** The root IDs are as discovered, and each is listed once. */
  ghost predicate DistinctRoots(repo: Repo) {
    && Discovered(repo)
    && OncePerId(repo.roots)
  }

  /** Room left after `n` rows. */
  function Room(limit: Option<nat>, n: nat): Option<nat> {
    if limit.None? then None else Some(if n < limit.value then limit.value - n else 0)
  }

  /** Going through the branch roots from the first, each reaches all its glob keeps, until the limit is filled. */
  predicate BranchesReach(repo: Repo, roots: seq<Root>, options: SearchOptions, room: Option<nat>)
    requires options.filter.Some?
  {
    if roots == [] then true
    else if Searchable(repo, roots[0]) then
      var hits := repo.branches[roots[0].id];
      var n := |BranchHits(hits, options)|;
      Full(room, n)
      || (Reaches(hits, options.filter.value, options.limit)
          && BranchesReach(repo, roots[1..], options, Room(room, n)))
    else BranchesReach(repo, roots[1..], options, room)
  }

  ghost predicate FromNone(rows: seq<Rooted>, rootId: string) {
    forall r :: r in rows ==> r.root != rootId
  }

  /** The related roots whose ID is new, in order. */
  function NewRoots(seen: set<string>, related: seq<Root>): seq<Root>
    decreases related
  {
    if related == [] then []
    else if related[0].id in seen then NewRoots(seen, related[1..])
    else [related[0]] + NewRoots(seen + {related[0].id}, related[1..])
  }

  /** `discover_roots`: the primary root, then every related root whose ID has not been seen. */
  method DiscoverRoots(related: seq<Root>) returns (roots: seq<Root>)
    ensures roots == [Root(PRIMARY, Primary)] + NewRoots({PRIMARY}, related)
  {
    roots := [Root(PRIMARY, Primary)];
    var seen := {PRIMARY};
    for n := 0 to |related|
      invariant roots + NewRoots(seen, related[n..]) == [Root(PRIMARY, Primary)] + NewRoots({PRIMARY}, related)
    {
      assert related[n..][1..] == related[n + 1..];
      if related[n].id !in seen {
        roots := roots + [related[n]];
        seen := seen + {related[n].id};
      }
    }
  }

  predicate OncePerId(roots: seq<Root>) {
    forall i, j :: 0 <= i < j < |roots| ==> roots[i].id != roots[j].id
  }

  lemma OnceCons(first: Root, later: seq<Root>)
    requires OncePerId(later) && forall q :: q in later ==> q.id != first.id
    ensures OncePerId([first] + later)
  {
    var roots := [first] + later;
    forall i, j | 0 <= i < j < |roots| ensures roots[i].id != roots[j].id {
      assert roots[j] == later[j - 1] && later[j - 1] in later;
      if i > 0 { assert roots[i] == later[i - 1]; }
    }
  }

  /** The roots found are related roots, new, and each once. */
  lemma {:induction false} NewRootsAreNew(seen: set<string>, related: seq<Root>)
    ensures forall r :: r in NewRoots(seen, related) ==> r in related && r.id !in seen
    ensures OncePerId(NewRoots(seen, related))
    decreases related
  {
    if related != [] {
      var first, rest := related[0], related[1..];
      if first.id in seen {
        NewRootsAreNew(seen, rest);
      } else {
        NewRootsAreNew(seen + {first.id}, rest);
        OnceCons(first, NewRoots(seen + {first.id}, rest));
      }
    }
  }

  /** Every related root is found or shares its ID with one seen before. */
  lemma {:induction false} NoRootIsMissed(seen: set<string>, related: seq<Root>, r: Root)
    requires r in related && r.id !in seen
    ensures exists q :: q in NewRoots(seen, related) && q.id == r.id
    decreases related
  {
    var first, rest := related[0], related[1..];
    if first.id == r.id {
      assert first in NewRoots(seen, related);
    } else {
      assert r in rest;
      var seen' := if first.id in seen then seen else seen + {first.id};
      NoRootIsMissed(seen', rest, r);
      var q :| q in NewRoots(seen', rest) && q.id == r.id;
      assert q in NewRoots(seen, related);
    }
  }

  /** Discovery lists the primary root, and each ID once. */
  lemma DiscoveryIsDistinct(related: seq<Root>)
    requires forall r :: r in related ==> r.kind != Primary
    ensures var roots := [Root(PRIMARY, Primary)] + NewRoots({PRIMARY}, related);
      OncePerId(roots) && forall r :: r in roots ==> (r.id == PRIMARY <==> r.kind == Primary)
  {
    NewRootsAreNew({PRIMARY}, related);
    OnceCons(Root(PRIMARY, Primary), NewRoots({PRIMARY}, related));
  }

  /** Two lists that begin alike and then show rows of different roots. */
  lemma CutsDiffer(limit: Option<nat>, got: seq<Rooted>, wanted: seq<Rooted>, x: seq<Rooted>, y: seq<Rooted>,
                   rootId: string)
    requires got <= wanted && got != wanted && !Full(limit, |got|)
    requires forall r :: r in wanted ==> r.root == rootId
    requires FromNone(x, rootId)
    ensures Take(limit, got + x) != Take(limit, wanted + y)
  {
    var k := |got|;
    var a, b := Take(limit, got + x), Take(limit, wanted + y);
    assert b[k] == wanted[k] && wanted[k] in wanted;
    if k < |a| { assert a[k] == x[0] && x[0] in x; }
  }

  /** What comes first is alike and leaves room: the cuts are alike exactly when the rests are. */
  lemma CutsAlike<T>(limit: Option<nat>, p: seq<T>, x: seq<T>, y: seq<T>)
    requires !Full(limit, |p|)
    ensures Take(limit, p + x) == Take(limit, p + y) <==> Take(Room(limit, |p|), x) == Take(Room(limit, |p|), y)
  {
    var room := Room(limit, |p|);
    assert Take(limit, p + x) == p + Take(room, x);
    assert Take(limit, p + y) == p + Take(room, y);
    assert (p + Take(room, x))[|p|..] == Take(room, x) && (p + Take(room, y))[|p|..] == Take(room, y);
  }

  lemma {:induction false} TagIsRoot(root: string, hits: seq<Hit>)
    ensures forall r :: r in Tag(root, hits) ==> r.root == root
  {
    if hits != [] { TagIsRoot(root, hits[1..]); }
  }

  lemma {:induction false} TagKeepsPrefix(root: string, got: seq<Hit>, wanted: seq<Hit>)
    requires got <= wanted
    ensures Tag(root, got) <= Tag(root, wanted)
    ensures Tag(root, got) == Tag(root, wanted) <==> got == wanted
  {
    TagTake(root, wanted, |got|);
    assert wanted[..|got|] == got;
  }

  lemma {:induction false} BranchRowsFrom(repo: Repo, roots: seq<Root>, options: SearchOptions, rootId: string)
    requires forall i :: 0 <= i < |roots| && Searchable(repo, roots[i]) ==> roots[i].id != rootId
    ensures FromNone(BranchLane(repo, roots, options), rootId)
  {
    if roots != [] {
      BranchRowsFrom(repo, roots[1..], options, rootId);
      if Searchable(repo, roots[0]) { TagIsRoot(roots[0].id, BranchHits(repo.branches[roots[0].id], options)); }
    }
  }

  lemma {:induction false} ScanRowsOf(k: Scan, ls: seq<string>, line: nat, offset: nat)
    ensures forall r :: r in ScanLines(k, ls, line, offset) ==> r.root == k.root
  {
    if ls != [] { ScanRowsOf(k, ls[1..], line + 1, offset + |ls[0]| + 1); }
  }

  /** A direct scan finds nothing in the primary root, and nothing in a branch root that has an index. */
  lemma {:induction false} ScanRowsFrom(repo: Repo, files: seq<File>, query: string, options: SearchOptions, root: Root)
    requires Discovered(repo) && root in repo.roots && (forall f :: f in files ==> f in repo.files)
    requires root.kind == Primary || (root.kind == BranchRef && HasBranchIndex(repo, root.id))
    ensures FromNone(ScanLane(repo, files, query, options), root.id)
  {
    if files != [] {
      assert Root(files[0].rootId, files[0].kind) in repo.roots;
      ScanRowsFrom(repo, files[1..], query, options, root);
      ScanRowsOf(ScanOf(files[0], query, options), files[0].lines, 1, 0);
    }
  }

  /** One lane after another: what one lane returned against what was wanted of it. The cuts are alike exactly when
      it filled the room, or it is complete and the rests are alike. */
  lemma LaneExactIff(room: Option<nat>, got: seq<Rooted>, wanted: seq<Rooted>, x: seq<Rooted>, y: seq<Rooted>,
                     rootId: string)
    requires got <= wanted && FromNone(x, rootId) && forall r :: r in wanted ==> r.root == rootId
    ensures Take(room, got + x) == Take(room, wanted + y)
      <==> (Full(room, |got|)
            || (got == wanted && Take(Room(room, |got|), x) == Take(Room(room, |got|), y)))
  {
    if Full(room, |got|) {
      TakeFull(room, got, x);
      assert wanted + y == got + (wanted[|got|..] + y);
      TakeFull(room, got, wanted[|got|..] + y);
    } else if got == wanted {
      CutsAlike(room, got, x, y);
    } else {
      CutsDiffer(room, got, wanted, x, y, rootId);
    }
  }

  lemma {:induction false} BranchesExactIff(repo: Repo, roots: seq<Root>, options: SearchOptions, room: Option<nat>,
                                            scans: seq<Rooted>)
    requires options.filter.Some? && ContainsGlobChars(options.filter.value)
    requires OncePerId(roots)
    requires forall i :: 0 <= i < |roots| && Searchable(repo, roots[i]) ==> FromNone(scans, roots[i].id)
    ensures Take(room, BranchLane(repo, roots, options) + scans)
        == Take(room, WantedBranches(repo, roots, options) + scans)
      <==> BranchesReach(repo, roots, options, room)
  {
    if roots != [] {
      var root, rest := roots[0], roots[1..];
      var x, y := BranchLane(repo, rest, options), WantedBranches(repo, rest, options);
      if Searchable(repo, root) {
        var hits := repo.branches[root.id];
        var found, all := BranchHits(hits, options), Filter(hits, Keeps(options.filter));
        BranchesExactIff(repo, rest, options, Room(room, |found|), scans);
        GlobBranchLane(hits, options);
        TagKeepsPrefix(root.id, found, all);
        TagIsRoot(root.id, all);
        BranchRowsFrom(repo, rest, options, root.id);
        LaneExactIff(room, Tag(root.id, found), Tag(root.id, all), x + scans, y + scans, root.id);
        Assoc(Tag(root.id, found), x, scans);
        Assoc(Tag(root.id, all), y, scans);
      } else {
        BranchesExactIff(repo, rest, options, room, scans);
        assert BranchLane(repo, roots, options) == x && WantedBranches(repo, roots, options) == y;
      }
    }
  }

  /** Lane after lane, from the primary index through the branch roots: each lane's index query reaches all
      the glob keeps, until the limit is filled. */
  predicate LanesReach(repo: Repo, query: string, options: SearchOptions)
    requires options.filter.Some?
  {
    var filter := options.filter.value;
    var found := Filter(IndexSearch(repo.primary, IndexPrefix(filter), Some(OverfetchLimit(options.limit))),
                        GlobKeeps(filter));
    Full(options.limit, |found|)
    || (Reaches(repo.primary, filter, Some(OverfetchLimit(options.limit)))
        && (query == "" || BranchesReach(repo, repo.roots, options, Room(options.limit, |found|))))
  }

  lemma PrimaryGlobLane(repo: Repo, options: SearchOptions)
    requires options.filter.Some? && ContainsGlobChars(options.filter.value)
    ensures var filter, limit := options.filter.value, options.limit;
      var fetched := IndexSearch(repo.primary, IndexPrefix(filter), Some(OverfetchLimit(limit)));
      var found := Filter(fetched, GlobKeeps(filter));
      var got := PrimaryLane(repo, options, true);
      var all := Tag(PRIMARY, Filter(repo.primary, Keeps(options.filter)));
      && got.Some? && got.value <= all
      && (Full(limit, |found|) <==> Full(limit, |got.value|))
      && (!Full(limit, |found|) ==> |got.value| == |found|)
      && (!Full(limit, |found|) ==> (got.value == all <==> Reaches(repo.primary, filter, Some(OverfetchLimit(limit)))))
  {
    var got, all := SearchWithOptions(repo.primary, options.filter, options.limit, true).value,
      Filter(repo.primary, Keeps(options.filter));
    PlanKeepsMeaning(repo.primary, options.filter.value, options.limit);
    assert got <= Take(options.limit, all) <= all;
    TagKeepsPrefix(PRIMARY, got, all);
  }

  /** Under a glob the search returns exactly the first `limit` wanted rows if and only if each lane reaches all its
      glob keeps, until the limit is filled. */
  lemma GlobSearchIsExactIff(repo: Repo, query: string, options: SearchOptions)
    requires options.filter.Some? && ContainsGlobChars(options.filter.value)
    requires DistinctRoots(repo) && Root(PRIMARY, Primary) in repo.roots
    ensures PrimaryLane(repo, options, true).Some?
    ensures Take(options.limit, PrimaryLane(repo, options, true).value + Lanes(repo, query, options))
        == Take(options.limit, WantedLanes(repo, query, options))
      <==> LanesReach(repo, query, options)
  {
    var limit, filter := options.limit, options.filter.value;
    var got, all := PrimaryLane(repo, options, true).value, Filter(repo.primary, Keeps(options.filter));
    var scans := if query == "" then [] else ScanLane(repo, repo.files, query, options);
    PrimaryGlobLane(repo, options);
    ScanLaneIsWanted(repo, repo.files, query, options);
    TagIsRoot(PRIMARY, all);
    var x := Lanes(repo, query, options);
    var y := if query == "" then [] else WantedBranches(repo, repo.roots, options) + scans;
    if query != "" {
      BranchRowsFrom(repo, repo.roots, options, PRIMARY);
      ScanRowsFrom(repo, repo.files, query, options, Root(PRIMARY, Primary));
    }
    LaneExactIff(limit, got, Tag(PRIMARY, all), x, y, PRIMARY);
    if query != "" {
      forall i | 0 <= i < |repo.roots| && Searchable(repo, repo.roots[i]) ensures FromNone(scans, repo.roots[i].id) {
        ScanRowsFrom(repo, repo.files, query, options, repo.roots[i]);
      }
      BranchesExactIff(repo, repo.roots, options, Room(limit, |got|), scans);
    }
  }

  // ---- no row that was not asked for, no file forgotten ----

  lemma {:induction false} RowsOfFiles(repo: Repo, files: seq<File>, query: string, options: SearchOptions, r: Rooted)
    ensures r in ScanLane(repo, files, query, options)
      <==> exists f :: f in files && r in FileRows(repo, f, query, options)
  {
    if files != [] {
      RowsOfFiles(repo, files[1..], query, options, r);
      assert files == [files[0]] + files[1..];
    }
  }

  /** A row of a file: it tells of the first place in some line where the query, as given, stands. */
  predicate RowOfFile(f: File, query: string, options: SearchOptions, n: nat, r: Rooted) {
    TellsFirst(f.rootId, f.path, query, options.ignoreCase, f.lines, n, r)
  }

  lemma FileRowsIff(repo: Repo, f: File, query: string, options: SearchOptions, r: Rooted)
    ensures r in FileRows(repo, f, query, options)
      <==> (Unindexed(repo, f) && WantedFile(f, options) && exists n :: RowOfFile(f, query, options, n, r))
  {
    KeepsIsWanted(options.filter, Hit(f.path, 0, "", 0, 0, 0));
    ScanRowsIff(ScanOf(f, query, options), query, f.lines, r);
    if n: nat :| TellsFirst(f.rootId, f.path, query, options.ignoreCase, f.lines, n, r) {
      assert RowOfFile(f, query, options, n, r);
    }
    if n: nat :| RowOfFile(f, query, options, n, r) {
      assert TellsFirst(f.rootId, f.path, query, options.ignoreCase, f.lines, n, r);
    }
  }

  /** The direct scan finds exactly the rows of the wanted files that no index searches. */
  lemma ScannedRowsIff(repo: Repo, query: string, options: SearchOptions, r: Rooted)
    ensures r in ScanLane(repo, repo.files, query, options)
      <==> exists f, n :: f in repo.files && Unindexed(repo, f) && WantedFile(f, options)
                          && RowOfFile(f, query, options, n, r)
  {
    RowsOfFiles(repo, repo.files, query, options, r);
    forall f | f in repo.files
      ensures r in FileRows(repo, f, query, options)
        <==> (Unindexed(repo, f) && WantedFile(f, options) && exists n :: RowOfFile(f, query, options, n, r))
    {
      FileRowsIff(repo, f, query, options, r);
    }
  }

  lemma {:induction false} TaggedHits(root: string, hits: seq<Hit>, r: Rooted)
    ensures r in Tag(root, hits) <==> r.root == root && r.hit in hits
  {
    if hits != [] {
      TaggedHits(root, hits[1..], r);
      assert hits == [hits[0]] + hits[1..];
    }
  }

  lemma InTake<T>(limit: Option<nat>, xs: seq<T>, x: T)
    requires x in Take(limit, xs)
    ensures x in xs
  {}

  /** What an index returned of a branch lies within the filter. */
  lemma BranchHitsWanted(hits: seq<Hit>, options: SearchOptions, h: Hit)
    requires h in BranchHits(hits, options)
    ensures h in hits && WantedPath(options.filter, h.path)
  {
    KeepsIsWanted(options.filter, h);
    if options.filter.Some? && ContainsGlobChars(options.filter.value) {
      var filter := options.filter.value;
      var weak := StartsWith(Some(NonGlobPrefix(filter)));
      FilterKeeps(IndexSearch(hits, Some(NonGlobPrefix(filter)), options.limit), GlobKeeps(filter), h);
      InTake(options.limit, Filter(hits, weak), h);
      FilterKeeps(hits, weak, h);
    } else {
      FilterKeeps(hits, StartsWith(options.filter), h);
    }
  }

  lemma {:induction false} BranchLaneWanted(repo: Repo, roots: seq<Root>, options: SearchOptions, r: Rooted)
    requires r in BranchLane(repo, roots, options)
    ensures WantedPath(options.filter, r.hit.path) && r.root in repo.branches && r.hit in repo.branches[r.root]
  {
    var first := if Searchable(repo, roots[0])
                 then Tag(roots[0].id, BranchHits(repo.branches[roots[0].id], options)) else [];
    if r in first {
      var hits := BranchHits(repo.branches[roots[0].id], options);
      TaggedHits(roots[0].id, hits, r);
      BranchHitsWanted(repo.branches[roots[0].id], options, r.hit);
    } else {
      BranchLaneWanted(repo, roots[1..], options, r);
    }
  }

  lemma PrimaryLaneWanted(repo: Repo, options: SearchOptions, globOk: bool, r: Rooted)
    requires PrimaryLane(repo, options, globOk).Some? && r in PrimaryLane(repo, options, globOk).value
    ensures WantedPath(options.filter, r.hit.path) && r.root == PRIMARY && r.hit in repo.primary
  {
    var got := SearchWithOptions(repo.primary, options.filter, options.limit, globOk).value;
    TaggedHits(PRIMARY, got, r);
    KeepsIsWanted(options.filter, r.hit);
    if options.filter.Some? && ContainsGlobChars(options.filter.value) {
      var filter := options.filter.value;
      var fetched := IndexSearch(repo.primary, IndexPrefix(filter), Some(OverfetchLimit(options.limit)));
      InTake(options.limit, Filter(fetched, GlobKeeps(filter)), r.hit);
      FilterKeeps(fetched, GlobKeeps(filter), r.hit);
      InTake(Some(OverfetchLimit(options.limit)), Filter(repo.primary, StartsWith(IndexPrefix(filter))), r.hit);
      FilterKeeps(repo.primary, StartsWith(IndexPrefix(filter)), r.hit);
    } else {
      InTake(options.limit, Filter(repo.primary, StartsWith(options.filter)), r.hit);
      FilterKeeps(repo.primary, StartsWith(options.filter), r.hit);
    }
  }

  /** Every row that comes back lies within the path filter, and is a row of the primary index, of a branch index, or of
      a wanted file that no index searches. */
  lemma EveryRowIsWanted(repo: Repo, query: string, options: SearchOptions, globOk: bool, r: Rooted)
    requires PrimaryLane(repo, options, globOk).Some?
    requires r in Take(options.limit, PrimaryLane(repo, options, globOk).value + Lanes(repo, query, options))
    ensures WantedPath(options.filter, r.hit.path)
    ensures (r.root == PRIMARY && r.hit in repo.primary)
      || (r.root in repo.branches && r.hit in repo.branches[r.root])
      || (exists f, n :: f in repo.files && Unindexed(repo, f) && WantedFile(f, options)
                         && RowOfFile(f, query, options, n, r))
  {
    var primary := PrimaryLane(repo, options, globOk).value;
    InTake(options.limit, primary + Lanes(repo, query, options), r);
    if r in primary {
      PrimaryLaneWanted(repo, options, globOk, r);
    } else if r in BranchLane(repo, repo.roots, options) {
      BranchLaneWanted(repo, repo.roots, options, r);
    } else {
      ScannedRowsIff(repo, query, options, r);
    }
  }

  /** And every row of such a file is among those wanted; without a limit it comes back. */
  lemma NoFileIsForgotten(repo: Repo, query: string, options: SearchOptions, globOk: bool, f: File, n: nat, r: Rooted)
    requires query != "" && f in repo.files && Unindexed(repo, f) && WantedFile(f, options)
    requires RowOfFile(f, query, options, n, r)
    ensures r in WantedLanes(repo, query, options)
    ensures options.limit.None? && PrimaryLane(repo, options, globOk).Some? ==>
      r in Take(options.limit, PrimaryLane(repo, options, globOk).value + Lanes(repo, query, options))
  {
    ScannedRowsIff(repo, query, options, r);
    ScanLaneIsWanted(repo, repo.files, query, options);
  }
}
