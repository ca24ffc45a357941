/** Reading `git status --porcelain=v1 -z`. A character stands for one byte.
    The output is a list of records, each ended by a NUL: two status codes, a blank, and a path. After a rename or copy
    the old path follows as a record of its own, without codes. The reader wants the new paths, sorted, each
    once.
    Paths may hold any other byte, so an old path may look like a record. */
module GitStatus {
  import opened Options
  import opened ByteOrder

  const NUL := '\0'

  // ---- the format ----

  /** A status entry: two status codes, the path, and the old path of a rename or copy. */
  datatype Change = Change(x: char, y: char, path: string, origin: string)

  predicate IsMove(x: char, y: char) {
    x == 'R' || x == 'C' || y == 'R' || y == 'C'
  }

  predicate IsPath(p: string) {
    p != "" && NUL !in p
  }

  predicate WellFormed(c: Change) {
    c.x != NUL && c.y != NUL && IsPath(c.path) && (IsMove(c.x, c.y) ==> IsPath(c.origin))
  }

  /** The NUL-terminated records of one entry; the old path follows the new one and has no status. */
  function Records(c: Change): seq<string> {
    [[c.x, c.y, ' '] + c.path] + if IsMove(c.x, c.y) then [c.origin] else []
  }

  function AllRecords(changes: seq<Change>): seq<string> {
    if changes == [] then [] else Records(changes[0]) + AllRecords(changes[1..])
  }

  function Terminated(records: seq<string>): string {
    if records == [] then "" else records[0] + [NUL] + Terminated(records[1..])
  }

  function Encode(changes: seq<Change>): string {
    Terminated(AllRecords(changes))
  }

  // ---- the reader ----

  function FirstNul(s: string): (i: nat)
    ensures i <= |s| && (i < |s| ==> s[i] == NUL)
  {
    if s == "" || s[0] == NUL then 0 else 1 + FirstNul(s[1..])
  }

  /** `split` on NUL, without the empty pieces. */
  function Pieces(s: string): seq<string>
    decreases |s|
  {
    var i := FirstNul(s);
    (if i == 0 then [] else [s[..i]]) + if i == |s| then [] else Pieces(s[i + 1..])
  }

  /** The paths the loop over the records collects. */
  function Collected(records: seq<string>): seq<string>
    decreases |records|
  {
    if records == [] then []
    else if |records[0]| < 4 then Collected(records[1..])
    else if IsMove(records[0][0], records[0][1]) then
      [records[0][3..]] + if |records| == 1 then [] else Collected(records[2..])
    else [records[0][3..]] + Collected(records[1..])
  }

  method Collect(records: seq<string>) returns (files: seq<string>)
    ensures files == Collected(records)
  {
    files := [];
    var i := 0;
    while i < |records|
      invariant i <= |records| && files + Collected(records[i..]) == Collected(records)
    {
      var record := records[i];
      var next := i + 1;
      if |record| >= 4 {
        if IsMove(record[0], record[1]) && next < |records| { next := next + 1; }
        files := files + [record[3..]];
      }
      i := next;
    }
    assert records[|records|..] == [];
  }

  // ---- sorting and removing duplicates ----

  /** In order, repetitions allowed. */
  predicate InOrder(s: seq<string>) {
    forall i, j :: 0 <= i < j < |s| ==> !Less(s[j], s[i])
  }

  predicate StrictlySorted(s: seq<string>) {
    forall i, j :: 0 <= i < j < |s| ==> Less(s[i], s[j])
  }

  function Insert(x: string, s: seq<string>): seq<string> {
    if s == [] || Less(x, s[0]) then [x] + s else [s[0]] + Insert(x, s[1..])
  }

  /** A stable sort. */
  function Sort(s: seq<string>): seq<string> {
    if s == [] then [] else Insert(s[|s| - 1], Sort(s[..|s| - 1]))
  }

  /** `dedup`: of equal neighbours only the first stays. */
  function Dedup(s: seq<string>): seq<string>
    decreases |s|
  {
    if |s| < 2 then s
    else if s[0] == s[1] then Dedup([s[0]] + s[2..])
    else [s[0]] + Dedup(s[1..])
  }

  lemma InOrderCons(x: string, s: seq<string>)
    ensures InOrder([x] + s) <==> InOrder(s) && forall y :: y in s ==> !Less(y, x)
  {
    var t := [x] + s;
    if InOrder(t) {
      forall y | y in s ensures !Less(y, x) {
        var j :| 0 <= j < |s| && s[j] == y;
        assert t[0] == x && t[j + 1] == y;
      }
      forall i, j | 0 <= i < j < |s| ensures !Less(s[j], s[i]) { assert t[i + 1] == s[i] && t[j + 1] == s[j]; }
    }
    if InOrder(s) && forall y :: y in s ==> !Less(y, x) {
      forall i, j | 0 <= i < j < |t| ensures !Less(t[j], t[i]) {
        assert t[j] == s[j - 1] && t[j] in s;
        if i > 0 { assert t[i] == s[i - 1]; }
      }
    }
  }

  lemma {:induction false} InsertKeepsOrder(x: string, s: seq<string>)
    requires InOrder(s)
    ensures InOrder(Insert(x, s)) && forall y :: y in Insert(x, s) <==> y == x || y in s
  {
    if s == [] {
      InOrderCons(x, s);
    } else {
      var first, rest := s[0], s[1..];
      assert s == [first] + rest;
      InOrderCons(first, rest);
      if Less(x, first) {
        forall y | y in s ensures !Less(y, x) {
          LessOrder(y, x, first);
          if Less(y, x) { LessOrder(y, first, first); }
        }
        InOrderCons(x, s);
      } else {
        InsertKeepsOrder(x, rest);
        InOrderCons(first, Insert(x, rest));
      }
    }
  }

  lemma {:induction false} SortSorts(s: seq<string>)
    ensures InOrder(Sort(s)) && forall y :: y in Sort(s) <==> y in s
  {
    if s != [] {
      SortSorts(s[..|s| - 1]);
      InsertKeepsOrder(s[|s| - 1], Sort(s[..|s| - 1]));
      assert s == s[..|s| - 1] + [s[|s| - 1]];
    }
  }

  lemma {:induction false} DedupSorts(s: seq<string>)
    requires InOrder(s)
    ensures StrictlySorted(Dedup(s)) && (forall y :: y in Dedup(s) <==> y in s)
    decreases |s|
  {
    if |s| >= 2 {
      var x, y, rest := s[0], s[1], s[2..];
      assert s[1..] == [y] + rest && s == [x] + s[1..];
      InOrderCons(x, s[1..]);
      InOrderCons(y, rest);
      if x == y {
        DedupSorts([x] + rest);
      } else {
        DedupSorts(s[1..]);
        var d := Dedup(s[1..]);
        forall z | z in d ensures Less(x, z) {
          LessOrder(x, y, z);
          LessOrder(z, y, x);
          LessOrder(y, z, z);
        }
      }
    }
  }

  // ---- the whole reader ----

  /** `git_changed_files`; nothing when git fails. For any output the result is strictly sorted and holds exactly the
      collected paths. */
  method GitChangedFiles(ok: bool, stdout: string) returns (files: seq<string>)
    ensures StrictlySorted(files)
    ensures forall p :: p in files <==> ok && p in Collected(Pieces(stdout))
  {
    if !ok { return []; }
    var collected := Collect(Pieces(stdout));
    SortSorts(collected);
    DedupSorts(Sort(collected));
    files := Dedup(Sort(collected));
  }

  lemma {:induction false} FirstNulAt(r: string, later: string)
    requires NUL !in r
    ensures FirstNul(r + [NUL] + later) == |r|
  {
    if r != "" {
      assert (r + [NUL] + later)[1..] == r[1..] + [NUL] + later;
      FirstNulAt(r[1..], later);
    }
  }

  lemma PiecesCons(r: string, later: string)
    requires IsPath(r)
    ensures Pieces(r + [NUL] + later) == [r] + Pieces(later)
  {
    var s := r + [NUL] + later;
    FirstNulAt(r, later);
    assert s[..|r|] == r && s[|r| + 1..] == later;
    if later == "" { assert Pieces(later) == []; }
  }

  lemma {:induction false} PiecesOfTerminated(records: seq<string>)
    requires forall r :: r in records ==> IsPath(r)
    ensures Pieces(Terminated(records)) == records
  {
    if records != [] {
      assert records[0] in records && records == [records[0]] + records[1..];
      PiecesCons(records[0], Terminated(records[1..]));
      PiecesOfTerminated(records[1..]);
    }
  }

  lemma {:induction false} RecordsArePaths(changes: seq<Change>)
    requires forall c :: c in changes ==> WellFormed(c)
    ensures forall r :: r in AllRecords(changes) ==> IsPath(r)
  {
    if changes != [] {
      assert changes[0] in changes && forall c :: c in changes[1..] ==> c in changes;
      RecordsArePaths(changes[1..]);
    }
  }

  function Paths(changes: seq<Change>): seq<string> {
    if changes == [] then [] else [changes[0].path] + Paths(changes[1..])
  }

  /** The record after an entry is its old path exactly when one of the two status codes is R or C. */
  lemma MoveTakesNext(x: char, y: char, path: string, next: string, later: seq<string>)
    requires path != "" && |next| >= 4
    ensures Collected([[x, y, ' '] + path] + ([next] + later))
      == if x in "RC" || y in "RC" then [path] + Collected(later) else [path] + Collected([next] + later)
  {
    var record := [x, y, ' '] + path;
    var all := [record] + ([next] + later);
    assert record[3..] == path && all[1..] == [next] + later && all[2..] == later;
  }

  /** An old path is skipped whatever it looks like, so only the new paths are collected. */
  lemma {:induction false} CollectsNewPaths(changes: seq<Change>)
    requires forall c :: c in changes ==> WellFormed(c)
    ensures Collected(AllRecords(changes)) == Paths(changes)
  {
    if changes != [] {
      var c, later := changes[0], AllRecords(changes[1..]);
      assert c in changes && forall d :: d in changes[1..] ==> d in changes;
      CollectsNewPaths(changes[1..]);
      var record, all := [c.x, c.y, ' '] + c.path, AllRecords(changes);
      assert record[3..] == c.path && all[0] == record;
      if IsMove(c.x, c.y) {
        assert all == [record, c.origin] + later && all[2..] == later;
      } else {
        assert all == [record] + later && all[1..] == later;
      }
    }
  }

  /** Reading any well-formed stream gives the new paths, strictly sorted, each once, and never an old path that is not
      also a new one: this is the only list the method can return. */
  lemma ReadsNewPaths(changes: seq<Change>, files: seq<string>)
    requires forall c :: c in changes ==> WellFormed(c)
    requires StrictlySorted(files) && forall p :: p in files <==> p in Collected(Pieces(Encode(changes)))
    ensures forall p :: p in files <==> exists c :: c in changes && c.path == p
    ensures files == Dedup(Sort(Paths(changes)))
  {
    RecordsArePaths(changes);
    PiecesOfTerminated(AllRecords(changes));
    CollectsNewPaths(changes);
    SortSorts(Paths(changes));
    DedupSorts(Sort(Paths(changes)));
    PathsAreNew(changes);
    SortedIsCanonical(files, Dedup(Sort(Paths(changes))));
  }

  lemma {:induction false} PathsAreNew(changes: seq<Change>)
    ensures forall p :: p in Paths(changes) <==> exists c :: c in changes && c.path == p
  {
    if changes != [] {
      PathsAreNew(changes[1..]);
      assert changes == [changes[0]] + changes[1..];
    }
  }

  /** A strictly sorted list is determined by its elements, so the result is a function of the set of new paths. */
  lemma {:induction false} SortedIsCanonical(a: seq<string>, b: seq<string>)
    requires StrictlySorted(a) && StrictlySorted(b) && forall p :: p in a <==> p in b
    ensures a == b
  {
    assert b == [] || b[0] in b;
    if a != [] {
      assert a[0] in a && a[0] in b && b[0] in a;
      assert (a[0] == b[0] || Less(a[0], b[0])) && (b[0] == a[0] || Less(b[0], a[0]));
      LessOrder(a[0], b[0], a[0]);
      forall p ensures p in a[1..] <==> p in b[1..] {
        TailIs(a, p);
        TailIs(b, p);
      }
      SortedIsCanonical(a[1..], b[1..]);
      assert a == [a[0]] + a[1..] && b == [b[0]] + b[1..];
    }
  }

  lemma TailIs(s: seq<string>, p: string)
    requires s != [] && StrictlySorted(s)
    ensures p in s[1..] <==> p in s && p != s[0]
  {
    assert s == [s[0]] + s[1..];
    if p in s[1..] {
      var j :| 0 <= j < |s[1..]| && s[1..][j] == p;
      assert s[j + 1] == p && Less(s[0], s[j + 1]);
      LessOrder(p, p, p);
    }
  }
}
