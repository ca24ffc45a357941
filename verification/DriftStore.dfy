/** The drift cycle: fingerprints carried from one compile to the next, and sparse edge scores. */
module DriftStore {
  // Fingerprints are kept in a table keyed by revision; scores are read back with default zero. A revision is a Git
  // object id, or "unknown", compared as text; only that order matters, so it is a number here.

  import opened Options
  import opened ByteOrder
  import opened Drift

  type Revision = nat

  /** A sidecar table: for each revision with rows, its rows. */
  type Table<K(==), V> = map<Revision, map<K, V>>

  ghost predicate NoEmptyRows<K, V>(t: Table<K, V>) {
    forall r :: r in t ==> t[r] != map[]
  }

  lemma {:induction false} MaxExists(s: set<Revision>)
    requires s != {}
    ensures exists m :: m in s && forall r :: r in s ==> r <= m
  {
    var x :| x in s;
    if s != {x} {
      MaxExists(s - {x});
      var m :| m in s - {x} && forall r :: r in s - {x} ==> r <= m;
      var top := if m < x then x else m;
      assert top in s && forall r :: r in s ==> r == x || r in s - {x};
    }
  }

  /** `SELECT MAX(revision)` */
  ghost function Newest<K, V>(t: Table<K, V>): (m: Revision)
    requires t != map[]
    ensures m in t && forall r :: r in t ==> r <= m
  {
    MaxExists(t.Keys);
    var m :| m in t.Keys && forall r :: r in t.Keys ==> r <= m;
    m
  }

  /** The rows of the newest revision. */
  ghost function Read<K, V>(t: Table<K, V>): map<K, V> {
    if t == map[] then map[] else t[Newest(t)]
  }

  function RowsAt<K(==), V>(t: Table<K, V>, r: Revision): map<K, V> {
    if r in t then t[r] else map[]
  }

  /** `DELETE ... WHERE revision < r` */
  function Truncated<K(==), V>(t: Table<K, V>, r: Revision): Table<K, V> {
    map s | s in t && r <= s :: t[s]
  }

  /** Insert or update the rows at `r`; the call is skipped when there are no rows. */
  function Inserted<K(==), V>(t: Table<K, V>, r: Revision, rows: map<K, V>): Table<K, V> {
    if |rows| == 0 then t else t[r := RowsAt(t, r) + rows]
  }

  /** Truncate, then insert. */
  function Upsert<K(==), V>(t: Table<K, V>, r: Revision, rows: map<K, V>): Table<K, V> {
    Inserted(Truncated(t, r), r, rows)
  }

  lemma UpsertKeepsRows<K, V>(t: Table<K, V>, r: Revision, rows: map<K, V>)
    requires NoEmptyRows(t)
    ensures NoEmptyRows(Upsert(t, r, rows))
  {
    if |rows| != 0 {
      var k :| k in rows;
      assert k in Upsert(t, r, rows)[r];
    }
  }

  predicate Below(revisions: set<Revision>, r: Revision) {
    forall s <- revisions :: s < r
  }

  lemma ReadAt<K, V>(t: Table<K, V>, r: Revision)
    requires r in t && forall q :: q in t ==> q <= r
    ensures Newest(t) == r && Read(t) == t[r]
  {}

  /** What the next reader sees, in the three cases: a newer revision is stored, this revision is the newest
      one stored, every stored revision is older. */
  lemma ReadAfter<K, V>(t: Table<K, V>, r: Revision, rows: map<K, V>)
    requires NoEmptyRows(t)
    ensures (exists s :: s in t && r < s) ==> Read(Upsert(t, r, rows)) == Read(t)
    ensures r in t && Newest(t) == r ==> Read(Upsert(t, r, rows)) == t[r] + rows
    ensures Below(t.Keys, r) ==> Read(Upsert(t, r, rows)) == rows
  {
    var u := Upsert(t, r, rows);
    if t != map[] && r < Newest(t) {
      ReadAt(u, Newest(t));
    } else if r in t {
      ReadAt(u, r);
      if |rows| == 0 { assert t[r] + rows == t[r]; }
    } else {
      ReadFresh(t, r, rows);
    }
  }

  lemma ReadFresh<K, V>(t: Table<K, V>, r: Revision, rows: map<K, V>)
    requires Below(t.Keys, r)
    ensures Read(Upsert(t, r, rows)) == rows
  {
    var none: map<K, V> := map[];
    assert Truncated(t, r) == map[] && none + rows == rows;
    if |rows| == 0 { assert rows == none; } else { ReadAt(Upsert(t, r, rows), r); }
  }

  lemma OverrideIff<K, V>(before: map<K, V>, rows: map<K, V>)
    ensures before + rows == rows <==> before.Keys <= rows.Keys
  {
    assert (before + rows).Keys == before.Keys + rows.Keys;
  }

  /** A cycle reads back its rows exactly when a stored revision that sorts above holds just these rows, or there is
      none and every key stored under the cycle's own revision is among those written. */
  lemma ReadsBackIff<K, V>(t: Table<K, V>, r: Revision, rows: map<K, V>)
    requires NoEmptyRows(t)
    ensures Read(Upsert(t, r, rows)) == rows
      <==> if exists s :: s in t && r < s then Read(t) == rows else r in t ==> t[r].Keys <= rows.Keys
  {
    if exists s :: s in t && r < s {
      ReadAfter(t, r, rows);
    } else if r in t {
      ReadAfterSame(t, r, rows);
      OverrideIff(t[r], rows);
    } else {
      ReadFresh(t, r, rows);
    }
  }

  lemma ReadAfterSame<K, V>(t: Table<K, V>, r: Revision, rows: map<K, V>)
    requires NoEmptyRows(t) && r in t && forall s :: s in t ==> s <= r
    ensures Read(Upsert(t, r, rows)) == t[r] + rows
  {
    ReadAt(t, r);
    ReadAfter(t, r, rows);
  }

  /** All possible rows are read back exactly when every stored revision is older. */
  lemma AnyRowsReadBackIff<K(!new), V(!new)>(t: Table<K, V>, r: Revision)
    requires NoEmptyRows(t)
    ensures (forall rows: map<K, V> :: Read(Upsert(t, r, rows)) == rows) <==> Below(t.Keys, r)
  {
    forall rows: map<K, V> | Below(t.Keys, r) ensures Read(Upsert(t, r, rows)) == rows {
      ReadsBackIff(t, r, rows);
    }
    if !Below(t.Keys, r) {
      var none: map<K, V> := map[];
      ReadsBackIff(t, r, none);
      if q :| q in t && r < q { assert Read(t) != none; }
    }
  }

  // ---- one cycle ----

  function EntryOf(s: SymbolNode, hash: string -> nat): Entry {
    (s.qualifiedName, if s.signature.Some? then hash(s.signature.value) else 0)
  }

  /** `e` is a definition edge from `file` to a stored symbol. */
  predicate Declares(e: Edge, file: FileId, g: Graph) {
    e.defines && e.from == File(file) && e.to.Symbol? && e.to.symbol in g.symbols
  }

  function FingerprintOf(file: FileId, g: Graph, hash: string -> nat): Fingerprint {
    set e | e in g.edges && Declares(e, file, g) :: EntryOf(g.symbols[e.to.symbol], hash)
  }

  function SnapshotOf(g: Graph, hash: string -> nat): Snapshot {
    map f | f in g.files :: FingerprintOf(f, g, hash)
  }

  /** The hash of a signature, and 0 without one. */
  predicate HashOf(hash: string -> nat, signature: Option<string>, h: nat) {
    match signature
    case None => h == 0
    case Some(text) => h == hash(text)
  }

  /** Edge `e` is a definition edge from `file` to the stored symbol `id`. */
  predicate Leads(e: Edge, file: FileId, g: Graph, id: SymbolId) {
    e in g.edges && e.defines && e.from == File(file) && e.to == Symbol(id) && id in g.symbols
  }

  /** A name with a hash is in the fingerprint exactly when a definition edge of the file leads to a stored symbol of
      that name with that signature hash. */
  lemma FingerprintIff(file: FileId, g: Graph, hash: string -> nat, n: string, h: nat)
    ensures (n, h) in FingerprintOf(file, g, hash)
      <==> exists e, id :: Leads(e, file, g, id) && g.symbols[id].qualifiedName == n
                           && HashOf(hash, g.symbols[id].signature, h)
  {
    if (n, h) in FingerprintOf(file, g, hash) {
      var e :| e in g.edges && Declares(e, file, g) && EntryOf(g.symbols[e.to.symbol], hash) == (n, h);
      assert Leads(e, file, g, e.to.symbol);
    }
    if e, id :| Leads(e, file, g, id) && g.symbols[id].qualifiedName == n && HashOf(hash, g.symbols[id].signature, h) {
      assert Declares(e, file, g) && EntryOf(g.symbols[id], hash) == (n, h);
    }
  }

  /** Every file of the graph, and no other, has its fingerprint in the snapshot. */
  lemma SnapshotHolds(g: Graph, hash: string -> nat, f: FileId)
    ensures f in SnapshotOf(g, hash) <==> f in g.files
    ensures f in g.files ==> SnapshotOf(g, hash)[f] == FingerprintOf(f, g, hash)
  {}

  function Resigned(g: Graph, id: SymbolId, signature: Option<string>): Graph
    requires id in g.symbols
  {
    g.(symbols := g.symbols[id := g.symbols[id].(signature := signature)])
  }

  /** Symbol `id` is declared in the file and no other declared symbol has its name. */
  ghost predicate OnlyOfItsName(g: Graph, file: FileId, id: SymbolId) {
    && id in g.symbols && (exists e :: Leads(e, file, g, id))
    && forall e, other :: Leads(e, file, g, other) && g.symbols[other].qualifiedName == g.symbols[id].qualifiedName
         ==> other == id
  }

  /** A new signature with another hash changes the fingerprint. */
  lemma NewSignatureNewFingerprint(g: Graph, file: FileId, id: SymbolId, signature: Option<string>,
                                   hash: string -> nat, h: nat)
    requires OnlyOfItsName(g, file, id)
    requires HashOf(hash, g.symbols[id].signature, h) && !HashOf(hash, signature, h)
    ensures FingerprintOf(file, g, hash) != FingerprintOf(file, Resigned(g, id, signature), hash)
  {
    var g', n := Resigned(g, id, signature), g.symbols[id].qualifiedName;
    FingerprintIff(file, g, hash, n, h);
    FingerprintIff(file, g', hash, n, h);
    if e, other :| Leads(e, file, g', other) && g'.symbols[other].qualifiedName == n
                   && HashOf(hash, g'.symbols[other].signature, h) {
      assert Leads(e, file, g, other);
    }
  }

  /** Then the file is at a positive distance from what it was, and every edge scored on it has a positive score. */
  lemma NewSignatureDrifts(g: Graph, file: FileId, id: SymbolId, signature: Option<string>, hash: string -> nat,
                           h: nat, e: Edge)
    requires OnlyOfItsName(g, file, id) && file in g.files
    requires HashOf(hash, g.symbols[id].signature, h) && !HashOf(hash, signature, h)
    ensures var g' := Resigned(g, id, signature);
      var prior, current := SnapshotOf(g, hash), SnapshotOf(g', hash);
      && EndpointDrift(file, prior, current) > 0.0
      && (file in Scored(e, g') ==> EdgeDrift(e, prior, current, g') > 0.0)
  {
    var g' := Resigned(g, id, signature);
    NewSignatureNewFingerprint(g, file, id, signature, hash, h);
    SnapshotHolds(g, hash, file);
    SnapshotHolds(g', hash, file);
    EndpointBounds(file, SnapshotOf(g, hash), SnapshotOf(g', hash));
    EdgeBounds(e, SnapshotOf(g, hash), SnapshotOf(g', hash), g');
  }

  /** The scores that get stored: those above zero. */
  function Sparse(edges: seq<Edge>, prior: Snapshot, current: Snapshot, g: Graph): map<EdgeId, real> {
    if edges == [] then map[]
    else
      var rest, e := Sparse(edges[..|edges| - 1], prior, current, g), edges[|edges| - 1];
      var score := EdgeDrift(e, prior, current, g);
      if score > 0.0 then rest[e.id := score] else rest
  }

  datatype Store = Store(fingerprints: Table<FileId, Fingerprint>, scores: Table<EdgeId, real>)

  ghost predicate WellFormed(s: Store) {
    NoEmptyRows(s.fingerprints) && NoEmptyRows(s.scores)
  }

  ghost function Cycle(s: Store, g: Graph, r: Revision, hash: string -> nat): Store {
    var current := SnapshotOf(g, hash);
    Store(Upsert(s.fingerprints, r, current), Upsert(s.scores, r, Sparse(g.edges, Read(s.fingerprints), current, g)))
  }

  /** The tables when only the first `done` of the four store calls succeed: truncate scores, truncate fingerprints,
      write scores, write fingerprints. Each is its own transaction; one skipped for want of rows counts as done. */
  ghost function Partial(s: Store, g: Graph, r: Revision, hash: string -> nat, done: nat): Store {
    var current := SnapshotOf(g, hash);
    var sparse := Sparse(g.edges, Read(s.fingerprints), current, g);
    Store(if done < 2 then s.fingerprints
          else if done < 4 then Truncated(s.fingerprints, r) else Upsert(s.fingerprints, r, current),
          if done < 1 then s.scores
          else if done < 3 then Truncated(s.scores, r) else Upsert(s.scores, r, sparse))
  }

  class DriftTables {
    var fingerprints: Table<FileId, Fingerprint>
    var scores: Table<EdgeId, real>

    ghost function View(): Store
      reads this
    {
      Store(fingerprints, scores)
    }

    constructor ()
      ensures View() == Store(map[], map[])
    {
      fingerprints, scores := map[], map[];
    }

    /** `run_drift_scoring`, of whose store calls the first `done` succeed. */
    method RunDriftScoring(g: Graph, r: Revision, hash: string -> nat, done: nat) returns (ok: bool, scored: nat)
      modifies this
      ensures View() == Partial(old(View()), g, r, hash, done) && (ok <==> done >= 4)
      ensures ok ==> View() == Cycle(old(View()), g, r, hash)
      ensures ok ==> scored == |Sparse(g.edges, Read(old(fingerprints)), SnapshotOf(g, hash), g)|
    {
      var prior := ReadNewest(fingerprints);
      var current := CurrentSnapshot(g, hash);
      var found := ScoreEdges(g, prior, current);
      if done < 1 { return false, 0; }
      scores := Truncated(scores, r);
      if done < 2 { return false, 0; }
      fingerprints := Truncated(fingerprints, r);
      if done < 3 { return false, 0; }
      scores := Inserted(scores, r, found);
      if done < 4 { return false, 0; }
      fingerprints := Inserted(fingerprints, r, current);
      return true, |found|;
    }
  }

  method CurrentSnapshot(g: Graph, hash: string -> nat) returns (current: Snapshot)
    ensures current == SnapshotOf(g, hash)
  {
    current := map[];
    for i := 0 to |g.files|
      invariant current == map f | f in g.files[..i] :: FingerprintOf(f, g, hash)
    {
      var fp := FingerprintForFile(g.files[i], g, hash);
      current := current[g.files[i] := fp];
      assert g.files[..i + 1] == g.files[..i] + [g.files[i]];
    }
    assert g.files[..|g.files|] == g.files;
  }

  method ScoreEdges(g: Graph, prior: Snapshot, current: Snapshot) returns (found: map<EdgeId, real>)
    ensures found == Sparse(g.edges, prior, current, g)
  {
    found := map[];
    for i := 0 to |g.edges|
      invariant found == Sparse(g.edges[..i], prior, current, g)
    {
      var score := EdgeDrift(g.edges[i], prior, current, g);
      assert g.edges[..i + 1][..i] == g.edges[..i];
      if score > 0.0 { found := found[g.edges[i].id := score]; }
    }
    assert g.edges[..|g.edges|] == g.edges;
  }

  method ReadNewest<K(==), V>(t: Table<K, V>) returns (rows: map<K, V>)
    ensures rows == Read(t)
  {
    if |t| == 0 { return map[]; }
    var newest :| newest in t;
    var todo := t.Keys - {newest};
    while todo != {}
      invariant newest in t && todo <= t.Keys
      invariant forall r :: r in t ==> r <= newest || r in todo
    {
      var r :| r in todo;
      if newest < r { newest := r; }
      todo := todo - {r};
    }
    return t[newest];
  }

  method FingerprintForFile(file: FileId, g: Graph, hash: string -> nat) returns (fp: Fingerprint)
    ensures fp == FingerprintOf(file, g, hash)
  {
    fp := {};
    for i := 0 to |g.edges|
      invariant fp == set e | e in g.edges[..i] && Declares(e, file, g) :: EntryOf(g.symbols[e.to.symbol], hash)
    {
      var e := g.edges[i];
      assert g.edges[..i + 1] == g.edges[..i] + [e];
      if e.defines && e.from == File(file) {
        if e.to.Symbol? && e.to.symbol in g.symbols {
          fp := fp + {EntryOf(g.symbols[e.to.symbol], hash)};
        }
      }
    }
    assert g.edges[..|g.edges|] == g.edges;
  }

  // ---- scores read back ----

  /** The reader: the stored score, or zero. */
  ghost function ScoreOf(s: Store, id: EdgeId): real {
    var rows := Read(s.scores);
    if id in rows then rows[id] else 0.0
  }

  predicate UniqueIds(edges: seq<Edge>) {
    forall i, j :: 0 <= i < j < |edges| ==> edges[i].id != edges[j].id
  }

  lemma {:induction false} SparseHolds(edges: seq<Edge>, prior: Snapshot, current: Snapshot, g: Graph)
    requires UniqueIds(edges)
    ensures forall id :: id in Sparse(edges, prior, current, g) ==> exists e :: e in edges && e.id == id
    ensures forall e :: e in edges ==>
      (e.id in Sparse(edges, prior, current, g) <==> EdgeDrift(e, prior, current, g) > 0.0)
    ensures forall e :: e in edges && EdgeDrift(e, prior, current, g) > 0.0 ==>
      Sparse(edges, prior, current, g)[e.id] == EdgeDrift(e, prior, current, g)
  {
    if edges != [] {
      var init, last := edges[..|edges| - 1], edges[|edges| - 1];
      SparseHolds(init, prior, current, g);
      var before, all := Sparse(init, prior, current, g), Sparse(edges, prior, current, g);
      assert all == if EdgeDrift(last, prior, current, g) > 0.0
                    then before[last.id := EdgeDrift(last, prior, current, g)] else before;
      assert last.id !in before;
      forall id | id in all ensures exists e :: e in edges && e.id == id {
        if id == last.id { assert last in edges; }
      }
    }
  }

  /** The score a cycle computes for an edge. */
  ghost function Computed(s: Store, g: Graph, hash: string -> nat, e: Edge): real {
    EdgeDrift(e, Read(s.fingerprints), SnapshotOf(g, hash), g)
  }

  /** With every stored score older, the sparse scores read back with default zero are the computed ones. */
  lemma ScoresReadBack(s: Store, g: Graph, r: Revision, hash: string -> nat, e: Edge)
    requires WellFormed(s) && UniqueIds(g.edges) && e in g.edges && Below(s.scores.Keys, r)
    ensures ScoreOf(Cycle(s, g, r, hash), e.id) == Computed(s, g, hash, e)
  {
    var prior, current := Read(s.fingerprints), SnapshotOf(g, hash);
    SparseHolds(g.edges, prior, current, g);
    EdgeBounds(e, prior, current, g);
    ReadAfter(s.scores, r, Sparse(g.edges, prior, current, g));
  }

  /** Scoring again at the newest stored revision leaves old rows in place: an edge reads back its computed score
      for all edges exactly when every edge that has a stored score drifts again. */
  lemma SameRevisionReadsBackIff(s: Store, g: Graph, r: Revision, hash: string -> nat)
    requires WellFormed(s) && UniqueIds(g.edges) && r in s.scores && Newest(s.scores) == r
    requires forall id :: id in s.scores[r] ==> s.scores[r][id] > 0.0
    ensures (forall e :: e in g.edges ==> ScoreOf(Cycle(s, g, r, hash), e.id) == Computed(s, g, hash, e))
      <==> (forall e :: e in g.edges && e.id in s.scores[r] ==> Computed(s, g, hash, e) > 0.0)
  {
    var prior, current := Read(s.fingerprints), SnapshotOf(g, hash);
    SparseHolds(g.edges, prior, current, g);
    ReadAfter(s.scores, r, Sparse(g.edges, prior, current, g));
    forall e | e in g.edges
      ensures ScoreOf(Cycle(s, g, r, hash), e.id) == Computed(s, g, hash, e)
        <==> (e.id in s.scores[r] ==> Computed(s, g, hash, e) > 0.0)
    {
      EdgeBounds(e, prior, current, g);
    }
  }

  // ---- cycles that fail half-way ----

  lemma ReadTruncated<K, V>(t: Table<K, V>, r: Revision)
    requires NoEmptyRows(t)
    ensures Read(Truncated(t, r)) == if Below(t.Keys, r) then map[] else Read(t)
  {
    if !Below(t.Keys, r) {
      ReadAt(Truncated(t, r), Newest(t));
    } else {
      assert Truncated(t, r) == map[];
    }
  }

  /** A cycle that fails keeps the prior fingerprints exactly when it fails before it truncates them, or finds a stored
      revision that is not older, or had none. */
  lemma FailureKeepsPriorIff(s: Store, g: Graph, r: Revision, hash: string -> nat, done: nat)
    requires WellFormed(s) && done < 4
    ensures Read(Partial(s, g, r, hash, done).fingerprints) == Read(s.fingerprints)
      <==> done < 2 || !Below(s.fingerprints.Keys, r) || s.fingerprints == map[]
  {
    ReadTruncated(s.fingerprints, r);
    if s.fingerprints != map[] { assert s.fingerprints[Newest(s.fingerprints)] != map[]; }
  }

  /** The scores such a cycle leaves: all of the old ones if nothing was truncated, then none that are older, and from
      the third call on those of a whole cycle. */
  lemma FailureScores(s: Store, g: Graph, r: Revision, hash: string -> nat, done: nat, q: Revision)
    requires done < 4
    ensures done == 0 ==> Partial(s, g, r, hash, done).scores == s.scores
    ensures 1 <= done <= 2 ==> (q in Partial(s, g, r, hash, done).scores <==> q in s.scores && q >= r)
    ensures 1 <= done <= 2 && q in s.scores && q >= r ==> Partial(s, g, r, hash, done).scores[q] == s.scores[q]
    ensures done == 3 ==> Partial(s, g, r, hash, done).scores == Cycle(s, g, r, hash).scores
  {}

  /** When they are lost, the next cycle finds nothing to compare with: every edge scores zero, whatever moved. */
  lemma LostPriorHidesDrift(s: Store, g: Graph, r: Revision, next: Graph, hash: string -> nat, done: nat, e: Edge)
    requires WellFormed(s) && 2 <= done < 4 && Below(s.fingerprints.Keys, r)
    ensures Computed(Partial(s, g, r, hash, done), next, hash, e) == 0.0
  {
    ReadTruncated(s.fingerprints, r);
  }

  // ---- runs of cycles ----

  datatype Compile = Compile(graph: Graph, revision: Revision)

  ghost function RunCycles(s: Store, cycles: seq<Compile>, hash: string -> nat): Store {
    if cycles == [] then s
    else
      var last := cycles[|cycles| - 1];
      Cycle(RunCycles(s, cycles[..|cycles| - 1], hash), last.graph, last.revision, hash)
  }

  lemma {:induction false} RunKeepsWellFormed(s: Store, cycles: seq<Compile>, hash: string -> nat)
    requires WellFormed(s)
    ensures WellFormed(RunCycles(s, cycles, hash))
  {
    if cycles != [] {
      var init, last := cycles[..|cycles| - 1], cycles[|cycles| - 1];
      RunKeepsWellFormed(s, init, hash);
      var mid, current := RunCycles(s, init, hash), SnapshotOf(last.graph, hash);
      UpsertKeepsRows(mid.fingerprints, last.revision, current);
      UpsertKeepsRows(mid.scores, last.revision, Sparse(last.graph.edges, Read(mid.fingerprints), current, last.graph));
    }
  }

  /** What a reader can tell about a table: its newest revision and the rows there. */
  datatype Seen<K(==), V> = Nothing | Seen(revision: Revision, rows: map<K, V>)

  ghost function SeenIn<K, V>(t: Table<K, V>): Seen<K, V> {
    if t == map[] then Nothing else Seen(Newest(t), Read(t))
  }

  function Remembered<K(==), V>(seen: Seen<K, V>): map<K, V> {
    if seen.Nothing? then map[] else seen.rows
  }

  /** One row set suffices: rows under an older revision are ignored, rows under the same one are added,
      rows under a newer one replace what was there. */
  function Advanced<K(==), V>(seen: Seen<K, V>, r: Revision, rows: map<K, V>): Seen<K, V> {
    if seen.Seen? && r < seen.revision then seen
    else if seen.Seen? && r == seen.revision then Seen(r, seen.rows + rows)
    else if |rows| == 0 then Nothing
    else Seen(r, rows)
  }

  lemma SeenAfter<K, V>(t: Table<K, V>, r: Revision, rows: map<K, V>)
    requires NoEmptyRows(t)
    ensures SeenIn(Upsert(t, r, rows)) == Advanced(SeenIn(t), r, rows)
  {
    var u := Upsert(t, r, rows);
    ReadAfter(t, r, rows);
    if t != map[] && r < Newest(t) {
      ReadAt(u, Newest(t));
    } else if r in t || |rows| != 0 {
      ReadAt(u, r);
      assert Newest(u) == r;
    } else {
      assert u == map[];
    }
  }

  datatype Reader = Reader(fingerprints: Seen<FileId, Fingerprint>, scores: Seen<EdgeId, real>)

  ghost function ReaderOf(s: Store): Reader {
    Reader(SeenIn(s.fingerprints), SeenIn(s.scores))
  }

  function Replay(v: Reader, cycles: seq<Compile>, hash: string -> nat): Reader {
    if cycles == [] then v
    else
      var last, v' := cycles[|cycles| - 1], Replay(v, cycles[..|cycles| - 1], hash);
      var current := SnapshotOf(last.graph, hash);
      var sparse := Sparse(last.graph.edges, Remembered(v'.fingerprints), current, last.graph);
      Reader(Advanced(v'.fingerprints, last.revision, current), Advanced(v'.scores, last.revision, sparse))
  }

  /** Whatever revisions come in, in whatever order, from whatever tables: all that readers and later cycles see is
      two remembered row sets. Rows under revisions that do not sort last have no effect, ever. */
  lemma {:induction false} RunIsReplay(s: Store, cycles: seq<Compile>, hash: string -> nat)
    requires WellFormed(s)
    ensures ReaderOf(RunCycles(s, cycles, hash)) == Replay(ReaderOf(s), cycles, hash)
  {
    if cycles != [] {
      var init, last := cycles[..|cycles| - 1], cycles[|cycles| - 1];
      RunIsReplay(s, init, hash);
      RunKeepsWellFormed(s, init, hash);
      var mid, current := RunCycles(s, init, hash), SnapshotOf(last.graph, hash);
      SeenAfter(mid.fingerprints, last.revision, current);
      SeenAfter(mid.scores, last.revision, Sparse(last.graph.edges, Read(mid.fingerprints), current, last.graph));
    }
  }

  /** Revisions never sort before an earlier one; they may repeat, as they do when HEAD has not moved. */
  predicate InOrder(cycles: seq<Compile>) {
    forall i, j :: 0 <= i < j < |cycles| ==> cycles[i].revision <= cycles[j].revision
  }

  /** A cycle at an unchanged revision still has every file of the cycle before. */
  predicate KeepsFiles(a: Compile, b: Compile) {
    a.revision == b.revision ==> forall f <- a.graph.files :: f in b.graph.files
  }

  predicate AllKeepFiles(cycles: seq<Compile>) {
    forall i :: 0 < i < |cycles| ==> KeepsFiles(cycles[i - 1], cycles[i])
  }

  const EMPTY := Store(map[], map[])

  /** The last cycle's snapshot is what the next cycle will compare with. */
  ghost predicate ReadsLast(cycles: seq<Compile>, hash: string -> nat) {
    Read(RunCycles(EMPTY, cycles, hash).fingerprints)
      == if cycles == [] then map[] else SnapshotOf(cycles[|cycles| - 1].graph, hash)
  }

  /** Nothing stored is newer than the last cycle, and all stored scores are positive. */
  ghost predicate UpToDate(s: Store, cycles: seq<Compile>) {
    && WellFormed(s)
    && (forall r :: r in s.fingerprints || r in s.scores ==> cycles != [] && r == cycles[|cycles| - 1].revision)
    && PositiveScores(s)
  }

  ghost predicate PositiveScores(s: Store) {
    forall r, id :: r in s.scores && id in s.scores[r] ==> s.scores[r][id] > 0.0
  }

  lemma {:induction false} SparseIsPositive(edges: seq<Edge>, prior: Snapshot, current: Snapshot, g: Graph)
    ensures forall id :: id in Sparse(edges, prior, current, g) ==> Sparse(edges, prior, current, g)[id] > 0.0
  {
    if edges != [] { SparseIsPositive(edges[..|edges| - 1], prior, current, g); }
  }

  lemma UpsertInOrder<K, V>(t: Table<K, V>, r: Revision, rows: map<K, V>)
    requires NoEmptyRows(t) && forall q :: q in t ==> q <= r
    ensures NoEmptyRows(Upsert(t, r, rows)) && forall q :: q in Upsert(t, r, rows) ==> q == r
  {
    UpsertKeepsRows(t, r, rows);
  }

  lemma PositiveAfter(t: Table<EdgeId, real>, r: Revision, rows: map<EdgeId, real>)
    requires forall q, id :: q in t && id in t[q] ==> t[q][id] > 0.0
    requires forall id :: id in rows ==> rows[id] > 0.0
    ensures forall q, id :: q in Upsert(t, r, rows) && id in Upsert(t, r, rows)[q] ==> Upsert(t, r, rows)[q][id] > 0.0
  {}

  lemma {:induction false} InOrderUpToDate(cycles: seq<Compile>, hash: string -> nat)
    requires InOrder(cycles)
    ensures UpToDate(RunCycles(EMPTY, cycles, hash), cycles)
  {
    if cycles != [] {
      var init, last := cycles[..|cycles| - 1], cycles[|cycles| - 1];
      var s := RunCycles(EMPTY, init, hash);
      InOrderUpToDate(init, hash);
      if init != [] { assert init[|init| - 1].revision <= last.revision; }
      var current := SnapshotOf(last.graph, hash);
      var sparse := Sparse(last.graph.edges, Read(s.fingerprints), current, last.graph);
      UpsertInOrder(s.fingerprints, last.revision, current);
      UpsertInOrder(s.scores, last.revision, sparse);
      SparseIsPositive(last.graph.edges, Read(s.fingerprints), current, last.graph);
      PositiveAfter(s.scores, last.revision, sparse);
    }
  }

  lemma FilesKept(a: Graph, b: Graph, hash: string -> nat)
    ensures SnapshotOf(a, hash).Keys <= SnapshotOf(b, hash).Keys <==> forall f <- a.files :: f in b.files
  {
    if SnapshotOf(a, hash).Keys <= SnapshotOf(b, hash).Keys {
      forall f | f in a.files ensures f in b.files { assert f in SnapshotOf(a, hash).Keys; }
    }
  }

  /** One more cycle after tables that hold the previous snapshot and nothing newer. */
  lemma StoredIff(s: Store, before: Compile, last: Compile, hash: string -> nat)
    requires WellFormed(s) && before.revision <= last.revision
    requires forall r :: r in s.fingerprints ==> r == before.revision
    requires Read(s.fingerprints) == SnapshotOf(before.graph, hash)
    ensures Read(Cycle(s, last.graph, last.revision, hash).fingerprints) == SnapshotOf(last.graph, hash)
      <==> KeepsFiles(before, last)
  {
    ReadsBackIff(s.fingerprints, last.revision, SnapshotOf(last.graph, hash));
    FilesKept(before.graph, last.graph, hash);
    if before.revision in s.fingerprints {
      ReadAt(s.fingerprints, before.revision);
    } else {
      assert s.fingerprints == map[];
      assert SnapshotOf(before.graph, hash).Keys == {};
    }
  }

  /** The tables after the last cycle hold its snapshot exactly when it keeps the files, given that the tables
      before it held the snapshot before. */
  lemma LastIsStoredIff(cycles: seq<Compile>, hash: string -> nat)
    requires InOrder(cycles) && cycles != [] && ReadsLast(cycles[..|cycles| - 1], hash)
    ensures ReadsLast(cycles, hash)
      <==> (|cycles| > 1 ==> KeepsFiles(cycles[|cycles| - 2], cycles[|cycles| - 1]))
  {
    var init, last := cycles[..|cycles| - 1], cycles[|cycles| - 1];
    var s := RunCycles(EMPTY, init, hash);
    InOrderUpToDate(init, hash);
    if init == [] {
      ReadsBackIff(s.fingerprints, last.revision, SnapshotOf(last.graph, hash));
    } else {
      StoredIff(s, init[|init| - 1], last, hash);
    }
  }

  lemma AllKeepFilesStep(cycles: seq<Compile>)
    requires cycles != []
    ensures AllKeepFiles(cycles)
      <==> (AllKeepFiles(cycles[..|cycles| - 1])
            && (|cycles| > 1 ==> KeepsFiles(cycles[|cycles| - 2], cycles[|cycles| - 1])))
  {
    var init, n := cycles[..|cycles| - 1], |cycles| - 1;
    if AllKeepFiles(init) && (n > 0 ==> KeepsFiles(cycles[n - 1], cycles[n])) {
      forall i | 0 < i < |cycles| ensures KeepsFiles(cycles[i - 1], cycles[i]) {
        if i < n { assert KeepsFiles(init[i - 1], init[i]); }
      }
    }
    if AllKeepFiles(cycles) {
      forall i | 0 < i < n ensures KeepsFiles(init[i - 1], init[i]) { assert KeepsFiles(cycles[i - 1], cycles[i]); }
    }
  }

  /** Every cycle of the run left its own snapshot for the next one. */
  ghost predicate AllReadLast(cycles: seq<Compile>, hash: string -> nat) {
    forall n :: 0 <= n <= |cycles| ==> ReadsLast(cycles[..n], hash)
  }

  lemma AllReadLastStep(cycles: seq<Compile>, hash: string -> nat)
    requires cycles != []
    ensures AllReadLast(cycles, hash) <==> (AllReadLast(cycles[..|cycles| - 1], hash) && ReadsLast(cycles, hash))
  {
    var init := cycles[..|cycles| - 1];
    forall n | 0 <= n < |cycles| ensures init[..n] == cycles[..n] {}
    assert cycles[..|cycles|] == cycles;
    if AllReadLast(cycles, hash) {
      forall n | 0 <= n <= |init| ensures ReadsLast(init[..n], hash) { assert ReadsLast(cycles[..n], hash); }
    }
    if AllReadLast(init, hash) && ReadsLast(cycles, hash) {
      forall n | 0 <= n <= |cycles| ensures ReadsLast(cycles[..n], hash) {
        if n < |cycles| { assert ReadsLast(init[..n], hash); }
      }
    }
  }

  /** While revisions do not sort backwards, every cycle reads as prior exactly the snapshot the cycle before
      computed, if and only if no file disappears between two cycles at one revision. */
  lemma {:induction false} PriorIsPreviousSnapshot(cycles: seq<Compile>, hash: string -> nat)
    requires InOrder(cycles)
    ensures AllReadLast(cycles, hash) <==> AllKeepFiles(cycles)
  {
    if cycles != [] {
      var init := cycles[..|cycles| - 1];
      PriorIsPreviousSnapshot(init, hash);
      AllReadLastStep(cycles, hash);
      AllKeepFilesStep(cycles);
      if AllReadLast(init, hash) {
        assert init[..|init|] == init && ReadsLast(init, hash);
        LastIsStoredIff(cycles, hash);
      }
    } else {
      assert cycles[..0] == [];
    }
  }

  /** Hence a score read after such a run compares the last two snapshots, except that an edge which no longer drifts
      keeps the score it had under the same revision. Compiling an unchanged graph again stores nothing: under
      a new revision every edge reads zero, under the same one all scores stay as they were. */
  lemma RunScores(cycles: seq<Compile>, g: Graph, r: Revision, hash: string -> nat, e: Edge)
    requires InOrder(cycles + [Compile(g, r)]) && AllKeepFiles(cycles) && cycles != []
    requires UniqueIds(g.edges) && e in g.edges
    ensures var last, s := cycles[|cycles| - 1], RunCycles(EMPTY, cycles, hash);
      var drift := EdgeDrift(e, SnapshotOf(last.graph, hash), SnapshotOf(g, hash), g);
      var after := RunCycles(EMPTY, cycles + [Compile(g, r)], hash);
      && ScoreOf(after, e.id) == (if drift > 0.0 then drift else if r == last.revision then ScoreOf(s, e.id) else 0.0)
      && (ScoreOf(after, e.id) == drift <==> drift > 0.0 || r > last.revision || ScoreOf(s, e.id) == 0.0)
      && (last.graph == g ==> drift == 0.0 && after.scores == if r == last.revision then s.scores else map[])
  {
    var all := cycles + [Compile(g, r)];
    var last, s := cycles[|cycles| - 1], RunCycles(EMPTY, cycles, hash);
    assert all[..|all| - 1] == cycles && all[|all| - 1] == Compile(g, r);
    assert RunCycles(EMPTY, all, hash) == Cycle(s, g, r, hash);
    InOrderSplit(cycles, Compile(g, r));
    LastStored(cycles, hash);
    ScoreAfter(s, g, last.revision, r, hash, e);
    if last.graph == g { UnchangedStoresNothing(s, g, last.revision, r, hash, e); }
  }

  /** So a changed signature is seen: the cycle after the change stores a positive score for every edge on the file. */
  lemma NewSignatureIsScored(cycles: seq<Compile>, file: FileId, id: SymbolId, signature: Option<string>, r: Revision,
                             hash: string -> nat, h: nat, e: Edge)
    requires cycles != [] && AllKeepFiles(cycles)
    requires OnlyOfItsName(cycles[|cycles| - 1].graph, file, id) && file in cycles[|cycles| - 1].graph.files
    requires HashOf(hash, cycles[|cycles| - 1].graph.symbols[id].signature, h) && !HashOf(hash, signature, h)
    requires var g := Resigned(cycles[|cycles| - 1].graph, id, signature);
      InOrder(cycles + [Compile(g, r)]) && UniqueIds(g.edges) && e in g.edges && file in Scored(e, g)
    ensures var g := Resigned(cycles[|cycles| - 1].graph, id, signature);
      ScoreOf(RunCycles(EMPTY, cycles + [Compile(g, r)], hash), e.id) > 0.0
  {
    var last := cycles[|cycles| - 1].graph;
    NewSignatureDrifts(last, file, id, signature, hash, h, e);
    RunScores(cycles, Resigned(last, id, signature), r, hash, e);
  }

  lemma InOrderSplit(cycles: seq<Compile>, next: Compile)
    requires InOrder(cycles + [next]) && cycles != []
    ensures InOrder(cycles) && cycles[|cycles| - 1].revision <= next.revision
  {
    var all := cycles + [next];
    assert all[|cycles| - 1].revision <= all[|cycles|].revision;
    forall i, j | 0 <= i < j < |cycles| ensures cycles[i].revision <= cycles[j].revision {
      assert all[i].revision <= all[j].revision;
    }
  }

  lemma LastStored(cycles: seq<Compile>, hash: string -> nat)
    requires InOrder(cycles) && AllKeepFiles(cycles) && cycles != []
    ensures ReadsLast(cycles, hash) && UpToDate(RunCycles(EMPTY, cycles, hash), cycles)
  {
    PriorIsPreviousSnapshot(cycles, hash);
    assert cycles[..|cycles|] == cycles;
    InOrderUpToDate(cycles, hash);
  }

  /** A write over a table with at most one revision, none newer. */
  lemma ReadAfterInOrder<K, V>(t: Table<K, V>, newest: Revision, r: Revision, rows: map<K, V>)
    requires NoEmptyRows(t) && newest <= r && forall q :: q in t ==> q == newest
    ensures Read(Upsert(t, r, rows)) == (if r == newest then Read(t) else map[]) + rows
  {
    ReadAfter(t, r, rows);
    var none: map<K, V> := map[];
    assert none + rows == rows;
    if newest in t { ReadAt(t, newest); } else { assert t == map[]; }
  }

  /** The score read after one cycle over tables that hold nothing newer. */
  lemma ScoreAfter(s: Store, g: Graph, newest: Revision, r: Revision, hash: string -> nat, e: Edge)
    requires WellFormed(s) && UniqueIds(g.edges) && e in g.edges
    requires newest <= r && forall q :: q in s.scores ==> q == newest
    requires PositiveScores(s)
    ensures Computed(s, g, hash, e) >= 0.0 && ScoreOf(s, e.id) >= 0.0
    ensures ScoreOf(Cycle(s, g, r, hash), e.id)
      == if Computed(s, g, hash, e) > 0.0 then Computed(s, g, hash, e)
         else if r == newest then ScoreOf(s, e.id) else 0.0
  {
    var prior, current := Read(s.fingerprints), SnapshotOf(g, hash);
    var sparse := Sparse(g.edges, prior, current, g);
    SparseHolds(g.edges, prior, current, g);
    EdgeBounds(e, prior, current, g);
    ReadAfterInOrder(s.scores, newest, r, sparse);
  }

  /** An unchanged graph. */
  lemma UnchangedStoresNothing(s: Store, g: Graph, newest: Revision, r: Revision, hash: string -> nat, e: Edge)
    requires UniqueIds(g.edges) && e in g.edges && Read(s.fingerprints) == SnapshotOf(g, hash)
    requires newest <= r && forall q :: q in s.scores ==> q == newest
    ensures Computed(s, g, hash, e) == 0.0
    ensures Cycle(s, g, r, hash).scores == if r == newest then s.scores else map[]
  {
    var now := SnapshotOf(g, hash);
    SparseHolds(g.edges, now, now, g);
    forall d | d in g.edges ensures EdgeDrift(d, now, now, g) == 0.0 { EdgeBounds(d, now, now, g); }
    assert Sparse(g.edges, now, now, g) == map[];
  }

  /** A stored revision that sorts above every later one is never displaced: all later cycles keep comparing with its
      fingerprints, and all later readers see its scores. */
  lemma {:induction false} NewerRowsFreezeTheReader(s: Store, top: Revision, cycles: seq<Compile>, hash: string -> nat)
    requires WellFormed(s)
    requires forall i :: 0 <= i < |cycles| ==> cycles[i].revision < top
    ensures WellFormed(RunCycles(s, cycles, hash))
    ensures top in s.fingerprints ==>
      top in RunCycles(s, cycles, hash).fingerprints
      && Read(RunCycles(s, cycles, hash).fingerprints) == Read(s.fingerprints)
    ensures top in s.scores ==>
      top in RunCycles(s, cycles, hash).scores && Read(RunCycles(s, cycles, hash).scores) == Read(s.scores)
  {
    if cycles != [] {
      var init, last := cycles[..|cycles| - 1], cycles[|cycles| - 1];
      NewerRowsFreezeTheReader(s, top, init, hash);
      var mid := RunCycles(s, init, hash);
      var current := SnapshotOf(last.graph, hash);
      var sparse := Sparse(last.graph.edges, Read(mid.fingerprints), current, last.graph);
      ReadAfter(mid.fingerprints, last.revision, current);
      ReadAfter(mid.scores, last.revision, sparse);
      UpsertKeepsRows(mid.fingerprints, last.revision, current);
      UpsertKeepsRows(mid.scores, last.revision, sparse);
    }
  }

  /** Such a revision exists: a repository without a commit has the revision "unknown", which sorts above every object
      ID. Rows stored under it are compared with, and read, through any later run of commits. `rank` numbers the
      revisions in their order. */
  lemma UnbornHeadFreezesTheReader(s: Store, rank: string -> Revision, ids: seq<string>, cycles: seq<Compile>,
                                   hash: string -> nat)
    requires WellFormed(s) && |ids| == |cycles|
    requires forall i :: 0 <= i < |ids| ==> IsLowerHex(ids[i]) && cycles[i].revision == rank(ids[i])
    requires forall i :: 0 <= i < |ids| && Less(ids[i], "unknown") ==> rank(ids[i]) < rank("unknown")
    ensures rank("unknown") in s.fingerprints ==>
      Read(RunCycles(s, cycles, hash).fingerprints) == Read(s.fingerprints)
    ensures rank("unknown") in s.scores ==> Read(RunCycles(s, cycles, hash).scores) == Read(s.scores)
  {
    forall i | 0 <= i < |cycles| ensures cycles[i].revision < rank("unknown") { UnknownSortsLast(ids[i]); }
    NewerRowsFreezeTheReader(s, rank("unknown"), cycles, hash);
  }
}
