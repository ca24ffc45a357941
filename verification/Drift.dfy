/** Structural drift: Jaccard distance over fingerprint sets, lifted to files that may be absent and
    to edges of a graph, in exact arithmetic. */
module Drift {
  import opened Options

  type Entry = (string, nat)

  /** The (qualified name, signature hash) pairs of a file's symbols. */
  type Fingerprint = set<Entry>

  type FileId = nat
  type SymbolId = nat
  type EdgeId = nat

  type Snapshot = map<FileId, Fingerprint>

  function JaccardDistance(a: Fingerprint, b: Fingerprint): real {
    if a == {} && b == {} then 0.0
    else if a == {} || b == {} then 1.0
    else 1.0 - |a * b| as real / |a + b| as real
  }

  // ---- the distance is a metric ----

  /** Elements in exactly one of the two sets. */
  function Differ(a: Fingerprint, b: Fingerprint): Fingerprint {
    (a - b) + (b - a)
  }

  lemma Sizes(a: Fingerprint, b: Fingerprint)
    ensures |a + b| == |a * b| + |Differ(a, b)|
    ensures 2 * |a + b| == |a| + |b| + |Differ(a, b)|
  {
    assert a + b == (a * b) + Differ(a, b);
    assert (a * b) !! Differ(a, b) && (a - b) !! (b - a);
    assert a == (a - b) + (a * b) && b == (b - a) + (a * b);
  }

  lemma SubsetSize(a: Fingerprint, b: Fingerprint)
    requires a <= b
    ensures |a| <= |b|
  {
    assert b == a + (b - a);
  }

  /** Away from two empty sets, the distance is the size of the difference over the size of the union. */
  lemma DistanceIsDifference(a: Fingerprint, b: Fingerprint)
    requires a + b != {}
    ensures |a + b| > 0 && JaccardDistance(a, b) == |Differ(a, b)| as real / |a + b| as real
  {
    Sizes(a, b);
    var x :| x in a + b;
    SubsetSize({x}, a + b);
    OneMinus(|a * b| as real, |Differ(a, b)| as real, |a + b| as real);
    if a == {} || b == {} {
      assert a * b == {};
    }
  }

  lemma OneMinus(i: real, d: real, u: real)
    requires i + d == u && u > 0.0
    ensures 1.0 - i / u == d / u
    ensures i == 0.0 ==> d / u == 1.0
  {
    SumOver(i, d, u);
    assert u / u == 1.0;
  }

  lemma SumOver(p: real, q: real, w: real)
    requires w > 0.0
    ensures (p + q) / w == p / w + q / w
  {}

  lemma DistanceBounds(a: Fingerprint, b: Fingerprint)
    ensures 0.0 <= JaccardDistance(a, b) <= 1.0
    ensures JaccardDistance(a, b) == 0.0 <==> a == b
    ensures JaccardDistance(a, b) == 1.0 <==> a * b == {} && a + b != {}
    ensures JaccardDistance(a, b) == JaccardDistance(b, a)
  {
    if a + b != {} {
      DistanceIsDifference(a, b);
      DistanceIsDifference(b, a);
      Sizes(a, b);
      assert a + b == b + a && Differ(a, b) == Differ(b, a);
      var u, d := |a + b| as real, |Differ(a, b)| as real;
      assert 0.0 <= d <= u;
      DivBounds(d, u);
      assert d == 0.0 <==> Differ(a, b) == {};
      assert d == u <==> |a * b| == 0;
      if a != b {
        var x :| x in Differ(a, b);
      }
    }
  }

  lemma DivBounds(d: real, u: real)
    requires 0.0 <= d <= u && 0.0 < u
    ensures 0.0 <= d / u <= 1.0 && (d / u == 0.0 <==> d == 0.0) && (d / u == 1.0 <==> d == u)
  {
    assert d / u * u == d;
  }

  lemma DifferTriangle(a: Fingerprint, b: Fingerprint, c: Fingerprint)
    ensures |Differ(a, c)| <= |Differ(a, b)| + |Differ(b, c)|
    ensures |b| <= |c| + |Differ(b, c)| && |b| <= |a| + |Differ(a, b)|
  {
    SubsetSize(Differ(a, c), Differ(a, b) + Differ(b, c));
    UnionSize(Differ(a, b), Differ(b, c));
    SubsetSize(b, c + Differ(b, c));
    UnionSize(c, Differ(b, c));
    SubsetSize(b, a + Differ(a, b));
    UnionSize(a, Differ(a, b));
  }

  lemma UnionSize(a: Fingerprint, b: Fingerprint)
    ensures |a + b| <= |a| + |b|
  {
    assert a + b == a + (b - a);
    SubsetSize(b - a, b);
  }

  /** A fraction below one grows when the same amount is added above and below. */
  lemma FractionGrows(p: real, q: real, more: real)
    requires 0.0 <= p <= q && 0.0 < q && 0.0 <= more
    ensures p / q <= (p + more) / (q + more)
  {
    CrossLe(p, q, p + more, q + more);
  }

  lemma NonNegativeFactor(a: real, k: real)
    requires k > 0.0 && a * k >= 0.0
    ensures a >= 0.0
  {}

  lemma CrossLe(p: real, q: real, r: real, s: real)
    requires 0.0 < q && 0.0 < s && p * s <= r * q
    ensures p / q <= r / s
  {
    var x, y := p / q, r / s;
    assert x * q == p && y * s == r;
    assert (y - x) * (q * s) == r * q - p * s;
    NonNegativeFactor(y - x, q * s);
  }

  lemma FractionShrinks(p: real, q: real, bigger: real)
    requires 0.0 <= p && 0.0 < q <= bigger
    ensures p / bigger <= p / q
  {
    CrossLe(p, bigger, p, q);
  }

  /** `2u/(a+b+u)` and `2v/(b+c+v)` together cover `2t/(a+c+t)` whenever `t <= u + v`. */
  lemma FractionTriangle(a: real, b: real, c: real, t: real, u: real, v: real)
    requires 0.0 <= a && 0.0 <= b && 0.0 <= c && 0.0 <= u && 0.0 <= v && 0.0 <= t <= u + v
    requires b <= c + v && b <= a + u
    requires 0.0 < a + c + t && 0.0 < a + b + u && 0.0 < b + c + v
    ensures t / (a + c + t) <= u / (a + b + u) + v / (b + c + v)
  {
    var whole := a + c + u + v;
    FractionGrows(t, a + c + t, u + v - t);
    FractionShrinks(u, a + b + u, whole);
    FractionShrinks(v, b + c + v, whole);
    SumOver(u, v, whole);
  }

  lemma Halve(d: real, n: real, u: real)
    requires u > 0.0 && 2.0 * u == n
    ensures d / u == 2.0 * (d / n)
  {
    assert d / u * u == d && d / n * n == d;
    assert 2.0 * (d / n) * u == d;
    NonNegativeFactor(d / u - 2.0 * (d / n), u);
    NonNegativeFactor(2.0 * (d / n) - d / u, u);
  }

  lemma DistanceBySizes(a: Fingerprint, b: Fingerprint)
    requires a + b != {}
    ensures |a| + |b| + |Differ(a, b)| > 0
    ensures JaccardDistance(a, b) == 2.0 * (|Differ(a, b)| as real / (|a| + |b| + |Differ(a, b)|) as real)
  {
    DistanceIsDifference(a, b);
    Sizes(a, b);
    Halve(|Differ(a, b)| as real, (|a| + |b| + |Differ(a, b)|) as real, |a + b| as real);
  }

  /** The distances of three pairs, given by the sizes of the sets and of their differences. */
  lemma TriangleOfSizes(a: nat, b: nat, c: nat, ac: nat, ab: nat, bc: nat)
    requires ac <= ab + bc && b <= c + bc && b <= a + ab
    requires 0 < a + c + ac && 0 < a + b + ab && 0 < b + c + bc
    ensures 2.0 * (ac as real / (a + c + ac) as real)
      <= 2.0 * (ab as real / (a + b + ab) as real) + 2.0 * (bc as real / (b + c + bc) as real)
  {
    FractionTriangle(a as real, b as real, c as real, ac as real, ab as real, bc as real);
  }

  lemma TriangleNonEmpty(a: Fingerprint, b: Fingerprint, c: Fingerprint)
    requires a + c != {} && a + b != {} && b + c != {}
    ensures JaccardDistance(a, c) <= JaccardDistance(a, b) + JaccardDistance(b, c)
  {
    DistanceBySizes(a, b);
    DistanceBySizes(b, c);
    DistanceBySizes(a, c);
    DifferTriangle(a, b, c);
    TriangleOfSizes(|a|, |b|, |c|, |Differ(a, c)|, |Differ(a, b)|, |Differ(b, c)|);
  }

  lemma DistanceTriangle(a: Fingerprint, b: Fingerprint, c: Fingerprint)
    ensures JaccardDistance(a, c) <= JaccardDistance(a, b) + JaccardDistance(b, c)
  {
    DistanceBounds(a, b);
    DistanceBounds(b, c);
    if a + c == {} || a + b == {} || b + c == {} {
      // Two of the sets are both empty, so two of the distances agree.
    } else {
      TriangleNonEmpty(a, b, c);
    }
  }

  // ---- one endpoint between two snapshots ----

  function EndpointDrift(file: FileId, prior: Snapshot, current: Snapshot): real {
    if file !in prior then 0.0
    else if file !in current then 1.0
    else JaccardDistance(prior[file], current[file])
  }

  /** No drift exactly when the file is new or has the same fingerprint; full drift exactly when it is gone
      or shares nothing with what it was. */
  lemma EndpointBounds(file: FileId, prior: Snapshot, current: Snapshot)
    ensures 0.0 <= EndpointDrift(file, prior, current) <= 1.0
    ensures EndpointDrift(file, prior, current) == 0.0
      <==> file !in prior || (file in current && prior[file] == current[file])
    ensures EndpointDrift(file, prior, current) == 1.0
      <==> file in prior && (file in current ==> prior[file] * current[file] == {} && prior[file] + current[file] != {})
  {
    if file in prior && file in current { DistanceBounds(prior[file], current[file]); }
  }

  lemma EndpointTriangle(file: FileId, s1: Snapshot, s2: Snapshot, s3: Snapshot)
    ensures EndpointDrift(file, s1, s3) <= EndpointDrift(file, s1, s2) + EndpointDrift(file, s2, s3)
  {
    EndpointBounds(file, s1, s3);
    EndpointBounds(file, s1, s2);
    EndpointBounds(file, s2, s3);
    if file in s1 && file in s2 && file in s3 { DistanceTriangle(s1[file], s2[file], s3[file]); }
  }

  // ---- edges ----

  datatype NodeId = File(file: FileId) | Symbol(symbol: SymbolId) | Concept(concept: nat)

  datatype SymbolNode = SymbolNode(fileId: FileId, qualifiedName: string, signature: Option<string>)

  datatype Edge = Edge(id: EdgeId, from: NodeId, to: NodeId, defines: bool)

  datatype Graph = Graph(files: seq<FileId>, symbols: map<SymbolId, SymbolNode>, edges: seq<Edge>)

  function FileOf(n: NodeId, g: Graph): Option<FileId> {
    match n
    case File(id) => Some(id)
    case Symbol(id) => if id in g.symbols then Some(g.symbols[id].fileId) else None
    case Concept(_) => None
  }

  function EdgeDrift(e: Edge, prior: Snapshot, current: Snapshot, g: Graph): real {
    var from, to := FileOf(e.from, g), FileOf(e.to, g);
    if e.defines && from.Some? && from == to then 0.0
    else match (from, to)
      case (None, None) => 0.0
      case (Some(f), None) => EndpointDrift(f, prior, current)
      case (None, Some(t)) => EndpointDrift(t, prior, current)
      case (Some(f), Some(t)) => (EndpointDrift(f, prior, current) + EndpointDrift(t, prior, current)) / 2.0
  }

  /** The files an edge is scored on. */
  function Scored(e: Edge, g: Graph): set<FileId> {
    var from, to := FileOf(e.from, g), FileOf(e.to, g);
    if e.defines && from.Some? && from == to then {}
    else (if from.Some? then {from.value} else {}) + (if to.Some? then {to.value} else {})
  }

  lemma EdgeBounds(e: Edge, prior: Snapshot, current: Snapshot, g: Graph)
    ensures 0.0 <= EdgeDrift(e, prior, current, g) <= 1.0
    ensures EdgeDrift(e, prior, current, g) == 0.0 <==>
      forall f :: f in Scored(e, g) ==> f !in prior || (f in current && prior[f] == current[f])
  {
    var from, to := FileOf(e.from, g), FileOf(e.to, g);
    if from.Some? { EndpointBounds(from.value, prior, current); }
    if to.Some? { EndpointBounds(to.value, prior, current); }
  }

  /** For a fixed graph the edge score obeys the triangle inequality over any three snapshots. */
  lemma EdgeTriangle(e: Edge, s1: Snapshot, s2: Snapshot, s3: Snapshot, g: Graph)
    ensures EdgeDrift(e, s1, s3, g) <= EdgeDrift(e, s1, s2, g) + EdgeDrift(e, s2, s3, g)
  {
    var from, to := FileOf(e.from, g), FileOf(e.to, g);
    if from.Some? { EndpointTriangle(from.value, s1, s2, s3); }
    if to.Some? { EndpointTriangle(to.value, s1, s2, s3); }
  }

  /** The score is symmetric between snapshots that hold the same files (an added file scores 0, a deleted one 1). */
  lemma EdgeSymmetry(e: Edge, s: Snapshot, t: Snapshot, g: Graph)
    requires forall f :: f in Scored(e, g) ==> (f in s <==> f in t)
    ensures EdgeDrift(e, s, t, g) == EdgeDrift(e, t, s, g)
  {
    forall f | f in Scored(e, g) ensures EndpointDrift(f, s, t) == EndpointDrift(f, t, s) {
      if f in s { DistanceBounds(s[f], t[f]); }
    }
  }

  // ---- the score in terms of the two endpoints ----

  /** A file in both snapshots scores the part of all its entries, old and new, that were added or removed. */
  lemma EndpointCounts(file: FileId, prior: Snapshot, current: Snapshot)
    requires file in prior && file in current
    ensures var a, b := prior[file], current[file];
      EndpointDrift(file, prior, current) * |a + b| as real == (|a - b| + |b - a|) as real
  {
    var a, b := prior[file], current[file];
    if a + b != {} {
      DistanceIsDifference(a, b);
      assert |Differ(a, b)| == |a - b| + |b - a|;
    }
  }

  /** Two files: the mean, unless the edge defines one inside the other itself. */
  lemma MeanOfTwo(e: Edge, f: FileId, t: FileId, prior: Snapshot, current: Snapshot, g: Graph)
    requires e.from == File(f) && e.to == File(t)
    ensures 2.0 * EdgeDrift(e, prior, current, g)
      == if e.defines && f == t then 0.0 else EndpointDrift(f, prior, current) + EndpointDrift(t, prior, current)
  {}

  /** A node that belongs to no file: a concept, or a symbol that is not stored. */
  predicate Loose(n: NodeId, g: Graph) {
    n.Concept? || (n.Symbol? && n.symbol !in g.symbols)
  }

  /** An end without a file does not count, and without any file there is no score. */
  lemma LooseEnds(e: Edge, f: FileId, prior: Snapshot, current: Snapshot, g: Graph)
    ensures e.from == File(f) && Loose(e.to, g) ==> EdgeDrift(e, prior, current, g) == EndpointDrift(f, prior, current)
    ensures Loose(e.from, g) && e.to == File(f) ==> EdgeDrift(e, prior, current, g) == EndpointDrift(f, prior, current)
    ensures Loose(e.from, g) && Loose(e.to, g) ==> EdgeDrift(e, prior, current, g) == 0.0
  {}

  /** A stored symbol stands for the file it belongs to, at either end. */
  lemma SymbolIsItsFile(e: Edge, id: SymbolId, prior: Snapshot, current: Snapshot, g: Graph)
    requires id in g.symbols
    ensures var file := File(g.symbols[id].fileId);
      && EdgeDrift(e.(from := Symbol(id)), prior, current, g) == EdgeDrift(e.(from := file), prior, current, g)
      && EdgeDrift(e.(to := Symbol(id)), prior, current, g) == EdgeDrift(e.(to := file), prior, current, g)
  {}
}
