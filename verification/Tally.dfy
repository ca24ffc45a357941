/** Counter maps: the `BTreeMap<String, u64>` fields of the context metrics.
    A missing key reads as zero, but a key stored with value zero is still a key. */
module Tally {

  type Tally = map<string, nat>
  type Nested = map<string, Tally>

  function Get(m: Tally, k: string): nat {
    if k in m then m[k] else 0
  }

  function Row(m: Nested, k: string): Tally {
    if k in m then m[k] else map[]
  }

  /** `*m.entry(k).or_default() += n` */
  function Bump(m: Tally, k: string, n: nat): Tally {
    m[k := Get(m, k) + n]
  }

  /** `*m.entry(outer).or_default().entry(inner).or_default() += n` */
  function BumpNested(m: Nested, outer: string, inner: string, n: nat): Nested {
    m[outer := Bump(Row(m, outer), inner, n)]
  }

  function Merged(a: Tally, b: Tally): Tally {
    map k | k in a.Keys + b.Keys :: Get(a, k) + Get(b, k)
  }

  function MergedNested(a: Nested, b: Nested): Nested {
    map k | k in a.Keys + b.Keys :: Merged(Row(a, k), Row(b, k))
  }

  ghost predicate Leq(a: Tally, b: Tally) {
    forall k :: k in a ==> k in b && a[k] <= b[k]
  }

  ghost predicate LeqNested(a: Nested, b: Nested) {
    forall k :: k in a ==> k in b && Leq(a[k], b[k])
  }

  /** Sum of all counters. */
  ghost function Total(m: Tally): nat {
    if m == map[] then 0
    else
      var k :| k in m;
      m[k] + Total(m - {k})
  }

  /** `merge_map`: one pass over the delta, adding each counter into the target. */
  method MergeMap(target: Tally, delta: Tally) returns (r: Tally)
    ensures r == Merged(target, delta)
  {
    r := target;
    var todo := delta.Keys;
    while todo != {}
      invariant todo <= delta.Keys
      invariant r == Merged(target, delta - todo)
    {
      var k :| k in todo;
      ghost var done := delta - todo;
      r := Bump(r, k, delta[k]);
      todo := todo - {k};
      BumpOnce(target, done, k, delta[k]);
      assert delta - todo == done[k := delta[k]];
    }
    assert delta - todo == delta;
  }

  /** `merge_nested_map`: `merge_map` for each outer key of the delta. */
  method MergeNestedMap(target: Nested, delta: Nested) returns (r: Nested)
    ensures r == MergedNested(target, delta)
  {
    r := target;
    var todo := delta.Keys;
    while todo != {}
      invariant todo <= delta.Keys
      invariant r.Keys == target.Keys + (delta.Keys - todo)
      invariant forall k :: k in r ==>
        r[k] == if k in todo then Row(target, k) else Merged(Row(target, k), Row(delta, k))
    {
      var k :| k in todo;
      var row := MergeMap(Row(r, k), delta[k]);
      r := r[k := row];
      todo := todo - {k};
    }
  }

  lemma BumpOnce(target: Tally, done: Tally, k: string, n: nat)
    requires k !in done
    ensures Bump(Merged(target, done), k, n) == Merged(target, done[k := n])
  {}

  lemma MergedUnit(a: Tally)
    ensures Merged(a, map[]) == a
  {}

  lemma MergedCommutes(a: Tally, b: Tally)
    ensures Merged(a, b) == Merged(b, a)
  {}

  lemma MergedAssociates(a: Tally, b: Tally, c: Tally)
    ensures Merged(Merged(a, b), c) == Merged(a, Merged(b, c))
  {
    forall k ensures Get(Merged(Merged(a, b), c), k) == Get(Merged(a, Merged(b, c)), k) {
      AssociatesAt(a, b, c, k);
    }
    SameCounters(Merged(Merged(a, b), c), Merged(a, Merged(b, c)));
  }

  lemma AssociatesAt(a: Tally, b: Tally, c: Tally, k: string)
    ensures Get(Merged(Merged(a, b), c), k) == Get(Merged(a, Merged(b, c)), k)
  {
    GetMerged(Merged(a, b), c, k);
    GetMerged(a, b, k);
    GetMerged(a, Merged(b, c), k);
    GetMerged(b, c, k);
  }

  lemma GetMerged(a: Tally, b: Tally, k: string)
    ensures Get(Merged(a, b), k) == Get(a, k) + Get(b, k)
    ensures Merged(a, b).Keys == a.Keys + b.Keys
  {}

  lemma SameCounters(a: Tally, b: Tally)
    requires a.Keys == b.Keys && forall k :: Get(a, k) == Get(b, k)
    ensures a == b
  {
    forall k | k in a ensures a[k] == b[k] { assert Get(a, k) == Get(b, k); }
  }

  lemma RowMerged(a: Nested, b: Nested, k: string)
    ensures Row(MergedNested(a, b), k) == Merged(Row(a, k), Row(b, k))
  {}

  lemma SameRows(a: Nested, b: Nested)
    requires a.Keys == b.Keys && forall k :: Row(a, k) == Row(b, k)
    ensures a == b
  {
    forall k | k in a ensures a[k] == b[k] { assert Row(a, k) == Row(b, k); }
  }

  lemma NestedUnit(a: Nested)
    ensures MergedNested(a, map[]) == a
  {
    forall k ensures Row(MergedNested(a, map[]), k) == Row(a, k) {
      MergedUnit(Row(a, k));
    }
    SameRows(MergedNested(a, map[]), a);
  }

  lemma NestedCommutes(a: Nested, b: Nested)
    ensures MergedNested(a, b) == MergedNested(b, a)
  {
    forall k ensures Row(MergedNested(a, b), k) == Row(MergedNested(b, a), k)
    {
      MergedCommutes(Row(a, k), Row(b, k));
    }
    SameRows(MergedNested(a, b), MergedNested(b, a));
  }

  lemma NestedAssociates(a: Nested, b: Nested, c: Nested)
    ensures MergedNested(MergedNested(a, b), c) == MergedNested(a, MergedNested(b, c))
  {
    forall k { NestedAssociatesAt(a, b, c, k); }
    SameRows(MergedNested(MergedNested(a, b), c), MergedNested(a, MergedNested(b, c)));
  }

  lemma NestedAssociatesAt(a: Nested, b: Nested, c: Nested, k: string)
    ensures Row(MergedNested(MergedNested(a, b), c), k) == Row(MergedNested(a, MergedNested(b, c)), k)
  {
    RowMerged(MergedNested(a, b), c, k);
    RowMerged(a, b, k);
    RowMerged(a, MergedNested(b, c), k);
    RowMerged(b, c, k);
    MergedAssociates(Row(a, k), Row(b, k), Row(c, k));
  }

  lemma NestedGrows(a: Nested, b: Nested)
    ensures LeqNested(a, MergedNested(a, b))
  {
    forall k | k in a ensures Leq(a[k], MergedNested(a, b)[k]) {
      assert Row(a, k) == a[k];
    }
  }

  /** Bumping a merged tally is merging with the bumped one. */
  lemma BumpThroughMerge(a: Tally, b: Tally, k: string, n: nat)
    ensures Bump(Merged(a, b), k, n) == Merged(a, Bump(b, k, n))
  {}

  lemma RowBumped(m: Nested, o: string, i: string, n: nat, k: string)
    ensures Row(BumpNested(m, o, i, n), k) == if k == o then Bump(Row(m, o), i, n) else Row(m, k)
  {}

  lemma BumpNestedThroughMerge(a: Nested, b: Nested, o: string, i: string, n: nat)
    ensures BumpNested(MergedNested(a, b), o, i, n) == MergedNested(a, BumpNested(b, o, i, n))
  {
    var l, r := BumpNested(MergedNested(a, b), o, i, n), MergedNested(a, BumpNested(b, o, i, n));
    BumpThroughMerge(Row(a, o), Row(b, o), i, n);
    forall k ensures Row(l, k) == Row(r, k) {
      RowMerged(a, b, k);
      RowMerged(a, BumpNested(b, o, i, n), k);
      RowBumped(b, o, i, n, k);
      RowBumped(MergedNested(a, b), o, i, n, k);
    }
    SameRows(l, r);
  }

  /** The sum does not depend on the order in which keys are visited. */
  lemma {:induction false} TotalPick(m: Tally, k: string)
    requires k in m
    ensures Total(m) == m[k] + Total(m - {k})
  {
    var p :| p in m && Total(m) == m[p] + Total(m - {p});
    if p != k {
      TotalPick(m - {p}, k);
      TotalPick(m - {k}, p);
      assert m - {p} - {k} == m - {k} - {p};
    }
  }

  lemma TotalBump(m: Tally, k: string, n: nat)
    ensures Total(Bump(m, k, n)) == Total(m) + n
  {
    var b := Bump(m, k, n);
    TotalPick(b, k);
    assert b - {k} == m - {k};
    if k in m { TotalPick(m, k); } else { assert m - {k} == m; }
  }

  lemma {:induction false} TotalMerged(a: Tally, b: Tally)
    ensures Total(Merged(a, b)) == Total(a) + Total(b)
    decreases |b|
  {
    if b == map[] {
      MergedUnit(a);
    } else {
      var k :| k in b;
      TotalPick(b, k);
      TotalMerged(a, b - {k});
      assert b == Bump(b - {k}, k, b[k]);
      BumpThroughMerge(a, b - {k}, k, b[k]);
      TotalBump(Merged(a, b - {k}), k, b[k]);
    }
  }
}
