/** Commutative monoids given by a unit and a merge.
    `Below` is the part-of order: one value is below another if merging something into it gives the other.
    `Fold` merges the values of a finite map, in any order, and `MergeSeq` those of a sequence; the lemmas say what
    setting one value, adding to one value, and putting one value in front do to the result. */
module Monoids {
  datatype Monoid<!T> = Monoid(zero: T, merge: (T, T) -> T)

  predicate Args<T>(a: T, b: T, c: T) { true }

  ghost predicate Lawful<T(!new)>(m: Monoid<T>) {
    forall a: T, b: T, c: T {:trigger Args(a, b, c)} :: Args(a, b, c) ==>
      && m.merge(a, m.zero) == a
      && m.merge(a, b) == m.merge(b, a)
      && m.merge(m.merge(a, b), c) == m.merge(a, m.merge(b, c))
  }

  lemma Laws<T(!new)>(m: Monoid<T>, a: T, b: T, c: T)
    requires Lawful(m)
    ensures m.merge(a, m.zero) == a == m.merge(m.zero, a)
    ensures m.merge(a, b) == m.merge(b, a)
    ensures m.merge(m.merge(a, b), c) == m.merge(a, m.merge(b, c)) == m.merge(m.merge(a, c), b)
  {
    assert Args(a, b, c) && Args(a, c, b) && Args(b, c, a) && Args(m.zero, a, b);
  }

  /** `a` is part of `b`. */
  ghost predicate Below<T(!new)>(m: Monoid<T>, a: T, b: T) {
    exists rest :: m.merge(a, rest) == b
  }

  lemma BelowTransitive<T(!new)>(m: Monoid<T>, a: T, b: T, c: T)
    requires Lawful(m) && Below(m, a, b) && Below(m, b, c)
    ensures Below(m, a, c)
  {
    var x :| m.merge(a, x) == b;
    var y :| m.merge(b, y) == c;
    Laws(m, a, x, y);
  }

  lemma BelowMonotone<T(!new)>(m: Monoid<T>, a: T, b: T, c: T)
    requires Lawful(m) && Below(m, a, b)
    ensures Below(m, m.merge(a, c), m.merge(b, c))
  {
    var x :| m.merge(a, x) == b;
    Laws(m, a, x, c);
  }

  // ---- merging a finite family ----

  ghost function Fold<T(!new)>(m: Monoid<T>, f: map<nat, T>): T {
    if f == map[] then m.zero
    else
      var p :| p in f;
      m.merge(f[p], Fold(m, f - {p}))
  }

  lemma {:induction false} FoldPick<T(!new)>(m: Monoid<T>, f: map<nat, T>, p: nat)
    requires Lawful(m) && p in f
    ensures Fold(m, f) == m.merge(f[p], Fold(m, f - {p}))
    decreases |f|
  {
    var q :| q in f && Fold(m, f) == m.merge(f[q], Fold(m, f - {q}));
    if q != p {
      FoldPick(m, f - {q}, p);
      FoldPick(m, f - {p}, q);
      assert f - {q} - {p} == f - {p} - {q};
      var rest := Fold(m, f - {q} - {p});
      Laws(m, f[q], f[p], rest);
      Laws(m, f[p], f[q], rest);
    }
  }

  /** Setting one member, present before or not. */
  lemma FoldSet<T(!new)>(m: Monoid<T>, f: map<nat, T>, p: nat, x: T)
    requires Lawful(m)
    ensures Fold(m, f[p := x]) == m.merge(x, Fold(m, f - {p}))
  {
    FoldPick(m, f[p := x], p);
    assert f[p := x] - {p} == f - {p};
  }

  lemma FoldAdd<T(!new)>(m: Monoid<T>, f: map<nat, T>, p: nat, x: T)
    requires Lawful(m) && p in f
    ensures Fold(m, f[p := m.merge(f[p], x)]) == m.merge(Fold(m, f), x)
  {
    FoldSet(m, f, p, m.merge(f[p], x));
    FoldPick(m, f, p);
    Laws(m, f[p], x, Fold(m, f - {p}));
  }

  ghost function MergeSeq<T(!new)>(m: Monoid<T>, xs: seq<T>): T {
    if xs == [] then m.zero else m.merge(MergeSeq(m, xs[..|xs| - 1]), xs[|xs| - 1])
  }

  lemma {:induction false} MergeSeqCons<T(!new)>(m: Monoid<T>, x: T, xs: seq<T>)
    requires Lawful(m)
    ensures MergeSeq(m, [x] + xs) == m.merge(x, MergeSeq(m, xs))
  {
    if xs == [] {
      assert [x] + xs == [] + [x];
      Laws(m, x, m.zero, m.zero);
    } else {
      var init, last := xs[..|xs| - 1], xs[|xs| - 1];
      assert [x] + xs == ([x] + init) + [last];
      MergeSeqCons(m, x, init);
      Laws(m, x, MergeSeq(m, init), last);
    }
  }
}
