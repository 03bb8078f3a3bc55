/** The shapes shared by the Spring Data repository queries: a `WHERE` filter that keeps table
    order, a `COUNT`, and a finder declared to return an `Optional`, which yields nothing, one
    row, or fails when several rows match. */
module Query {

  /** The rows of xs that satisfy p, in table order. */
  function Filter<T(==,!new)>(xs: seq<T>, p: T -> bool): (r: seq<T>)
    ensures |r| <= |xs|
    ensures forall x :: x in r ==> x in xs && p(x)
    ensures forall x :: x in xs && p(x) ==> x in r
    ensures forall x :: multiset(r)[x] == if p(x) then multiset(xs)[x] else 0
    ensures Subsequence(r, xs)
  {
    if xs == [] then []
    else
      var rest := Filter(xs[1..], p);
      assert xs == [xs[0]] + xs[1..];
      if p(xs[0]) then [xs[0]] + rest else rest
  }

  /** a is obtained from b by deleting elements: the order of b is kept. */
  predicate Subsequence<T(==)>(a: seq<T>, b: seq<T>)
    decreases |b|
  {
    if a == [] then true
    else if b == [] then false
    else if a[0] == b[0] then Subsequence(a[1..], b[1..])
    else Subsequence(a, b[1..])
  }

  /** r lists exactly the rows of xs that satisfy p, each as often as xs holds it, in the
      order of xs: what a `SELECT ... WHERE p` returns. */
  ghost predicate Selects<T(!new)>(r: seq<T>, xs: seq<T>, p: T -> bool) {
    Subsequence(r, xs) && SelectsInAnyOrder(r, xs, p)
  }

  /** r holds exactly the rows of xs that satisfy p, each as often as xs does, in any order. */
  ghost predicate SelectsInAnyOrder<T(!new)>(r: seq<T>, xs: seq<T>, p: T -> bool) {
    forall x :: multiset(r)[x] == if p(x) then multiset(xs)[x] else 0
  }

  /** A subsequence holds no element more often than the sequence it is taken from. */
  lemma {:induction false} SubsequenceMultiset<T>(a: seq<T>, b: seq<T>)
    requires Subsequence(a, b)
    ensures multiset(a) <= multiset(b)
    decreases |b|
  {
    if a != [] {
      assert b == [b[0]] + b[1..];
      if a[0] == b[0] {
        assert a == [a[0]] + a[1..];
        SubsequenceMultiset(a[1..], b[1..]);
      } else {
        SubsequenceMultiset(a, b[1..]);
      }
    }
  }

  /** A subsequence of xs that holds xs's first element as often as xs does starts with it. */
  lemma {:induction false} SubsequenceKeepsHead<T>(r: seq<T>, xs: seq<T>)
    requires Subsequence(r, xs) && xs != []
    ensures multiset(r)[xs[0]] == multiset(xs)[xs[0]] ==> r != [] && r[0] == xs[0]
  {
    assert xs == [xs[0]] + xs[1..];
    if r == [] || r[0] != xs[0] {
      SubsequenceMultiset(r, xs[1..]);
      assert multiset(r)[xs[0]] <= multiset(xs[1..])[xs[0]] < multiset(xs)[xs[0]];
    }
  }

  /** The selection is determined: the only list that Selects is the filter. */
  lemma {:induction false} SelectsIsFilter<T(!new)>(r: seq<T>, xs: seq<T>, p: T -> bool)
    requires Selects(r, xs, p)
    ensures r == Filter(xs, p)
    decreases |xs|
  {
    if xs != [] {
      var x0, t := xs[0], xs[1..];
      assert xs == [x0] + t;
      if p(x0) {
        SubsequenceKeepsHead(r, xs);
        assert r == [x0] + r[1..];
        assert Selects(r[1..], t, p) by {
          forall x ensures multiset(r[1..])[x] == if p(x) then multiset(t)[x] else 0 {
            assert multiset(r)[x] == multiset(r[1..])[x] + (if x == x0 then 1 else 0);
          }
        }
        SelectsIsFilter(r[1..], t, p);
      } else {
        assert Subsequence(r, t) by {
          if r != [] {
            assert multiset(r)[r[0]] > 0;
          }
        }
        SelectsIsFilter(r, t, p);
      }
    }
  }

  /** Two conditions that agree on every row select the same rows. */
  lemma {:induction false} FilterCongruence<T(!new)>(xs: seq<T>, p: T -> bool, q: T -> bool)
    requires forall x :: p(x) == q(x)
    ensures Filter(xs, p) == Filter(xs, q)
  {
    if xs != [] {
      FilterCongruence(xs[1..], p, q);
    }
  }

  /** Filtering by a conjunction is filtering by its first half, then by its second. */
  lemma {:induction false} FilterNarrows<T(!new)>(xs: seq<T>, p: T -> bool, q: T -> bool, both: T -> bool)
    requires forall x :: both(x) == (p(x) && q(x))
    ensures Filter(xs, both) == Filter(Filter(xs, p), q)
  {
    if xs != [] {
      FilterNarrows(xs[1..], p, q, both);
      var rest := Filter(xs[1..], p);
      if p(xs[0]) {
        assert Filter(xs, p) == [xs[0]] + rest;
        assert ([xs[0]] + rest)[1..] == rest;
      }
    }
  }

  /** The number of rows of xs that satisfy p (`SELECT COUNT(...) ... WHERE`). */
  function Count<T>(xs: seq<T>, p: T -> bool): nat
  {
    if xs == [] then 0 else (if p(xs[0]) then 1 else 0) + Count(xs[1..], p)
  }

  /** Counting the matching rows gives the size of the filtered list. */
  lemma {:induction false} CountIsFilterSize<T(!new)>(xs: seq<T>, p: T -> bool)
    ensures Count(xs, p) == |Filter(xs, p)|
  {
    if xs != [] {
      CountIsFilterSize(xs[1..], p);
    }
  }

  /** At most one row of xs satisfies p. */
  predicate AtMostOne<T>(xs: seq<T>, p: T -> bool) {
    forall i, j :: 0 <= i < j < |xs| && p(xs[i]) ==> !p(xs[j])
  }

  /** When at most one row satisfies p, the filter keeps at most one row. */
  lemma {:induction false} AtMostOneFiltersToOne<T(!new)>(xs: seq<T>, p: T -> bool)
    requires AtMostOne(xs, p)
    ensures |Filter(xs, p)| <= 1
  {
    if xs != [] {
      assert AtMostOne(xs[1..], p) by {
        forall i, j | 0 <= i < j < |xs[1..]| && p(xs[1..][i])
          ensures !p(xs[1..][j])
        {
          assert xs[1..][i] == xs[i + 1] && xs[1..][j] == xs[j + 1];
        }
      }
      AtMostOneFiltersToOne(xs[1..], p);
      if p(xs[0]) {
        forall x | x in xs[1..] ensures !p(x) {
          var k :| 0 <= k < |xs[1..]| && xs[1..][k] == x;
          assert xs[k + 1] == x;
        }
        assert Filter(xs[1..], p) == [];
      }
    }
  }

  /** What a Spring Data finder returning `Optional<T>` yields: no row, the one row, or an
      `IncorrectResultSizeDataAccessException` when several rows match. */
  datatype Lookup<+T> = Absent | Unique(value: T) | NonUnique

  function FindUnique<T(==,!new)>(xs: seq<T>, p: T -> bool): (r: Lookup<T>)
    ensures r.Absent? <==> (forall x :: x in xs ==> !p(x))
    ensures r.Unique? ==> r.value in xs && p(r.value) && |Filter(xs, p)| == 1
    ensures r.NonUnique? <==> |Filter(xs, p)| >= 2
  {
    var matches := Filter(xs, p);
    if |matches| == 0 then Absent
    else if |matches| == 1 then Unique(matches[0])
    else NonUnique
  }

  /** A finder over a column holding a unique key never reports several rows. */
  lemma UniqueKeyNeverNonUnique<T(!new)>(xs: seq<T>, p: T -> bool)
    requires AtMostOne(xs, p)
    ensures !FindUnique(xs, p).NonUnique?
  {
    AtMostOneFiltersToOne(xs, p);
  }
}
