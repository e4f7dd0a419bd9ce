/**
 * The query-set operations the read paths are built from: `filter`,
 * `order_by` (a stable insertion sort under a total preorder) and slicing
 * (`[:n]`), each with the facts the views rely on.
 */
module Sorting {

  ghost predicate Total<T(!new)>(le: (T, T) -> bool) {
    forall x, y :: le(x, y) || le(y, x)
  }

  ghost predicate Transitive<T(!new)>(le: (T, T) -> bool) {
    forall x, y, z :: le(x, y) && le(y, z) ==> le(x, z)
  }

  /** `le` is an order a query can sort by: total and transitive. */
  ghost predicate TotalPreorder<T(!new)>(le: (T, T) -> bool) {
    Total(le) && Transitive(le)
  }

  predicate SortedBy<T>(le: (T, T) -> bool, xs: seq<T>) {
    forall i, j :: 0 <= i < j < |xs| ==> le(xs[i], xs[j])
  }

  /** Puts `x` in front of the first element it is not after. */
  function Insert<T>(le: (T, T) -> bool, x: T, xs: seq<T>): seq<T>
  {
    if |xs| == 0 then [x]
    else if le(x, xs[0]) then [x] + xs
    else [xs[0]] + Insert(le, x, xs[1..])
  }

  /** `order_by`: insertion sort; elements with equal keys keep their input order. */
  function Sort<T>(le: (T, T) -> bool, xs: seq<T>): seq<T>
  {
    if |xs| == 0 then [] else Insert(le, xs[0], Sort(le, xs[1..]))
  }

  lemma {:induction false} InsertMultiset<T>(le: (T, T) -> bool, x: T, xs: seq<T>)
    ensures multiset(Insert(le, x, xs)) == multiset{x} + multiset(xs)
  {
    if |xs| > 0 && !le(x, xs[0]) {
      InsertMultiset(le, x, xs[1..]);
      assert xs == [xs[0]] + xs[1..];
    }
  }

  lemma {:induction false} InsertSorted<T(!new)>(le: (T, T) -> bool, x: T, xs: seq<T>)
    requires TotalPreorder(le)
    requires SortedBy(le, xs)
    ensures SortedBy(le, Insert(le, x, xs))
  {
    if |xs| > 0 && !le(x, xs[0]) {
      var rest := xs[1..];
      InsertSorted(le, x, rest);
      InsertMultiset(le, x, rest);
      var r := Insert(le, x, rest);
      forall k | 0 <= k < |r|
        ensures le(xs[0], r[k])
      {
        assert r[k] in multiset(r);
        assert r[k] == x || r[k] in multiset(rest);
      }
    }
  }

  /** Sorting returns a permutation of its input, in order. */
  lemma {:induction false} SortCorrect<T(!new)>(le: (T, T) -> bool, xs: seq<T>)
    requires TotalPreorder(le)
    ensures multiset(Sort(le, xs)) == multiset(xs)
    ensures SortedBy(le, Sort(le, xs))
  {
    if |xs| > 0 {
      SortCorrect(le, xs[1..]);
      InsertMultiset(le, xs[0], Sort(le, xs[1..]));
      InsertSorted(le, xs[0], Sort(le, xs[1..]));
      assert xs == [xs[0]] + xs[1..];
    }
  }

  lemma SortLength<T>(le: (T, T) -> bool, xs: seq<T>)
    ensures |Sort(le, xs)| == |xs|
  {
    calc {
      |Sort(le, xs)|;
      |multiset(Sort(le, xs))|;
      { SortMultisetAnyOrder(le, xs); }
      |multiset(xs)|;
      |xs|;
    }
  }

  /** The permutation half of SortCorrect holds whatever `le` is. */
  lemma {:induction false} SortMultisetAnyOrder<T>(le: (T, T) -> bool, xs: seq<T>)
    ensures multiset(Sort(le, xs)) == multiset(xs)
  {
    if |xs| > 0 {
      SortMultisetAnyOrder(le, xs[1..]);
      InsertMultiset(le, xs[0], Sort(le, xs[1..]));
      assert xs == [xs[0]] + xs[1..];
    }
  }

  /** `filter`: the elements that satisfy `p`, in their original order. */
  function Filter<T>(p: T -> bool, xs: seq<T>): seq<T>
  {
    if |xs| == 0 then []
    else if p(xs[0]) then [xs[0]] + Filter(p, xs[1..])
    else Filter(p, xs[1..])
  }

  lemma {:induction false} FilterMembership<T>(p: T -> bool, xs: seq<T>, x: T)
    ensures x in Filter(p, xs) <==> x in xs && p(x)
  {
    if |xs| > 0 {
      FilterMembership(p, xs[1..], x);
      assert x in xs <==> x == xs[0] || x in xs[1..];
    }
  }

  lemma {:induction false} FilterMultiset<T>(p: T -> bool, xs: seq<T>)
    ensures multiset(Filter(p, xs)) <= multiset(xs)
    ensures |Filter(p, xs)| <= |xs|
  {
    if |xs| > 0 {
      FilterMultiset(p, xs[1..]);
      assert xs == [xs[0]] + xs[1..];
    }
  }

  lemma {:induction false} FilterAll<T>(p: T -> bool, xs: seq<T>)
    ensures forall x :: x in Filter(p, xs) ==> p(x) && x in xs
  {
    forall x | x in Filter(p, xs) ensures p(x) && x in xs {
      FilterMembership(p, xs, x);
    }
  }

  /** Filtering keeps the relative order, so a sorted query stays sorted. */
  lemma {:induction false} FilterSorted<T>(le: (T, T) -> bool, p: T -> bool, xs: seq<T>)
    requires SortedBy(le, xs)
    ensures SortedBy(le, Filter(p, xs))
  {
    if |xs| > 0 {
      FilterSorted(le, p, xs[1..]);
      if p(xs[0]) {
        var r := Filter(p, xs[1..]);
        forall k | 0 <= k < |r| ensures le(xs[0], r[k]) {
          FilterMembership(p, xs[1..], r[k]);
          var j :| 0 <= j < |xs[1..]| && xs[1..][j] == r[k];
          assert xs[j + 1] == r[k];
        }
      }
    }
  }

  lemma {:induction false} FilterAppend<T>(p: T -> bool, xs: seq<T>, ys: seq<T>)
    ensures Filter(p, xs + ys) == Filter(p, xs) + Filter(p, ys)
  {
    if |xs| == 0 {
      assert xs + ys == ys;
    } else {
      FilterAppend(p, xs[1..], ys);
      assert (xs + ys)[0] == xs[0];
      assert (xs + ys)[1..] == xs[1..] + ys;
    }
  }

  /** A filter that every element passes changes nothing. */
  lemma {:induction false} FilterKeepsAll<T>(p: T -> bool, xs: seq<T>)
    requires forall i :: 0 <= i < |xs| ==> p(xs[i])
    ensures Filter(p, xs) == xs
  {
    if |xs| > 0 {
      FilterKeepsAll(p, xs[1..]);
    }
  }

  /** A filter that no element passes leaves nothing. */
  lemma {:induction false} FilterDropsAll<T>(p: T -> bool, xs: seq<T>)
    requires forall i :: 0 <= i < |xs| ==> !p(xs[i])
    ensures Filter(p, xs) == []
  {
    if |xs| > 0 {
      FilterDropsAll(p, xs[1..]);
    }
  }

  /** Three filters that between them accept each element exactly once split the input into three parts. */
  lemma {:induction false} FilterPartition3<T>(p: T -> bool, q: T -> bool, r: T -> bool, xs: seq<T>)
    requires forall i :: 0 <= i < |xs| ==>
      (p(xs[i]) && !q(xs[i]) && !r(xs[i])) || (!p(xs[i]) && q(xs[i]) && !r(xs[i])) || (!p(xs[i]) && !q(xs[i]) && r(xs[i]))
    ensures multiset(Filter(p, xs)) + multiset(Filter(q, xs)) + multiset(Filter(r, xs)) == multiset(xs)
  {
    if |xs| > 0 {
      FilterPartition3(p, q, r, xs[1..]);
      assert xs == [xs[0]] + xs[1..];
    }
  }

  /** A query: `filter(p)` followed by `order_by(le)`. */
  function Select<T>(le: (T, T) -> bool, p: T -> bool, xs: seq<T>): seq<T> {
    Sort(le, Filter(p, xs))
  }

  /** A query returns exactly the rows its filter accepts, each as often as the table holds it, in order. */
  lemma SelectCorrect<T(!new)>(le: (T, T) -> bool, p: T -> bool, xs: seq<T>)
    requires TotalPreorder(le)
    ensures multiset(Select(le, p, xs)) == multiset(Filter(p, xs))
    ensures forall x :: x in Select(le, p, xs) <==> x in xs && p(x)
    ensures SortedBy(le, Select(le, p, xs))
  {
    SortCorrect(le, Filter(p, xs));
    forall x ensures x in Select(le, p, xs) <==> x in xs && p(x) {
      assert x in Select(le, p, xs) <==> x in multiset(Select(le, p, xs));
      FilterMembership(p, xs, x);
    }
  }

  /** Slicing `[:n]`: at most the first `n` elements. */
  function Take<T>(xs: seq<T>, n: nat): (r: seq<T>)
    ensures |r| <= n && |r| <= |xs|
    ensures |r| == if |xs| < n then |xs| else n
    ensures r <= xs
  {
    if |xs| <= n then xs else xs[..n]
  }
}
