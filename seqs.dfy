// Sequence operations standing for the queryset operations the services use:
// filter(), order_by() (a stable sort, as Python's list.sort is), and slicing
// with [:limit].
module Seqs {

  /** filter(): the elements satisfying p, in their original order. */
  function Filter<T(!new)>(s: seq<T>, p: T -> bool): (r: seq<T>)
    ensures |r| <= |s|
    ensures forall x :: x in r <==> x in s && p(x)
    ensures forall i :: 0 <= i < |r| ==> p(r[i])
  {
    if s == [] then [] else if p(s[0]) then [s[0]] + Filter(s[1..], p) else Filter(s[1..], p)
  }

  /** How many elements satisfy p. */
  function Count<T(!new)>(s: seq<T>, p: T -> bool): nat
  {
    |Filter(s, p)|
  }

  /** Deleting the rows that match p leaves the others: the two parts add up to the table. */
  lemma {:induction false} FilterSplits<T(!new)>(s: seq<T>, p: T -> bool, q: T -> bool)
    requires forall x :: q(x) <==> !p(x)
    ensures |Filter(s, p)| + |Filter(s, q)| == |s|
  {
    if s != [] {
      FilterSplits(s[1..], p, q);
    }
  }

  lemma {:induction false} FilterAppend<T(!new)>(a: seq<T>, b: seq<T>, p: T -> bool)
    ensures Filter(a + b, p) == Filter(a, p) + Filter(b, p)
  {
    if a == [] {
      assert a + b == b;
    } else {
      assert (a + b)[1..] == a[1..] + b;
      FilterAppend(a[1..], b, p);
    }
  }

  /** Filtering twice is filtering once with both conditions. */
  lemma {:induction false} FilterFilter<T(!new)>(s: seq<T>, p: T -> bool, q: T -> bool)
    ensures Filter(Filter(s, p), q) == Filter(s, x => p(x) && q(x))
  {
    if s != [] {
      FilterFilter(s[1..], p, q);
    }
  }

  /** A filter that matches no element yields nothing. */
  lemma {:induction false} FilterNone<T(!new)>(s: seq<T>, p: T -> bool)
    requires forall x :: x in s ==> !p(x)
    ensures Filter(s, p) == []
  {
    if s != [] {
      assert forall x :: x in s[1..] ==> x in s;
      FilterNone(s[1..], p);
    }
  }

  /** A filter that matches every element keeps the sequence whole. */
  lemma {:induction false} FilterAll<T(!new)>(s: seq<T>, p: T -> bool)
    requires forall x :: x in s ==> p(x)
    ensures Filter(s, p) == s
  {
    if s != [] {
      assert forall x :: x in s[1..] ==> x in s;
      FilterAll(s[1..], p);
    }
  }

  /** Every pair of rows, taken in table order, is related by R. */
  ghost predicate Pairwise<T>(s: seq<T>, R: (T, T) -> bool)
  {
    forall i, j :: 0 <= i < j < |s| ==> R(s[i], s[j])
  }

  /** A filtered table keeps the pairwise constraints of the table it came from. */
  lemma {:induction false} FilterPairwise<T(!new)>(s: seq<T>, p: T -> bool, R: (T, T) -> bool)
    requires Pairwise(s, R)
    ensures Pairwise(Filter(s, p), R)
  {
    if s != [] {
      PairwiseUncons(s, R);
      FilterPairwise(s[1..], p, R);
      if p(s[0]) {
        PairwiseCons(s[0], Filter(s[1..], p), R);
      }
    }
  }

  /** The head of a pairwise-related sequence is related to every later element, and the tail stays pairwise related. */
  lemma PairwiseUncons<T>(s: seq<T>, R: (T, T) -> bool)
    requires s != [] && Pairwise(s, R)
    ensures Pairwise(s[1..], R)
    ensures forall x :: x in s[1..] ==> R(s[0], x)
  {
    var t := s[1..];
    forall i, j | 0 <= i < j < |t|
      ensures R(t[i], t[j])
    {
      assert t[i] == s[i + 1] && t[j] == s[j + 1];
    }
    forall x | x in t
      ensures R(s[0], x)
    {
      var k :| 0 <= k < |t| && t[k] == x;
      assert s[k + 1] == x;
    }
  }

  /** Prepending an element related to every later one keeps a pairwise constraint. */
  lemma PairwiseCons<T>(x: T, s: seq<T>, R: (T, T) -> bool)
    requires Pairwise(s, R)
    requires forall y :: y in s ==> R(x, y)
    ensures Pairwise([x] + s, R)
  {
    var r := [x] + s;
    forall i, j | 0 <= i < j < |r|
      ensures R(r[i], r[j])
    {
      if i == 0 {
        assert r[j] in s;
      } else {
        assert r[i] == s[i - 1] && r[j] == s[j - 1];
      }
    }
  }

  /** Appending an element related to every earlier one keeps a pairwise constraint. */
  lemma PairwiseSnoc<T>(s: seq<T>, x: T, R: (T, T) -> bool)
    requires Pairwise(s, R)
    requires forall y :: y in s ==> R(y, x)
    ensures Pairwise(s + [x], R)
  {
    var r := s + [x];
    forall i, j | 0 <= i < j < |r|
      ensures R(r[i], r[j])
    {
      if j == |s| {
        assert r[i] in s;
      } else {
        assert r[i] == s[i] && r[j] == s[j];
      }
    }
  }

  /** `before` orders every pair and is transitive, as an order_by() key does. */
  ghost predicate TotalPreorder<T(!new)>(before: (T, T) -> bool)
  {
    (forall a, b :: before(a, b) || before(b, a)) &&
    (forall a, b, c :: before(a, b) && before(b, c) ==> before(a, c))
  }

  ghost predicate Ordered<T>(s: seq<T>, before: (T, T) -> bool)
  {
    forall i, j :: 0 <= i < j < |s| ==> before(s[i], s[j])
  }

  function Insert<T>(x: T, s: seq<T>, before: (T, T) -> bool): (r: seq<T>)
    ensures multiset(r) == multiset(s) + multiset{x}
    ensures |r| == |s| + 1
  {
    if s == [] || before(x, s[0]) then [x] + s
    else
      assert s == [s[0]] + s[1..];
      [s[0]] + Insert(x, s[1..], before)
  }

  /** A stable sort: an element keeps ahead of the later elements it ties with. */
  function Sort<T>(s: seq<T>, before: (T, T) -> bool): (r: seq<T>)
    ensures multiset(r) == multiset(s)
    ensures |r| == |s|
  {
    if s == [] then []
    else
      assert s == [s[0]] + s[1..];
      Insert(s[0], Sort(s[1..], before), before)
  }

  lemma {:induction false} InsertOrdered<T(!new)>(x: T, s: seq<T>, before: (T, T) -> bool)
    requires TotalPreorder(before) && Ordered(s, before)
    ensures Ordered(Insert(x, s, before), before)
  {
    if s == [] || before(x, s[0]) {
    } else {
      var t := s[1..];
      InsertOrdered(x, t, before);
      var r := Insert(x, t, before);
      forall y | y in r
        ensures before(s[0], y)
      {
        assert y in multiset(r);
        if y != x {
          assert y in multiset(t);
          assert y in t;
        }
      }
      var w := [s[0]] + r;
      forall i, j | 0 <= i < j < |w|
        ensures before(w[i], w[j])
      {
        if i == 0 {
          assert w[j] in r;
        } else {
          assert w[i] == r[i - 1] && w[j] == r[j - 1];
        }
      }
    }
  }

  /** order_by() returns the rows ordered and nothing lost or added. */
  lemma {:induction false} SortOrdered<T(!new)>(s: seq<T>, before: (T, T) -> bool)
    requires TotalPreorder(before)
    ensures Ordered(Sort(s, before), before)
  {
    if s != [] {
      SortOrdered(s[1..], before);
      InsertOrdered(s[0], Sort(s[1..], before), before);
    }
  }

  /** Sorting neither loses nor invents rows. */
  lemma SortMembers<T>(s: seq<T>, before: (T, T) -> bool)
    ensures forall x :: x in Sort(s, before) <==> x in s
  {
    var r := Sort(s, before);
    forall x
      ensures x in r <==> x in s
    {
      assert x in r <==> x in multiset(r);
      assert x in s <==> x in multiset(s);
    }
  }

  /** Slicing with [:limit]. */
  function Take<T>(s: seq<T>, limit: nat): (r: seq<T>)
    ensures |r| == if |s| < limit then |s| else limit
    ensures r <= s
  {
    if |s| <= limit then s else s[..limit]
  }

  /** A prefix of an ordered sequence is ordered, and holds only its rows. */
  lemma TakeOrdered<T>(s: seq<T>, limit: nat, before: (T, T) -> bool)
    requires Ordered(s, before)
    ensures Ordered(Take(s, limit), before)
    ensures forall x :: x in Take(s, limit) ==> x in s
  {
    var r := Take(s, limit);
    forall i, j | 0 <= i < j < |r|
      ensures before(r[i], r[j])
    {
      assert r[i] == s[i] && r[j] == s[j];
    }
    forall x | x in r
      ensures x in s
    {
      var i :| 0 <= i < |r| && r[i] == x;
      assert s[i] == x;
    }
  }

  /** What a prefix of an ordered sequence leaves out comes after everything it keeps. */
  lemma TakeLeavesLater<T>(s: seq<T>, limit: nat, before: (T, T) -> bool)
    requires Ordered(s, before)
    ensures forall x, y :: x in multiset(s) - multiset(Take(s, limit)) && y in Take(s, limit) ==> before(y, x)
  {
    var r := Take(s, limit);
    var rest := s[|r|..];
    assert s == r + rest;
    assert multiset(s) == multiset(r) + multiset(rest);
    forall x, y | x in multiset(s) - multiset(r) && y in r
      ensures before(y, x)
    {
      assert x in multiset(rest);
      assert x in rest;
      var k :| 0 <= k < |rest| && rest[k] == x;
      var i :| 0 <= i < |r| && r[i] == y;
      assert s[i] == y && s[|r| + k] == x;
    }
  }

  /** A prefix holds no more copies of anything than the whole, and a short enough sequence is kept whole. */
  lemma TakeMultiset<T>(s: seq<T>, limit: nat)
    ensures multiset(Take(s, limit)) <= multiset(s)
    ensures |s| <= limit ==> Take(s, limit) == s
  {
    var r := Take(s, limit);
    assert s == r + s[|r|..];
    assert multiset(s) == multiset(r) + multiset(s[|r|..]);
  }
}
