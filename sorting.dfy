/**
 * Array.prototype.sort with a comparator, as a stable insertion sort over
 * sequences (SortStable). `le(a, b)` says that the comparator does not put b before a
 * (it returns a value <= 0 for (a, b)).
 */
module Sorting {

  /** The comparator orders every pair and is transitive. */
  ghost predicate TotalPreorder<T(!new)>(le: (T, T) -> bool)
  {
    && (forall a, b :: le(a, b) || le(b, a))
    && (forall a, b, c :: le(a, b) && le(b, c) ==> le(a, c))
  }

  predicate SortedBy<T>(s: seq<T>, le: (T, T) -> bool)
  {
    forall i, j | 0 <= i < j < |s| :: le(s[i], s[j])
  }

  /** Inserts x before the first element that x does not follow. */
  function Insert<T(!new)>(x: T, s: seq<T>, le: (T, T) -> bool): (r: seq<T>)
    requires TotalPreorder(le) && SortedBy(s, le)
    ensures multiset(r) == multiset(s) + multiset{x}
    ensures |r| == |s| + 1
    ensures SortedBy(r, le)
  {
    if s == [] || le(x, s[0]) then
      [x] + s
    else
      var rest := Insert(x, s[1..], le);
      assert s == [s[0]] + s[1..];
      HeadBelowAll(s[0], s[1..], x, rest, le);
      PrependSorted(s[0], rest, le);
      [s[0]] + rest
  }

  /** The head of a sorted sequence precedes every element of the tail with x inserted. */
  lemma HeadBelowAll<T(!new)>(h: T, tail: seq<T>, x: T, rest: seq<T>, le: (T, T) -> bool)
    requires TotalPreorder(le) && SortedBy([h] + tail, le) && !le(x, h)
    requires multiset(rest) == multiset(tail) + multiset{x}
    ensures forall k | 0 <= k < |rest| :: le(h, rest[k])
  {
    forall k | 0 <= k < |rest|
      ensures le(h, rest[k])
    {
      assert rest[k] in multiset(rest);
      assert le(x, h) || le(h, x);
      if rest[k] != x {
        assert rest[k] in tail;
        var j :| 0 <= j < |tail| && tail[j] == rest[k];
        assert ([h] + tail)[0] == h && ([h] + tail)[j + 1] == tail[j];
      }
    }
  }

  lemma PrependSorted<T>(h: T, rest: seq<T>, le: (T, T) -> bool)
    requires SortedBy(rest, le) && forall k | 0 <= k < |rest| :: le(h, rest[k])
    ensures SortedBy([h] + rest, le)
  {
    var r := [h] + rest;
    forall i, j | 0 <= i < j < |r|
      ensures le(r[i], r[j])
    {
      if i == 0 {
        assert r[j] == rest[j - 1];
      } else {
        assert r[i] == rest[i - 1] && r[j] == rest[j - 1];
      }
    }
  }

  /** The sorted permutation of s; elements the comparator ties keep their order. */
  function Sort<T(!new)>(s: seq<T>, le: (T, T) -> bool): (r: seq<T>)
    requires TotalPreorder(le)
    ensures multiset(r) == multiset(s)
    ensures |r| == |s|
    ensures SortedBy(r, le)
  {
    if s == [] then []
    else
      assert s == [s[0]] + s[1..];
      Insert(s[0], Sort(s[1..], le), le)
  }

  /** Sorting only reorders: every element of the result comes from the input. */
  lemma SortMembers<T(!new)>(s: seq<T>, le: (T, T) -> bool)
    requires TotalPreorder(le)
    ensures forall k | 0 <= k < |Sort(s, le)| :: Sort(s, le)[k] in s
  {
    var r := Sort(s, le);
    forall k | 0 <= k < |r|
      ensures r[k] in s
    {
      assert r[k] in multiset(r);
    }
  }

  /** filter(keep): the elements of s that satisfy keep, in their order. */
  function Filter<T>(s: seq<T>, keep: T -> bool): (r: seq<T>)
    ensures |r| <= |s|
    ensures forall k | 0 <= k < |r| :: keep(r[k])
    ensures forall k | 0 <= k < |s| :: keep(s[k]) ==> s[k] in r
    ensures forall k | 0 <= k < |r| :: r[k] in s
  {
    if s == [] then []
    else if keep(s[0]) then [s[0]] + Filter(s[1..], keep)
    else Filter(s[1..], keep)
  }

  /** Filtering keeps exactly the multiset of kept elements. */
  lemma {:induction false} FilterMultiset<T>(s: seq<T>, keep: T -> bool, x: T)
    ensures multiset(Filter(s, keep))[x] == if keep(x) then multiset(s)[x] else 0
  {
    if s != [] {
      FilterMultiset(s[1..], keep, x);
      assert s == [s[0]] + s[1..];
    }
  }

  /** Filtering by a predicate and by its negation splits a multiset in two. */
  lemma PartitionMultiset<T>(s: seq<T>, keep: T -> bool)
    ensures multiset(Filter(s, keep)) + multiset(Filter(s, x => !keep(x))) == multiset(s)
  {
    forall x
      ensures (multiset(Filter(s, keep)) + multiset(Filter(s, y => !keep(y))))[x] == multiset(s)[x]
    {
      FilterMultiset(s, keep, x);
      FilterMultiset(s, y => !keep(y), x);
    }
  }

  lemma {:induction false} FilterAppend<T>(a: seq<T>, b: seq<T>, keep: T -> bool)
    ensures Filter(a + b, keep) == Filter(a, keep) + Filter(b, keep)
  {
    if a != [] {
      FilterAppend(a[1..], b, keep);
      assert (a + b)[0] == a[0] && (a + b)[1..] == a[1..] + b;
      if keep(a[0]) {
        calc {
          Filter(a + b, keep);
          [a[0]] + Filter(a[1..] + b, keep);
          [a[0]] + (Filter(a[1..], keep) + Filter(b, keep));
          ([a[0]] + Filter(a[1..], keep)) + Filter(b, keep);
        }
      } else {
        assert Filter(a + b, keep) == Filter(a[1..] + b, keep);
      }
    } else {
      assert a + b == b;
    }
  }

  /** The elements the comparator ties with p. */
  function TiedWith<T>(le: (T, T) -> bool, p: T): T -> bool
  {
    y => le(y, p) && le(p, y)
  }

  /**
   * Inserting x adds it to the elements tied with p ahead of all of them:
   * every element x is placed after is strictly below x.
   */
  lemma {:induction false} InsertTies<T(!new)>(x: T, r: seq<T>, le: (T, T) -> bool, p: T)
    requires TotalPreorder(le) && SortedBy(r, le)
    ensures Filter(Insert(x, r, le), TiedWith(le, p))
         == (if TiedWith(le, p)(x) then [x] else []) + Filter(r, TiedWith(le, p))
  {
    var tied := TiedWith(le, p);
    if r == [] || le(x, r[0]) {
      FilterCons(x, r, tied);
    } else {
      var rest := Insert(x, r[1..], le);
      SortedTail(r, le);
      InsertTies(x, r[1..], le, p);
      FilterCons(r[0], rest, tied);
      assert r == [r[0]] + r[1..];
      FilterCons(r[0], r[1..], tied);
      BothTied(x, r[0], le, p);
    }
  }

  /** Filtering a sequence that starts with h. */
  lemma FilterCons<T>(h: T, rest: seq<T>, keep: T -> bool)
    ensures Filter([h] + rest, keep) == (if keep(h) then [h] else []) + Filter(rest, keep)
  {
    assert ([h] + rest)[1..] == rest;
  }

  /** The tail of a sorted sequence is sorted. */
  lemma SortedTail<T>(r: seq<T>, le: (T, T) -> bool)
    requires r != [] && SortedBy(r, le)
    ensures SortedBy(r[1..], le)
  {
    forall i, j | 0 <= i < j < |r[1..]|
      ensures le(r[1..][i], r[1..][j])
    {
      assert r[1..][i] == r[i + 1] && r[1..][j] == r[j + 1];
    }
  }

  /** Two elements tied with the same p are tied with each other. */
  lemma BothTied<T(!new)>(x: T, h: T, le: (T, T) -> bool, p: T)
    requires TotalPreorder(le)
    ensures TiedWith(le, p)(x) && TiedWith(le, p)(h) ==> le(x, h) && le(h, x)
  {
    if TiedWith(le, p)(x) && TiedWith(le, p)(h) {
      assert le(x, p) && le(p, h);
      assert le(h, p) && le(p, x);
    }
  }

  /** Sort is stable: the elements tied with any p keep their order. */
  lemma {:induction false} SortStable<T(!new)>(s: seq<T>, le: (T, T) -> bool, p: T)
    requires TotalPreorder(le)
    ensures Filter(Sort(s, le), TiedWith(le, p)) == Filter(s, TiedWith(le, p))
  {
    if s != [] {
      SortStable(s[1..], le, p);
      InsertTies(s[0], Sort(s[1..], le), le, p);
    }
  }
}
