/** JavaScript's `Array.prototype.sort` as the core uses it: a stable sort
    under a comparator that orders by a numeric key, largest first, and
    breaks ties by an integer rank, smallest first. coach.ts sorts
    suggestions by priority (no rank), scoring.ts sorts rule scores by score
    and then by key name, leading.ts sorts candidate lines by length.
    The sort is modelled by the function `Sort` (an insertion sort, which is
    stable), and what the library promises is proved about it: the result is
    a permutation, it is ordered, and equal elements keep their input order. */
module Sorting {

  /** `x` must come strictly before `y`. */
  predicate Before<T>(key: T -> real, rank: T -> int, x: T, y: T)
  {
    key(x) > key(y) || (key(x) == key(y) && rank(x) < rank(y))
  }

  /** No element is out of order with a later one. */
  predicate Sorted<T>(key: T -> real, rank: T -> int, s: seq<T>)
  {
    forall i, j :: 0 <= i < j < |s| ==> !Before(key, rank, s[j], s[i])
  }

  /** Insert `x` in front of the first element it must precede, that is,
      behind every element it ties with. */
  function Insert<T>(key: T -> real, rank: T -> int, x: T, ys: seq<T>): seq<T>
  {
    if |ys| == 0 then [x]
    else if Before(key, rank, x, ys[0]) then [x] + ys
    else [ys[0]] + Insert(key, rank, x, ys[1..])
  }

  /** The sorted order of `xs` under the comparator (key desc, rank asc). */
  function Sort<T>(key: T -> real, rank: T -> int, xs: seq<T>): seq<T>
    decreases |xs|
  {
    if |xs| == 0 then []
    else Insert(key, rank, xs[|xs| - 1], Sort(key, rank, xs[..|xs| - 1]))
  }

  /** Where `Insert` puts `x`: the first index whose element `x` must precede. */
  function InsertPos<T>(key: T -> real, rank: T -> int, x: T, ys: seq<T>): (k: nat)
    ensures k <= |ys|
    ensures k < |ys| ==> Before(key, rank, x, ys[k])
    ensures forall i :: 0 <= i < k ==> !Before(key, rank, x, ys[i])
  {
    if |ys| == 0 || Before(key, rank, x, ys[0]) then 0
    else 1 + InsertPos(key, rank, x, ys[1..])
  }

  lemma {:induction false} InsertAt<T>(key: T -> real, rank: T -> int, x: T, ys: seq<T>)
    ensures var k := InsertPos(key, rank, x, ys);
            Insert(key, rank, x, ys) == ys[..k] + [x] + ys[k..]
  {
    if |ys| > 0 && !Before(key, rank, x, ys[0]) {
      InsertAt(key, rank, x, ys[1..]);
      assert ys == [ys[0]] + ys[1..];
    }
  }

  lemma {:induction false} InsertMultiset<T>(key: T -> real, rank: T -> int, x: T, ys: seq<T>)
    ensures multiset(Insert(key, rank, x, ys)) == multiset(ys) + multiset{x}
  {
    if |ys| > 0 && !Before(key, rank, x, ys[0]) {
      InsertMultiset(key, rank, x, ys[1..]);
      assert ys == [ys[0]] + ys[1..];
    }
  }

  /** Inserting into a sorted sequence keeps it sorted. */
  lemma InsertSorted<T>(key: T -> real, rank: T -> int, x: T, ys: seq<T>)
    requires Sorted(key, rank, ys)
    ensures Sorted(key, rank, Insert(key, rank, x, ys))
  {
    var k := InsertPos(key, rank, x, ys);
    InsertAt(key, rank, x, ys);
    var r := Insert(key, rank, x, ys);
    forall i, j | 0 <= i < j < |r|
      ensures !Before(key, rank, r[j], r[i])
    {
      if j < k {
        assert r[i] == ys[i] && r[j] == ys[j];
      } else if j == k {
        assert r[i] == ys[i] && r[j] == x;
      } else if i < k {
        assert r[i] == ys[i] && r[j] == ys[j - 1];
      } else if i == k {
        assert r[i] == x && r[j] == ys[j - 1];
        assert Before(key, rank, x, ys[k]);
        if k < j - 1 {
          assert !Before(key, rank, ys[j - 1], ys[k]);
        }
      } else {
        assert r[i] == ys[i - 1] && r[j] == ys[j - 1];
      }
    }
  }

  /** The sort is a permutation of its input. */
  lemma {:induction false} SortPermutation<T>(key: T -> real, rank: T -> int, xs: seq<T>)
    ensures |Sort(key, rank, xs)| == |xs|
    ensures multiset(Sort(key, rank, xs)) == multiset(xs)
    decreases |xs|
  {
    if |xs| > 0 {
      var init := xs[..|xs| - 1];
      SortPermutation(key, rank, init);
      InsertMultiset(key, rank, xs[|xs| - 1], Sort(key, rank, init));
      assert xs == init + [xs[|xs| - 1]];
      assert |multiset(Sort(key, rank, xs))| == |multiset(xs)|;
    }
  }

  /** The sort orders its result: key descending, then rank ascending. */
  lemma {:induction false} SortSorted<T>(key: T -> real, rank: T -> int, xs: seq<T>)
    ensures Sorted(key, rank, Sort(key, rank, xs))
    decreases |xs|
  {
    if |xs| > 0 {
      SortSorted(key, rank, xs[..|xs| - 1]);
      InsertSorted(key, rank, xs[|xs| - 1], Sort(key, rank, xs[..|xs| - 1]));
    }
  }

  /** `pos` strictly increases along `s`: it numbers the elements in order. */
  predicate Increasing<T>(pos: T -> int, s: seq<T>)
  {
    forall i, j :: 0 <= i < j < |s| ==> pos(s[i]) < pos(s[j])
  }

  /** Elements that tie on both key and rank appear in `pos` order. */
  predicate StableBy<T>(key: T -> real, rank: T -> int, pos: T -> int, s: seq<T>)
  {
    forall i, j :: 0 <= i < j < |s| && key(s[i]) == key(s[j]) && rank(s[i]) == rank(s[j]) ==>
      pos(s[i]) < pos(s[j])
  }

  /** Everything from the insertion point on must come after `x`. */
  lemma InsertBeforeRest<T>(key: T -> real, rank: T -> int, x: T, ys: seq<T>)
    requires Sorted(key, rank, ys)
    ensures var k := InsertPos(key, rank, x, ys);
            forall m :: k <= m < |ys| ==> Before(key, rank, x, ys[m])
  {
    var k := InsertPos(key, rank, x, ys);
    forall m | k <= m < |ys|
      ensures Before(key, rank, x, ys[m])
    {
      if k < m {
        assert !Before(key, rank, ys[m], ys[k]);
      }
    }
  }

  lemma SpliceStable<T>(key: T -> real, rank: T -> int, pos: T -> int, x: T, ys: seq<T>, k: nat)
    requires k <= |ys|
    requires forall m :: k <= m < |ys| ==> Before(key, rank, x, ys[m])
    requires forall m :: 0 <= m < |ys| ==> pos(ys[m]) < pos(x)
    requires StableBy(key, rank, pos, ys)
    ensures StableBy(key, rank, pos, ys[..k] + [x] + ys[k..])
  {
    var r := ys[..k] + [x] + ys[k..];
    forall i, j | 0 <= i < j < |r|
      ensures key(r[i]) == key(r[j]) && rank(r[i]) == rank(r[j]) ==> pos(r[i]) < pos(r[j])
    {
      if j < k {
        assert r[i] == ys[i] && r[j] == ys[j];
      } else if j == k {
        assert r[i] == ys[i] && r[j] == x;
      } else if i < k {
        assert r[i] == ys[i] && r[j] == ys[j - 1];
      } else if i == k {
        assert r[i] == x && r[j] == ys[j - 1];
        assert Before(key, rank, r[i], r[j]);
      } else {
        assert r[i] == ys[i - 1] && r[j] == ys[j - 1];
      }
    }
  }

  /** Inserting an element numbered after everything already sorted keeps ties
      in order, because it goes behind every element it ties with. */
  lemma InsertStable<T>(key: T -> real, rank: T -> int, pos: T -> int, x: T, ys: seq<T>)
    requires Sorted(key, rank, ys) && StableBy(key, rank, pos, ys)
    requires forall m :: 0 <= m < |ys| ==> pos(ys[m]) < pos(x)
    ensures StableBy(key, rank, pos, Insert(key, rank, x, ys))
  {
    InsertAt(key, rank, x, ys);
    InsertBeforeRest(key, rank, x, ys);
    SpliceStable(key, rank, pos, x, ys, InsertPos(key, rank, x, ys));
  }

  /** Stability: when the input is numbered in order by `pos`, elements of the
      result that tie on both key and rank appear in input order. */
  lemma {:induction false} SortStable<T>(key: T -> real, rank: T -> int, pos: T -> int, xs: seq<T>)
    requires Increasing(pos, xs)
    ensures StableBy(key, rank, pos, Sort(key, rank, xs))
    decreases |xs|
  {
    if |xs| > 0 {
      var init, x := xs[..|xs| - 1], xs[|xs| - 1];
      SortStable(key, rank, pos, init);
      var ys := Sort(key, rank, init);
      SortSorted(key, rank, init);
      SortPermutation(key, rank, init);
      forall m | 0 <= m < |ys|
        ensures pos(ys[m]) < pos(x)
      {
        assert ys[m] in multiset(init);
        var n :| 0 <= n < |init| && init[n] == ys[m];
      }
      InsertStable(key, rank, pos, x, ys);
    }
  }

  /** A comparator that orders every two distinct elements of `xs`. */
  ghost predicate Total<T>(key: T -> real, rank: T -> int, xs: seq<T>)
  {
    forall x, y :: x in xs && y in xs && x != y ==> Before(key, rank, x, y) || Before(key, rank, y, x)
  }

  /** When the comparator orders every two distinct elements, the sorted
      arrangement is unique: any two sorted permutations of the same elements
      coincide. So any sort that honours the comparator, stable or not,
      returns what `Sort` returns. */
  lemma {:induction false} SortedUnique<T>(key: T -> real, rank: T -> int, xs: seq<T>, ys: seq<T>)
    requires multiset(xs) == multiset(ys)
    requires Sorted(key, rank, xs) && Sorted(key, rank, ys) && Total(key, rank, xs)
    ensures xs == ys
    decreases |xs|
  {
    assert |multiset(xs)| == |xs| && |multiset(ys)| == |ys|;
    if |xs| > 0 {
      SortedHeads(key, rank, xs, ys);
      var a := xs[0];
      assert xs == [a] + xs[1..] && ys == [a] + ys[1..];
      assert multiset(xs[1..]) == multiset(xs) - multiset{a};
      assert multiset(ys[1..]) == multiset(ys) - multiset{a};
      TotalTail(key, rank, xs);
      SortedTail(key, rank, xs);
      SortedTail(key, rank, ys);
      SortedUnique(key, rank, xs[1..], ys[1..]);
    }
  }

  /** Two sorted permutations start with the same element. */
  lemma SortedHeads<T>(key: T -> real, rank: T -> int, xs: seq<T>, ys: seq<T>)
    requires |xs| > 0 && |ys| > 0 && multiset(xs) == multiset(ys)
    requires Sorted(key, rank, xs) && Sorted(key, rank, ys) && Total(key, rank, xs)
    ensures xs[0] == ys[0]
  {
    var a, b := xs[0], ys[0];
    assert a in multiset(ys) && b in multiset(xs);
    var j :| 0 <= j < |ys| && ys[j] == a;
    var i :| 0 <= i < |xs| && xs[i] == b;
    assert j > 0 ==> !Before(key, rank, ys[j], ys[0]);
    assert i > 0 ==> !Before(key, rank, xs[i], xs[0]);
  }

  lemma SortedTail<T>(key: T -> real, rank: T -> int, xs: seq<T>)
    requires |xs| > 0 && Sorted(key, rank, xs)
    ensures Sorted(key, rank, xs[1..])
  {
    var t := xs[1..];
    assert forall i :: 0 <= i < |t| ==> t[i] == xs[i + 1];
  }

  lemma TotalTail<T>(key: T -> real, rank: T -> int, xs: seq<T>)
    requires |xs| > 0 && Total(key, rank, xs)
    ensures Total(key, rank, xs[1..])
  {
    assert forall x :: x in xs[1..] ==> x in xs;
  }

  /** `f` takes a different value at every position of `xs`. */
  predicate Distinct<T>(f: T -> int, xs: seq<T>)
  {
    forall i, j :: 0 <= i < j < |xs| ==> f(xs[i]) != f(xs[j])
  }

  /** A value at two positions of a sequence occurs at least twice in it. */
  lemma TwiceInMultiset<T>(s: seq<T>, i: nat, j: nat)
    requires i < j < |s| && s[i] == s[j]
    ensures multiset(s)[s[i]] >= 2
  {
    assert s == s[..j] + [s[j]] + s[j + 1..];
    assert s[i] in s[..j];
  }

  /** In a sequence that `f` tells apart, every element occurs once. */
  lemma {:induction false} DistinctOnce<T>(f: T -> int, s: seq<T>, x: T)
    requires Distinct(f, s) && x in s
    ensures multiset(s)[x] == 1
    decreases |s|
  {
    var pre, last := s[..|s| - 1], s[|s| - 1];
    assert s == pre + [last];
    assert Distinct(f, pre);
    if x == last {
      assert x !in pre;
    } else {
      DistinctOnce(f, pre, x);
    }
  }

  /** A permutation of a sequence that `f` tells apart is told apart too. */
  lemma PermutationDistinct<T>(f: T -> int, s: seq<T>, r: seq<T>)
    requires Distinct(f, s) && multiset(r) == multiset(s)
    ensures Distinct(f, r)
  {
    forall i, j | 0 <= i < j < |r|
      ensures f(r[i]) != f(r[j])
    {
      assert r[i] in multiset(s) && r[j] in multiset(s);
      if r[i] == r[j] {
        TwiceInMultiset(r, i, j);
        DistinctOnce(f, s, r[i]);
      }
    }
  }

  /** The first `n` elements (JavaScript's `slice(0, n)` for `n >= 0`). */
  /** `s.map(f)`. */
  function Map<T, U>(f: T -> U, s: seq<T>): (r: seq<U>)
    ensures |r| == |s| && forall i :: 0 <= i < |s| ==> r[i] == f(s[i])
    decreases |s|
  {
    if |s| == 0 then [] else Map(f, s[..|s| - 1]) + [f(s[|s| - 1])]
  }

  /** Mapping a permutation gives a permutation. */
  lemma {:induction false} MapPermutation<T, U>(f: T -> U, a: seq<T>, b: seq<T>)
    requires multiset(a) == multiset(b)
    ensures multiset(Map(f, a)) == multiset(Map(f, b))
    decreases |a|
  {
    if |a| == 0 {
      assert |b| == |multiset(b)|;
    } else {
      var x, a' := a[|a| - 1], a[..|a| - 1];
      assert a == a' + [x];
      assert x in multiset(b);
      var k :| 0 <= k < |b| && b[k] == x;
      var b' := b[..k] + b[k + 1..];
      RemoveOne(b, k);
      Cancel(multiset(a'), multiset(b'), x);
      MapPermutation(f, a', b');
      MapRemove(f, b, k);
      RemoveOne(Map(f, b), k);
      assert Map(f, a) == Map(f, a') + [f(x)];
    }
  }

  /** Mapping commutes with taking out one element. */
  lemma MapRemove<T, U>(f: T -> U, b: seq<T>, k: nat)
    requires k < |b|
    ensures Map(f, b[..k] + b[k + 1..]) == Map(f, b)[..k] + Map(f, b)[k + 1..]
  {
    var c, m := b[..k] + b[k + 1..], Map(f, b);
    var l, r := Map(f, c), m[..k] + m[k + 1..];
    forall i | 0 <= i < |l|
      ensures l[i] == r[i]
    {
      if i < k {
        assert c[i] == b[i] && r[i] == m[i];
      } else {
        assert c[i] == b[i + 1] && r[i] == m[i + 1];
      }
    }
  }

  /** Taking out one element leaves the rest of the multiset. */
  lemma RemoveOne<T>(s: seq<T>, k: nat)
    requires k < |s|
    ensures multiset(s[..k] + s[k + 1..]) + multiset{s[k]} == multiset(s)
  {
    assert s == s[..k] + [s[k]] + s[k + 1..];
  }

  /** Multiset union cancels a common element. */
  lemma Cancel<T>(a: multiset<T>, b: multiset<T>, x: T)
    requires a + multiset{x} == b + multiset{x}
    ensures a == b
  {
    forall y
      ensures a[y] == b[y]
    {
      assert (a + multiset{x})[y] == (b + multiset{x})[y];
    }
  }

  function Take<T>(s: seq<T>, n: nat): (r: seq<T>)
    ensures |r| == if n <= |s| then n else |s|
    ensures forall i :: 0 <= i < |r| ==> r[i] == s[i]
  {
    if n <= |s| then s[..n] else s
  }
}
