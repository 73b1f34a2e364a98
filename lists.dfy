/**
 * The array operations the screens compose: `find`, `filter` and a `reduce`
 * that adds up one number per element, with the facts about them the
 * screens' properties rest on.
 */
module Lists {
  import opened Wrappers

  /** `s.findIndex(p)`: the first position whose element satisfies `p`. */
  function FindFirst<T>(s: seq<T>, p: T -> bool): (r: Option<nat>)
    ensures r.Some? ==> r.value < |s| && p(s[r.value])
    ensures forall j :: 0 <= j < (if r.Some? then r.value else |s|) ==> !p(s[j])
  {
    if s == [] then None
    else if p(s[0]) then Some(0)
    else match FindFirst(s[1..], p)
      case Some(k) => Some(k + 1)
      case None => None
  }

  /** `FindFirst` is `k` exactly when `s[k]` is the first element satisfying `p`. */
  lemma FindFirstAt<T>(s: seq<T>, p: T -> bool, k: nat)
    requires k < |s| && p(s[k])
    requires forall j :: 0 <= j < k ==> !p(s[j])
    ensures FindFirst(s, p) == Some(k)
  {
  }

  /** `FindFirst` finds nothing exactly when no element satisfies `p`. */
  lemma FindFirstNone<T>(s: seq<T>, p: T -> bool)
    requires forall j :: 0 <= j < |s| ==> !p(s[j])
    ensures FindFirst(s, p) == None
  {
  }

  /** Any element satisfying `p` bounds the position `FindFirst` reports. */
  lemma FindFirstAtMost<T>(s: seq<T>, p: T -> bool, k: nat)
    requires k < |s| && p(s[k])
    ensures FindFirst(s, p).Some? && FindFirst(s, p).value <= k
  {
  }

  /** `s.filter(p)`. */
  function Filter<T(==)>(s: seq<T>, p: T -> bool): (r: seq<T>)
    ensures |r| <= |s|
    ensures forall i :: 0 <= i < |r| ==> r[i] in s && p(r[i])
    ensures forall i :: 0 <= i < |s| && p(s[i]) ==> s[i] in r
  {
    if s == [] then []
    else if p(s[0]) then [s[0]] + Filter(s[1..], p)
    else Filter(s[1..], p)
  }

  /** `a` is `b` with some elements dropped, the rest in their original order. */
  predicate IsSubsequence<T(==)>(a: seq<T>, b: seq<T>)
  {
    if a == [] then true
    else if b == [] then false
    else if a[0] == b[0] then IsSubsequence(a[1..], b[1..])
    else IsSubsequence(a, b[1..])
  }

  lemma {:induction false} FilterIsSubsequence<T>(s: seq<T>, p: T -> bool)
    ensures IsSubsequence(Filter(s, p), s)
  {
    if s != [] {
      FilterIsSubsequence(s[1..], p);
      var r := Filter(s[1..], p);
      if p(s[0]) {
        assert ([s[0]] + r)[1..] == r;
      } else if r != [] {
        SubsequenceDropHead(r, s);
      }
    }
  }

  /** Skipping the first element of `b` never breaks `IsSubsequence(a, b[1..])`. */
  lemma SubsequenceDropHead<T>(a: seq<T>, b: seq<T>)
    requires b != [] && IsSubsequence(a, b[1..]) && a != []
    ensures IsSubsequence(a, b)
  {
    if a[0] == b[0] {
      SubsequenceTail(a, b[1..]);
    }
  }

  /** Dropping the head of a subsequence keeps it a subsequence. */
  lemma {:induction false} SubsequenceTail<T>(a: seq<T>, b: seq<T>)
    requires a != [] && IsSubsequence(a, b)
    ensures IsSubsequence(a[1..], b)
  {
    if b != [] {
      if a[0] == b[0] {
        if a[1..] != [] {
          SubsequenceDropHead(a[1..], b);
        }
      } else {
        SubsequenceTail(a, b[1..]);
        if a[1..] != [] {
          SubsequenceDropHead(a[1..], b);
        }
      }
    }
  }

  /** Filtering keeps everything when every element passes. */
  lemma {:induction false} FilterAll<T>(s: seq<T>, p: T -> bool)
    requires forall i :: 0 <= i < |s| ==> p(s[i])
    ensures Filter(s, p) == s
  {
    if s != [] {
      FilterAll(s[1..], p);
      assert s == [s[0]] + s[1..];
    }
  }

  /** `s.reduce((sum, x) => sum + f(x), 0)`. */
  function SumOf<T>(s: seq<T>, f: T -> real): real
  {
    if s == [] then 0.0 else f(s[0]) + SumOf(s[1..], f)
  }

  lemma {:induction false} SumOfConcat<T>(a: seq<T>, b: seq<T>, f: T -> real)
    ensures SumOf(a + b, f) == SumOf(a, f) + SumOf(b, f)
  {
    if a == [] {
      assert a + b == b;
    } else {
      assert (a + b)[0] == a[0];
      assert (a + b)[1..] == a[1..] + b;
      SumOfConcat(a[1..], b, f);
    }
  }

  /** A sum of non-negative terms is non-negative. */
  lemma {:induction false} SumOfNonNegative<T>(s: seq<T>, f: T -> real)
    requires forall i :: 0 <= i < |s| ==> f(s[i]) >= 0.0
    ensures SumOf(s, f) >= 0.0
  {
    if s != [] {
      SumOfNonNegative(s[1..], f);
    }
  }

  /** Splitting a list by a test and its negation splits its sum. */
  lemma {:induction false} SumOfPartition<T>(s: seq<T>, p: T -> bool, notP: T -> bool, f: T -> real)
    requires forall x :: notP(x) == !p(x)
    ensures SumOf(Filter(s, p), f) + SumOf(Filter(s, notP), f) == SumOf(s, f)
  {
    if s != [] {
      SumOfPartition(s[1..], p, notP, f);
    }
  }

  /** The first element adds its value to a filtered sum exactly when it passes the test. */
  lemma SumOfFilterStep<T>(s: seq<T>, p: T -> bool, f: T -> real)
    requires s != []
    ensures SumOf(Filter(s, p), f) == (if p(s[0]) then f(s[0]) else 0.0) + SumOf(Filter(s[1..], p), f)
  {
    if p(s[0]) {
      assert ([s[0]] + Filter(s[1..], p))[1..] == Filter(s[1..], p);
    }
  }

  /** Summing only the elements that pass `p` is summing `f` where `p` holds and 0 elsewhere. */
  lemma {:induction false} SumOfFilter<T>(s: seq<T>, p: T -> bool, f: T -> real)
    ensures SumOf(Filter(s, p), f) == SumOf(s, x => if p(x) then f(x) else 0.0)
  {
    if s != [] {
      SumOfFilter(s[1..], p, f);
    }
  }

  /**
   * `Array.prototype.sort` with a comparator, which is stable: `before(a, b)`
   * says the comparator puts `a` strictly ahead of `b`. Each element is
   * inserted into the sorted rest ahead of the first element it does not
   * come after, so equal elements keep their input order.
   */
  function InsertBy<T>(x: T, s: seq<T>, before: (T, T) -> bool): (r: seq<T>)
    ensures |r| == |s| + 1
  {
    if s == [] then [x]
    else if before(s[0], x) then [s[0]] + InsertBy(x, s[1..], before)
    else [x] + s
  }

  function SortBy<T>(s: seq<T>, before: (T, T) -> bool): (r: seq<T>)
    ensures |r| == |s|
  {
    if s == [] then [] else InsertBy(s[0], SortBy(s[1..], before), before)
  }

  /** No element of `s` is put strictly ahead of an earlier one. */
  predicate SortedBy<T>(s: seq<T>, before: (T, T) -> bool) {
    forall i, j :: 0 <= i < j < |s| ==> !before(s[j], s[i])
  }

  /** On the elements satisfying `ok`, `before` is a strict weak order. */
  ghost predicate StrictWeakOrder<T(!new)>(before: (T, T) -> bool, ok: T -> bool) {
    (forall a, b :: ok(a) && ok(b) && before(a, b) ==> !before(b, a)) &&
    (forall a, b, c :: ok(a) && ok(b) && ok(c) && !before(a, b) && !before(b, c) ==> !before(a, c))
  }

  lemma {:induction false} InsertByPermutation<T>(x: T, s: seq<T>, before: (T, T) -> bool)
    ensures multiset(InsertBy(x, s, before)) == multiset(s) + multiset{x}
  {
    if s != [] {
      assert s == [s[0]] + s[1..];
      if before(s[0], x) {
        InsertByPermutation(x, s[1..], before);
      }
    }
  }

  /** Sorting only reorders: the result is a permutation of the input. */
  lemma {:induction false} SortByPermutation<T>(s: seq<T>, before: (T, T) -> bool)
    ensures multiset(SortBy(s, before)) == multiset(s)
  {
    if s != [] {
      SortByPermutation(s[1..], before);
      InsertByPermutation(s[0], SortBy(s[1..], before), before);
      assert s == [s[0]] + s[1..];
    }
  }

  /** Whatever holds of `x` and of every element of `s` holds of every element of the insertion. */
  lemma {:induction false} InsertByKeeps<T>(x: T, s: seq<T>, before: (T, T) -> bool, q: T -> bool)
    requires q(x) && forall i :: 0 <= i < |s| ==> q(s[i])
    ensures forall i :: 0 <= i < |InsertBy(x, s, before)| ==> q(InsertBy(x, s, before)[i])
  {
    if s != [] && before(s[0], x) {
      InsertByKeeps(x, s[1..], before, q);
    }
  }

  lemma {:induction false} SortByKeeps<T>(s: seq<T>, before: (T, T) -> bool, q: T -> bool)
    requires forall i :: 0 <= i < |s| ==> q(s[i])
    ensures forall i :: 0 <= i < |SortBy(s, before)| ==> q(SortBy(s, before)[i])
  {
    if s != [] {
      SortByKeeps(s[1..], before, q);
      InsertByKeeps(s[0], SortBy(s[1..], before), before, q);
    }
  }

  lemma {:induction false} InsertBySorted<T(!new)>(x: T, s: seq<T>, before: (T, T) -> bool, ok: T -> bool)
    requires StrictWeakOrder(before, ok)
    requires ok(x) && forall i :: 0 <= i < |s| ==> ok(s[i])
    requires SortedBy(s, before)
    ensures SortedBy(InsertBy(x, s, before), before)
  {
    if s == [] {
    } else if before(s[0], x) {
      var rest := InsertBy(x, s[1..], before);
      InsertBySorted(x, s[1..], before, ok);
      var head := s[0];
      InsertByKeeps(x, s[1..], before, e => !before(e, head));
      assert InsertBy(x, s, before) == [head] + rest;
    } else {
      assert forall j :: 0 <= j < |s| ==> !before(s[j], x) by {
        forall j | 0 <= j < |s| ensures !before(s[j], x) {
          if j > 0 {
            assert !before(s[j], s[0]);
          }
        }
      }
    }
  }

  /** Under a strict weak order, the sorted list is in order. */
  lemma {:induction false} SortBySorted<T(!new)>(s: seq<T>, before: (T, T) -> bool, ok: T -> bool)
    requires StrictWeakOrder(before, ok)
    requires forall i :: 0 <= i < |s| ==> ok(s[i])
    ensures SortedBy(SortBy(s, before), before)
  {
    if s != [] {
      SortBySorted(s[1..], before, ok);
      SortByKeeps(s[1..], before, ok);
      InsertBySorted(s[0], SortBy(s[1..], before), before, ok);
    }
  }

  /** When no element comes before another, sorting changes nothing (stability). */
  lemma {:induction false} SortByOfUnordered<T>(s: seq<T>, before: (T, T) -> bool)
    requires forall i, j :: 0 <= i < |s| && 0 <= j < |s| ==> !before(s[i], s[j])
    ensures SortBy(s, before) == s
  {
    if s != [] {
      SortByOfUnordered(s[1..], before);
      assert s == [s[0]] + s[1..];
      if |s| > 1 {
        assert !before(s[1], s[0]);
      }
    }
  }

  /** Whatever holds of every element holds of every element that passes a filter. */
  lemma {:induction false} FilterKeeps<T>(s: seq<T>, p: T -> bool, q: T -> bool)
    requires forall i :: 0 <= i < |s| ==> q(s[i])
    ensures forall i :: 0 <= i < |Filter(s, p)| ==> q(Filter(s, p)[i])
  {
    if s != [] {
      FilterKeeps(s[1..], p, q);
    }
  }

  /** Filtering twice is filtering once by both tests. */
  lemma {:induction false} FilterFilter<T>(s: seq<T>, p: T -> bool, q: T -> bool, both: T -> bool)
    requires forall x :: both(x) == (p(x) && q(x))
    ensures Filter(Filter(s, p), q) == Filter(s, both)
  {
    if s != [] {
      FilterFilter(s[1..], p, q, both);
    }
  }

  /** Filtering a concatenation filters each part. */
  lemma {:induction false} FilterConcat<T>(a: seq<T>, b: seq<T>, p: T -> bool)
    ensures Filter(a + b, p) == Filter(a, p) + Filter(b, p)
  {
    if a != [] {
      assert (a + b)[1..] == a[1..] + b;
      FilterConcat(a[1..], b, p);
    } else {
      assert a + b == b;
    }
  }

  /** Filtering out everything leaves nothing. */
  lemma {:induction false} FilterNone<T>(s: seq<T>, p: T -> bool)
    requires forall i :: 0 <= i < |s| ==> !p(s[i])
    ensures Filter(s, p) == []
  {
    if s != [] {
      FilterNone(s[1..], p);
    }
  }
}
