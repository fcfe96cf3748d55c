/**
 The array operations the store is built from, on immutable sequences:
 `findIndex` by key, replacing the first match, `filter`, and summing a field
 with `reduce`. Keys are not assumed to be unique: several elements may carry
 the same key.
 */
module Collection {
  import opened Types

  /** `i` is the first position whose element has key `k`. */
  ghost predicate IsFirstMatch<T, K>(xs: seq<T>, key: T -> K, k: K, i: int) {
    && 0 <= i < |xs|
    && key(xs[i]) == k
    && forall j :: 0 <= j < i ==> key(xs[j]) != k
  }

  /** `findIndex(x => key(x) === k)`, with `None` for the source's `-1`. */
  function FindIndex<T, K(==)>(xs: seq<T>, key: T -> K, k: K): (r: Option<nat>)
    ensures r.None? <==> forall i :: 0 <= i < |xs| ==> key(xs[i]) != k
    ensures r.Some? ==> IsFirstMatch(xs, key, k, r.value)
  {
    if |xs| == 0 then None
    else if key(xs[0]) == k then Some(0)
    else match FindIndex(xs[1..], key, k)
      case None => None
      case Some(i) => Some(i + 1)
  }

  /** Replaces the first element with key `k` by `f` of it; no-op when there is none. */
  function ReplaceFirst<T, K(==)>(xs: seq<T>, key: T -> K, k: K, f: T -> T): (r: seq<T>)
    ensures |r| == |xs|
    ensures (forall i :: 0 <= i < |xs| ==> key(xs[i]) != k) ==> r == xs
    ensures forall i :: IsFirstMatch(xs, key, k, i) ==>
      && r[i] == f(xs[i])
      && forall j :: 0 <= j < |xs| && j != i ==> r[j] == xs[j]
    ensures forall i :: IsFirstMatch(xs, key, k, i) ==> r == xs[i := f(xs[i])]
  {
    match FindIndex(xs, key, k)
    case None => xs
    case Some(i) => xs[i := f(xs[i])]
  }

  /** `filter(p)`: the elements satisfying `p`, in their original order. */
  function Filter<T>(xs: seq<T>, p: T -> bool): (r: seq<T>)
    ensures |r| <= |xs|
    ensures forall i :: 0 <= i < |r| ==> r[i] in xs && p(r[i])
    ensures forall i :: 0 <= i < |xs| && p(xs[i]) ==> xs[i] in r
  {
    if |xs| == 0 then []
    else (if p(xs[0]) then [xs[0]] else []) + Filter(xs[1..], p)
  }

  /** `filter(x => key(x) !== k)`: every element whose key is `k` is dropped. */
  function RemoveAll<T, K(==)>(xs: seq<T>, key: T -> K, k: K): (r: seq<T>)
    ensures forall i :: 0 <= i < |r| ==> r[i] in xs && key(r[i]) != k
    ensures forall i :: 0 <= i < |xs| && key(xs[i]) != k ==> xs[i] in r
  {
    Filter(xs, x => key(x) != k)
  }

  /** Number of elements whose key is `k`. */
  function CountKey<T, K(==)>(xs: seq<T>, key: T -> K, k: K): nat {
    if |xs| == 0 then 0 else (if key(xs[0]) == k then 1 else 0) + CountKey(xs[1..], key, k)
  }

  /** The sum of `f` over the elements whose key is `k`. */
  function SumKey<T, K(==)>(xs: seq<T>, key: T -> K, k: K, f: T -> int): int {
    if |xs| == 0 then 0
    else (if key(xs[0]) == k then f(xs[0]) else 0) + SumKey(xs[1..], key, k, f)
  }

  /** The sum of `f` over the elements, by structural recursion. */
  function Sum<T>(xs: seq<T>, f: T -> int): int {
    if |xs| == 0 then 0 else f(xs[0]) + Sum(xs[1..], f)
  }

  /** `reduce((sum, x) => sum + f(x), acc)`: a left-to-right fold from `acc`. */
  function ReduceSum<T>(acc: int, xs: seq<T>, f: T -> int): (r: int)
    ensures r == acc + Sum(xs, f)
    decreases |xs|
  {
    if |xs| == 0 then acc else ReduceSum(acc + f(xs[0]), xs[1..], f)
  }

  // ---------------------------------------------------------------------------
  // Sums
  // ---------------------------------------------------------------------------

  lemma {:induction false} SumAppend<T>(a: seq<T>, b: seq<T>, f: T -> int)
    ensures Sum(a + b, f) == Sum(a, f) + Sum(b, f)
    decreases |a|
  {
    if |a| > 0 {
      assert (a + b)[1..] == a[1..] + b;
      SumAppend(a[1..], b, f);
    } else {
      assert a + b == b;
    }
  }

  /** Replacing one element changes the sum by the difference of the two values. */
  lemma {:induction false} SumReplace<T>(xs: seq<T>, i: nat, y: T, f: T -> int)
    requires i < |xs|
    ensures Sum(xs[i := y], f) == Sum(xs, f) - f(xs[i]) + f(y)
    decreases |xs|
  {
    if i > 0 {
      assert xs[i := y][1..] == xs[1..][i - 1 := y];
      SumReplace(xs[1..], i - 1, y, f);
    } else {
      assert xs[i := y][1..] == xs[1..];
    }
  }

  /** Two sequences whose elements agree pointwise on the summed values have equal sums. */
  lemma {:induction false} SumPointwise<T, U>(xs: seq<T>, f: T -> int, ys: seq<U>, g: U -> int)
    requires |xs| == |ys|
    requires forall i :: 0 <= i < |xs| ==> f(xs[i]) == g(ys[i])
    ensures Sum(xs, f) == Sum(ys, g)
    decreases |xs|
  {
    if |xs| > 0 {
      SumPointwise(xs[1..], f, ys[1..], g);
    }
  }

  /** Filtering by `p` and by its complement splits the sum in two. */
  lemma {:induction false} SumFilterSplit<T>(xs: seq<T>, p: T -> bool, q: T -> bool, f: T -> int)
    requires forall x :: q(x) == !p(x)
    ensures Sum(Filter(xs, p), f) + Sum(Filter(xs, q), f) == Sum(xs, f)
    decreases |xs|
  {
    if |xs| > 0 {
      var hp := if p(xs[0]) then [xs[0]] else [];
      var hq := if q(xs[0]) then [xs[0]] else [];
      SumAppend(hp, Filter(xs[1..], p), f);
      SumAppend(hq, Filter(xs[1..], q), f);
      SumFilterSplit(xs[1..], p, q, f);
    }
  }

  /** Replacing one element changes the filtered sum by what each value contributes. */
  lemma {:induction false} SumFilterReplace<T>(xs: seq<T>, i: nat, y: T, p: T -> bool, f: T -> int)
    requires i < |xs|
    ensures Sum(Filter(xs[i := y], p), f)
         == Sum(Filter(xs, p), f) - (if p(xs[i]) then f(xs[i]) else 0) + (if p(y) then f(y) else 0)
    decreases |xs|
  {
    var h := if p(xs[0]) then [xs[0]] else [];
    SumAppend(h, Filter(xs[1..], p), f);
    if i > 0 {
      assert xs[i := y][1..] == xs[1..][i - 1 := y];
      SumFilterReplace(xs[1..], i - 1, y, p, f);
      SumAppend(h, Filter(xs[i := y][1..], p), f);
    } else {
      var h' := if p(y) then [y] else [];
      assert xs[i := y][1..] == xs[1..];
      SumAppend(h', Filter(xs[1..], p), f);
    }
  }

  // ---------------------------------------------------------------------------
  // Filter
  // ---------------------------------------------------------------------------

  /** Filtering distributes over concatenation, so relative order is kept. */
  lemma {:induction false} FilterAppend<T>(a: seq<T>, b: seq<T>, p: T -> bool)
    ensures Filter(a + b, p) == Filter(a, p) + Filter(b, p)
    decreases |a|
  {
    if |a| > 0 {
      assert (a + b)[1..] == a[1..] + b;
      FilterAppend(a[1..], b, p);
    } else {
      assert a + b == b;
    }
  }

  /** When every element passes, filtering changes nothing. */
  lemma {:induction false} FilterKeepsAll<T>(xs: seq<T>, p: T -> bool)
    requires forall i :: 0 <= i < |xs| ==> p(xs[i])
    ensures Filter(xs, p) == xs
    decreases |xs|
  {
    if |xs| > 0 {
      FilterKeepsAll(xs[1..], p);
    }
  }

  /**
   Filtering keeps every passing element as often as it occurs and drops every
   failing one, so duplicates survive together.
   */
  lemma {:induction false} FilterCounts<T>(xs: seq<T>, p: T -> bool)
    ensures forall x :: multiset(Filter(xs, p))[x] == if p(x) then multiset(xs)[x] else 0
    decreases |xs|
  {
    if |xs| > 0 {
      FilterCounts(xs[1..], p);
      assert xs == [xs[0]] + xs[1..];
    }
  }

  lemma FilterIdempotent<T>(xs: seq<T>, p: T -> bool)
    ensures Filter(Filter(xs, p), p) == Filter(xs, p)
  {
    var r := Filter(xs, p);
    forall i | 0 <= i < |r|
      ensures p(r[i])
    {
      assert r[i] in r;
    }
    FilterKeepsAll(r, p);
  }

  // ---------------------------------------------------------------------------
  // Delete: RemoveAll
  // ---------------------------------------------------------------------------

  /** Delete lowers a sum by the contribution of every element carrying the key. */
  lemma {:induction false} SumRemoveAll<T, K>(xs: seq<T>, key: T -> K, k: K, f: T -> int)
    ensures Sum(RemoveAll(xs, key, k), f) == Sum(xs, f) - SumKey(xs, key, k, f)
    decreases |xs|
  {
    if |xs| > 0 {
      SumRemoveAll(xs[1..], key, k, f);
      var head := if key(xs[0]) != k then [xs[0]] else [];
      assert RemoveAll(xs, key, k) == head + RemoveAll(xs[1..], key, k);
      SumAppend(head, RemoveAll(xs[1..], key, k), f);
    }
  }

  /** Removing a key that no element carries is a no-op. */
  lemma RemoveAllAbsent<T, K>(xs: seq<T>, key: T -> K, k: K)
    requires forall i :: 0 <= i < |xs| ==> key(xs[i]) != k
    ensures RemoveAll(xs, key, k) == xs
  {
    FilterKeepsAll(xs, x => key(x) != k);
  }

  /** Removing twice is removing once. */
  lemma RemoveAllIdempotent<T, K>(xs: seq<T>, key: T -> K, k: K)
    ensures RemoveAll(RemoveAll(xs, key, k), key, k) == RemoveAll(xs, key, k)
  {
    FilterIdempotent(xs, x => key(x) != k);
  }

  /** Removing from a concatenation removes from each part: the survivors keep their order. */
  lemma RemoveAllAppend<T, K>(a: seq<T>, b: seq<T>, key: T -> K, k: K)
    ensures RemoveAll(a + b, key, k) == RemoveAll(a, key, k) + RemoveAll(b, key, k)
  {
    FilterAppend(a, b, x => key(x) != k);
  }

  /** Deleting a key and filtering by a predicate can be done in either order. */
  lemma {:induction false} FilterRemoveAllCommute<T, K>(xs: seq<T>, p: T -> bool, key: T -> K, k: K)
    ensures Filter(RemoveAll(xs, key, k), p) == RemoveAll(Filter(xs, p), key, k)
    decreases |xs|
  {
    if |xs| > 0 {
      var head, tail := [xs[0]], xs[1..];
      assert xs == head + tail;
      FilterRemoveAllCommute(tail, p, key, k);
      RemoveAllAppend(head, tail, key, k);
      FilterAppend(head, tail, p);
      FilterAppend(RemoveAll(head, key, k), RemoveAll(tail, key, k), p);
      RemoveAllAppend(Filter(head, p), Filter(tail, p), key, k);
      assert Filter(RemoveAll(head, key, k), p) == RemoveAll(Filter(head, p), key, k);
    }
  }

  /** The length drops by exactly the number of elements carrying the key. */
  lemma {:induction false} RemoveAllLength<T, K>(xs: seq<T>, key: T -> K, k: K)
    ensures |RemoveAll(xs, key, k)| == |xs| - CountKey(xs, key, k)
    decreases |xs|
  {
    if |xs| > 0 {
      RemoveAllLength(xs[1..], key, k);
    }
  }

  /** With exactly one element carrying the key, delete cuts out just that element. */
  lemma RemoveAllSingle<T, K>(xs: seq<T>, key: T -> K, k: K, i: nat)
    requires i < |xs| && key(xs[i]) == k
    requires forall j :: 0 <= j < |xs| && j != i ==> key(xs[j]) != k
    ensures RemoveAll(xs, key, k) == xs[..i] + xs[i + 1..]
    ensures |RemoveAll(xs, key, k)| == |xs| - 1
  {
    var before, after := xs[..i], xs[i + 1..];
    assert xs == (before + [xs[i]]) + after;
    assert RemoveAll(before, key, k) == before by {
      RemoveAllAbsent(before, key, k);
    }
    assert RemoveAll(after, key, k) == after by {
      assert forall j :: 0 <= j < |after| ==> after[j] == xs[i + 1 + j];
      RemoveAllAbsent(after, key, k);
    }
    assert RemoveAll(before + [xs[i]], key, k) == before by {
      RemoveAllAppend(before, [xs[i]], key, k);
      RemoveAllOfMatch(xs[i], key, k);
    }
    RemoveAllAppend(before + [xs[i]], after, key, k);
  }

  lemma RemoveAllOfMatch<T, K>(x: T, key: T -> K, k: K)
    requires key(x) == k
    ensures RemoveAll([x], key, k) == []
  {
  }

  /** Deleting the key of an element just appended under a fresh key undoes the append. */
  lemma RemoveAllUndoesAppend<T, K>(xs: seq<T>, x: T, key: T -> K)
    requires forall i :: 0 <= i < |xs| ==> key(xs[i]) != key(x)
    ensures RemoveAll(xs + [x], key, key(x)) == xs
  {
    RemoveAllAppend(xs, [x], key, key(x));
    RemoveAllAbsent(xs, key, key(x));
    assert RemoveAll([x], key, key(x)) == [];
  }

  // ---------------------------------------------------------------------------
  // Update touches the first match only; delete removes every match.
  // ---------------------------------------------------------------------------

  /** Elements after the first match that share its key are left as they were. */
  lemma ReplaceFirstSparesLaterDuplicates<T, K>(xs: seq<T>, key: T -> K, k: K, f: T -> T, j: nat)
    requires j < |xs| && key(xs[j]) == k
    requires exists i :: 0 <= i < j && key(xs[i]) == k
    ensures ReplaceFirst(xs, key, k, f)[j] == xs[j]
  {
  }

  /** An update that keeps the key leaves every duplicate in place; a delete leaves none. */
  lemma {:induction false} UpdateKeepsDuplicatesDeleteDropsThem<T, K>(xs: seq<T>, key: T -> K, k: K, f: T -> T)
    requires forall x :: key(f(x)) == key(x)
    ensures CountKey(ReplaceFirst(xs, key, k, f), key, k) == CountKey(xs, key, k)
    ensures CountKey(RemoveAll(xs, key, k), key, k) == 0
    decreases |xs|
  {
    if |xs| > 0 {
      UpdateKeepsDuplicatesDeleteDropsThem(xs[1..], key, k, f);
      var r := ReplaceFirst(xs, key, k, f);
      if key(xs[0]) == k {
        assert r == [f(xs[0])] + xs[1..];
        assert r[1..] == xs[1..];
      } else {
        assert ReplaceFirst(xs, key, k, f) == [xs[0]] + ReplaceFirst(xs[1..], key, k, f);
      }
      CountKeyNone(RemoveAll(xs, key, k), key, k);
    }
  }

  /** A sequence with no element carrying the key counts zero of them. */
  lemma {:induction false} CountKeyNone<T, K>(xs: seq<T>, key: T -> K, k: K)
    requires forall i :: 0 <= i < |xs| ==> key(xs[i]) != k
    ensures CountKey(xs, key, k) == 0
    decreases |xs|
  {
    if |xs| > 0 {
      CountKeyNone(xs[1..], key, k);
    }
  }
}
