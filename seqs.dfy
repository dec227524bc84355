/** Sequence helpers standing in for Python's list, set and Counter idioms. */
module Seqs {

  /** Python's `sum(xs)` over reals. */
  function Sum(s: seq<real>): real
    decreases |s|
  {
    if s == [] then 0.0 else s[0] + Sum(s[1..])
  }

  lemma {:induction false} SumAppend(a: seq<real>, b: seq<real>)
    ensures Sum(a + b) == Sum(a) + Sum(b)
    decreases |a|
  {
    if a != [] {
      assert (a + b)[1..] == a[1..] + b;
      SumAppend(a[1..], b);
    } else {
      assert a + b == b;
    }
  }

  lemma SumSnoc(s: seq<real>, x: real)
    ensures Sum(s + [x]) == Sum(s) + x
  {
    SumAppend(s, [x]);
  }

  /** A sequence of zeros sums to zero. */
  lemma {:induction false} SumZeros(n: nat)
    ensures Sum(seq(n, _ => 0.0)) == 0.0
    decreases n
  {
    if n > 0 {
      assert seq(n, _ => 0.0)[1..] == seq(n - 1, _ => 0.0);
      SumZeros(n - 1);
    }
  }

  /** Dividing every element by `d` divides the sum by `d`. */
  lemma {:induction false} SumScaled(s: seq<real>, d: real)
    requires d != 0.0
    ensures Sum(seq(|s|, i requires 0 <= i < |s| => s[i] / d)) == Sum(s) / d
    decreases |s|
  {
    var t := seq(|s|, i requires 0 <= i < |s| => s[i] / d);
    if s != [] {
      assert t[1..] == seq(|s[1..]|, i requires 0 <= i < |s[1..]| => s[1..][i] / d);
      SumScaled(s[1..], d);
    }
  }

  /** Every element positive and the sequence non-empty gives a positive sum. */
  lemma {:induction false} SumPositive(s: seq<real>)
    requires s != []
    requires forall i :: 0 <= i < |s| ==> s[i] > 0.0
    ensures Sum(s) > 0.0
    decreases |s|
  {
    if |s| > 1 {
      SumPositive(s[1..]);
    }
  }

  /** The elements of `s` as a set (Python's `set(xs)`). */
  function Elems<T>(s: seq<T>): set<T> {
    set x | x in s
  }

  predicate NoDups<T(==)>(s: seq<T>) {
    forall i, j :: 0 <= i < j < |s| ==> s[i] != s[j]
  }

  /**
   * Python's `tags.add(x)` on a set kept in its iteration order: a new element is placed last,
   * an element already present changes nothing.
   */
  function AddUnique<T(==)>(s: seq<T>, x: T): seq<T> {
    if x in s then s else s + [x]
  }

  lemma AddUniqueProps<T>(s: seq<T>, x: T)
    requires NoDups(s)
    ensures NoDups(AddUnique(s, x))
    ensures Elems(AddUnique(s, x)) == Elems(s) + {x}
    ensures AddUnique(AddUnique(s, x), x) == AddUnique(s, x)
  {
  }

  /** How often `x` occurs in `s` (a Counter entry). */
  function Count<T(==)>(s: seq<T>, x: T): nat {
    multiset(s)[x]
  }

  /** The distinct elements of `s` in order of first appearance (a Counter's or dict's key order). */
  function Distinct<T(==)>(s: seq<T>): seq<T>
    decreases |s|
  {
    if s == [] then []
    else
      var d := Distinct(s[..|s| - 1]);
      if s[|s| - 1] in d then d else d + [s[|s| - 1]]
  }

  lemma {:induction false} DistinctProps<T>(s: seq<T>)
    ensures NoDups(Distinct(s))
    ensures forall x :: x in Distinct(s) <==> x in s
    ensures |Distinct(s)| <= |s|
    ensures s != [] ==> |Distinct(s)| >= 1
    decreases |s|
  {
    if s != [] {
      var init := s[..|s| - 1];
      DistinctProps(init);
      assert s == init + [s[|s| - 1]];
    }
  }

  /** Sum over `keys` of the number of times each occurs in `s`. */
  function CountsSum<T(==)>(keys: seq<T>, s: seq<T>): nat
    decreases |keys|
  {
    if keys == [] then 0 else Count(s, keys[0]) + CountsSum(keys[1..], s)
  }

  lemma {:induction false} CountsSumAppend<T>(a: seq<T>, b: seq<T>, s: seq<T>)
    ensures CountsSum(a + b, s) == CountsSum(a, s) + CountsSum(b, s)
    decreases |a|
  {
    if a != [] {
      assert (a + b)[1..] == a[1..] + b;
      CountsSumAppend(a[1..], b, s);
    } else {
      assert a + b == b;
    }
  }

  /** Adding one occurrence of `x` to `s` raises the key sum by one when `x` is a key listed once. */
  lemma {:induction false} CountsSumSnoc<T>(keys: seq<T>, s: seq<T>, x: T)
    requires NoDups(keys)
    ensures CountsSum(keys, s + [x]) == CountsSum(keys, s) + (if x in keys then 1 else 0)
    decreases |keys|
  {
    if keys != [] {
      assert multiset(s + [x]) == multiset(s) + multiset{x};
      CountsSumSnoc(keys[1..], s, x);
      assert x in keys <==> (x == keys[0] || x in keys[1..]);
    }
  }

  /** A histogram loses nothing: the counts of the distinct elements add up to the length. */
  lemma {:induction false} HistogramTotal<T>(s: seq<T>)
    ensures CountsSum(Distinct(s), s) == |s|
    decreases |s|
  {
    if s != [] {
      var init, x := s[..|s| - 1], s[|s| - 1];
      assert s == init + [x];
      HistogramTotal(init);
      DistinctProps(init);
      var d := Distinct(init);
      CountsSumSnoc(d, init, x);
      if x !in d {
        CountsSumAppend(d, [x], s);
        assert x !in init;
        assert multiset(s)[x] == multiset(init)[x] + 1;
        assert CountsSum([x], s) == Count(s, x);
      }
    }
  }

  predicate Descending(s: seq<real>) {
    forall i, j :: 0 <= i < j < |s| ==> s[i] >= s[j]
  }

  /** Places `x` into a descending sequence, after every element not smaller than it. */
  function InsertDesc(x: real, s: seq<real>): seq<real>
    decreases |s|
  {
    if s == [] || x > s[0] then [x] + s else [s[0]] + InsertDesc(x, s[1..])
  }

  /** Python's `sorted(xs, reverse=True)` on reals. */
  function SortDesc(s: seq<real>): seq<real>
    decreases |s|
  {
    if s == [] then [] else InsertDesc(s[0], SortDesc(s[1..]))
  }

  lemma {:induction false} InsertDescSorted(x: real, s: seq<real>)
    requires Descending(s)
    ensures Descending(InsertDesc(x, s))
    ensures |InsertDesc(x, s)| == |s| + 1
    ensures forall k :: 0 <= k < |InsertDesc(x, s)| ==> InsertDesc(x, s)[k] == x || InsertDesc(x, s)[k] in s
    decreases |s|
  {
    if s != [] && x <= s[0] {
      InsertDescSorted(x, s[1..]);
    }
  }

  lemma {:induction false} InsertDescPerm(x: real, s: seq<real>)
    ensures multiset(InsertDesc(x, s)) == multiset(s) + multiset{x}
    ensures Sum(InsertDesc(x, s)) == x + Sum(s)
    decreases |s|
  {
    if s != [] && x <= s[0] {
      InsertDescPerm(x, s[1..]);
      assert s == [s[0]] + s[1..];
    }
  }

  /** Sorting yields a descending permutation of the input with the same sum. */
  lemma {:induction false} SortDescProps(s: seq<real>)
    ensures Descending(SortDesc(s))
    ensures multiset(SortDesc(s)) == multiset(s)
    ensures |SortDesc(s)| == |s|
    ensures Sum(SortDesc(s)) == Sum(s)
    decreases |s|
  {
    if s != [] {
      SortDescProps(s[1..]);
      InsertDescSorted(s[0], SortDesc(s[1..]));
      InsertDescPerm(s[0], SortDesc(s[1..]));
      assert s == [s[0]] + s[1..];
    }
  }

  predicate Ascending(s: seq<real>) {
    forall i, j :: 0 <= i < j < |s| ==> s[i] <= s[j]
  }

  /** Places `x` into an ascending sequence, before every element not smaller than it. */
  function InsertAsc(x: real, s: seq<real>): seq<real>
    decreases |s|
  {
    if s == [] || x <= s[0] then [x] + s else [s[0]] + InsertAsc(x, s[1..])
  }

  /** Python's `sorted(xs)` on reals. */
  function SortAsc(s: seq<real>): seq<real>
    decreases |s|
  {
    if s == [] then [] else InsertAsc(s[0], SortAsc(s[1..]))
  }

  lemma {:induction false} InsertAscSorted(x: real, s: seq<real>)
    requires Ascending(s)
    ensures Ascending(InsertAsc(x, s))
    ensures |InsertAsc(x, s)| == |s| + 1
    ensures forall k :: 0 <= k < |InsertAsc(x, s)| ==> InsertAsc(x, s)[k] == x || InsertAsc(x, s)[k] in s
    decreases |s|
  {
    if s != [] && x > s[0] {
      InsertAscSorted(x, s[1..]);
    }
  }

  lemma {:induction false} InsertAscPerm(x: real, s: seq<real>)
    ensures multiset(InsertAsc(x, s)) == multiset(s) + multiset{x}
    decreases |s|
  {
    if s != [] && x > s[0] {
      InsertAscPerm(x, s[1..]);
      assert s == [s[0]] + s[1..];
    }
  }

  /** Sorting yields an ascending permutation of the input. */
  lemma {:induction false} SortAscProps(s: seq<real>)
    ensures Ascending(SortAsc(s))
    ensures multiset(SortAsc(s)) == multiset(s)
    ensures |SortAsc(s)| == |s|
    decreases |s|
  {
    if s != [] {
      SortAscProps(s[1..]);
      InsertAscSorted(s[0], SortAsc(s[1..]));
      InsertAscPerm(s[0], SortAsc(s[1..]));
      assert s == [s[0]] + s[1..];
    }
  }

  /** The smallest element of a non-empty sequence (Python's `min`). */
  function Min(s: seq<real>): (m: real)
    requires s != []
    ensures m in s
    ensures forall i :: 0 <= i < |s| ==> m <= s[i]
    decreases |s|
  {
    if |s| == 1 then s[0]
    else
      var rest := Min(s[1..]);
      if s[0] <= rest then s[0] else rest
  }

  /** The largest element of a non-empty sequence (Python's `max`). */
  function Max(s: seq<real>): (m: real)
    requires s != []
    ensures m in s
    ensures forall i :: 0 <= i < |s| ==> s[i] <= m
    decreases |s|
  {
    if |s| == 1 then s[0]
    else
      var rest := Max(s[1..]);
      if s[0] >= rest then s[0] else rest
  }

  /** A sum never exceeds the length times an upper bound of the elements. */
  lemma {:induction false} SumAtMostBound(s: seq<real>, m: real)
    requires forall i :: 0 <= i < |s| ==> s[i] <= m
    ensures Sum(s) <= |s| as real * m
    decreases |s|
  {
    if s != [] {
      var n := (|s| - 1) as real;
      SumAtMostBound(s[1..], m);
      assert Sum(s[1..]) <= n * m;
      Distrib(n, m);
    }
  }

  lemma Distrib(n: real, m: real)
    ensures m + n * m == (n + 1.0) * m
  {
  }

  lemma ScaleMono(c: real, a: real, b: real)
    requires c >= 0.0 && a <= b
    ensures c * a <= c * b
  {
  }

  /** A Counter over `s`: each element that occurs, mapped to its number of occurrences. */
  function Tally<T(==)>(s: seq<T>): map<T, nat> {
    map x | x in Elems(s) :: Count(s, x)
  }

  lemma TallySnoc<T>(s: seq<T>, x: T)
    ensures Tally(s + [x]) == Tally(s)[x := Count(s, x) + 1]
  {
    assert multiset(s + [x]) == multiset(s) + multiset{x};
    assert Elems(s + [x]) == Elems(s) + {x};
  }

  lemma DistinctSnoc<T>(s: seq<T>, x: T)
    ensures Distinct(s + [x]) == if x in Distinct(s) then Distinct(s) else Distinct(s) + [x]
  {
    assert (s + [x])[..|s|] == s;
  }

  /** An average is at most any upper bound of the elements. */
  lemma AverageAtMostBound(s: seq<real>, m: real)
    requires s != []
    requires forall i :: 0 <= i < |s| ==> s[i] <= m
    ensures Sum(s) / |s| as real <= m
  {
    SumAtMostBound(s, m);
    DivideBound(Sum(s), |s| as real, m);
  }

  lemma DivideBound(s: real, n: real, m: real)
    requires n > 0.0 && s <= n * m
    ensures s / n <= m
  {
  }

  /** Parts of a positive total, each divided by the total, add up to 1. */
  lemma SharesSumToOne(parts: seq<real>, total: real)
    requires total > 0.0 && Sum(parts) == total
    ensures Sum(seq(|parts|, i requires 0 <= i < |parts| => parts[i] / total)) == 1.0
  {
    SumScaled(parts, total);
  }

  /** An element that occurs is counted at least once and at most |s| times. */
  lemma CountBounds<T>(s: seq<T>, x: T)
    requires x in s
    ensures 1 <= Count(s, x) <= |s|
  {
    assert |multiset(s)| == |s|;
    assert multiset(s)[x] <= |multiset(s)|;
  }

  /** In a sequence without repeats every element is counted once. */
  lemma {:induction false} NoDupsCount<T>(s: seq<T>, x: T)
    requires NoDups(s)
    ensures Count(s, x) == if x in s then 1 else 0
    decreases |s|
  {
    if s != [] {
      var init := s[..|s| - 1];
      assert s == init + [s[|s| - 1]];
      assert NoDups(init);
      NoDupsCount(init, x);
      assert s[|s| - 1] !in init;
    }
  }

  /** One step of counting `x` into a Counter that holds the elements of `s`. */
  lemma CounterStep<T>(keys: seq<T>, counts: map<T, nat>, s: seq<T>, x: T)
    requires keys == Distinct(s) && counts == Tally(s)
    ensures x in counts <==> x in keys
    ensures x in counts ==> Distinct(s + [x]) == keys && Tally(s + [x]) == counts[x := counts[x] + 1]
    ensures x !in counts ==> Distinct(s + [x]) == keys + [x] && Tally(s + [x]) == counts[x := 1]
  {
    DistinctProps(s);
    DistinctSnoc(s, x);
    TallySnoc(s, x);
    if x !in counts {
      assert x !in s;
      assert Count(s, x) == 0;
    }
  }

  /** `keys` and `counts` are the key order and the counts of a Counter over the elements of `s`. */
  predicate Counts<T(==)>(keys: seq<T>, counts: map<T, nat>, s: seq<T>) {
    keys == Distinct(s) && counts == Tally(s)
  }

  /** `counter[x] += 1` on a Counter that so far holds the elements of `seen`. */
  method CountOne<T>(keys: seq<T>, counts: map<T, nat>, x: T, ghost seen: seq<T>)
    returns (keys': seq<T>, counts': map<T, nat>)
    requires Counts(keys, counts, seen)
    ensures Counts(keys', counts', seen + [x])
  {
    CounterStep(keys, counts, seen, x);
    if x in counts {
      keys', counts' := keys, counts[x := counts[x] + 1];
    } else {
      keys', counts' := keys + [x], counts[x := 1];
    }
  }

  /** `counter.update(xs)` on a Counter that so far holds the elements of `seen`. */
  method CountInto<T>(keys: seq<T>, counts: map<T, nat>, xs: seq<T>, ghost seen: seq<T>)
    returns (keys': seq<T>, counts': map<T, nat>)
    requires Counts(keys, counts, seen)
    ensures Counts(keys', counts', seen + xs)
  {
    keys', counts' := keys, counts;
    var j := 0;
    assert seen + xs[..0] == seen;
    while j < |xs|
      invariant 0 <= j <= |xs|
      invariant Counts(keys', counts', seen + xs[..j])
    {
      ghost var sofar := seen + xs[..j];
      keys', counts' := CountOne(keys', counts', xs[j], sofar);
      assert seen + xs[..j + 1] == sofar + [xs[j]];
      j := j + 1;
    }
    assert xs[..|xs|] == xs;
  }

}
