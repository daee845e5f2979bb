/**
 * Sequence operations the source takes from pandas and Python: keep-first
 * de-duplication (`unique()`, `drop_duplicates()`), sorting by a comparison
 * (`sort_values`, `list.sort`, `pivot_table`'s sorted axes) and Python's
 * code-point order on strings.
 */
module Collections {

  /** No element occurs twice. */
  predicate Distinct<T(==)>(xs: seq<T>) {
    forall i, j :: 0 <= i < j < |xs| ==> xs[i] != xs[j]
  }

  /**
   * Keep-first de-duplication: every element of `xs`, once, in the order of
   * its first occurrence.
   */
  function Dedup<T(==,!new)>(xs: seq<T>): (r: seq<T>)
    ensures Distinct(r)
    ensures forall x :: x in r <==> x in xs
    ensures |r| <= |xs|
    ensures forall i, j :: 0 <= i < j < |r| ==> IndexOf(xs, r[i]) < IndexOf(xs, r[j])
  {
    if |xs| == 0 then []
    else
      var init, x := xs[..|xs| - 1], xs[|xs| - 1];
      var d := Dedup(init);
      assert forall y :: y in xs <==> y in init || y == x;
      assert xs == init + [x];
      IndexOfSnoc(init, x);
      if x in d then d else d + [x]
  }

  /** A sequence that is already duplicate-free is its own de-duplication. */
  lemma {:induction false} DedupDistinct<T(!new)>(xs: seq<T>)
    requires Distinct(xs)
    ensures Dedup(xs) == xs
  {
    if |xs| > 0 {
      var init := xs[..|xs| - 1];
      DedupDistinct(init);
      assert xs[|xs| - 1] !in init;
      assert init + [xs[|xs| - 1]] == xs;
    }
  }

  /** A distinct sequence holds each value at most once. */
  lemma {:induction false} DistinctCount<T>(xs: seq<T>, v: T)
    requires Distinct(xs)
    ensures multiset(xs)[v] <= 1
  {
    if |xs| > 0 {
      var init := xs[..|xs| - 1];
      DistinctCount(init, v);
      assert xs == init + [xs[|xs| - 1]];
      if xs[|xs| - 1] == v {
        assert v !in init;
        assert multiset(init)[v] == 0;
      }
    }
  }

  /** Reordering a distinct sequence keeps it distinct. */
  lemma DistinctPermutation<T>(xs: seq<T>, ys: seq<T>)
    requires Distinct(xs) && multiset(xs) == multiset(ys)
    ensures Distinct(ys)
  {
    forall i, j | 0 <= i < j < |ys| ensures ys[i] != ys[j] {
      if ys[i] == ys[j] {
        var v := ys[i];
        assert ys == ys[..j] + [v] + ys[j + 1..];
        assert v in ys[..j];
        assert multiset(ys)[v] >= 2;
        DistinctCount(xs, v);
        assert false;
      }
    }
  }

  /** The position of the first occurrence of `x` (a lookup by label). */
  function IndexOf<T(==)>(xs: seq<T>, x: T): (i: nat)
    requires x in xs
    ensures i < |xs| && xs[i] == x
    ensures forall k :: 0 <= k < i ==> xs[k] != x
  {
    if xs[0] == x then 0 else 1 + IndexOf(xs[1..], x)
  }

  /** Appending an element moves no first occurrence; a new element is found at the end. */
  lemma {:induction false} IndexOfSnoc<T>(xs: seq<T>, x: T)
    ensures forall y :: y in xs ==> IndexOf(xs + [x], y) == IndexOf(xs, y)
    ensures x !in xs ==> IndexOf(xs + [x], x) == |xs|
  {
    if |xs| > 0 {
      IndexOfSnoc(xs[1..], x);
      assert (xs + [x])[1..] == xs[1..] + [x];
      assert forall y :: y in xs && y != xs[0] ==> y in xs[1..];
    }
  }

  /** `le` is total and transitive: a sort key comparison. */
  ghost predicate TotalPreorder<T(!new)>(le: (T, T) -> bool) {
    (forall a, b :: le(a, b) || le(b, a))
    && (forall a, b, c :: le(a, b) && le(b, c) ==> le(a, c))
  }

  predicate SortedBy<T>(xs: seq<T>, le: (T, T) -> bool) {
    forall i, j :: 0 <= i < j < |xs| ==> le(xs[i], xs[j])
  }

  /**
   * Inserts `x` into a sorted sequence after every element it does not
   * precede, so that equal keys keep their arrival order.
   */
  function InsertBy<T(!new)>(ys: seq<T>, x: T, le: (T, T) -> bool): (r: seq<T>)
    requires TotalPreorder(le) && SortedBy(ys, le)
    ensures SortedBy(r, le)
    ensures multiset(r) == multiset(ys) + multiset{x}
    ensures |r| == |ys| + 1
  {
    if |ys| == 0 then [x]
    else if le(ys[|ys| - 1], x) then ys + [x]
    else
      var r' := InsertBy(ys[..|ys| - 1], x, le);
      InsertBeforeLast(ys, x, r', le);
      r' + [ys[|ys| - 1]]
  }

  /** The recursive case of `InsertBy`: the last element stays last. */
  lemma InsertBeforeLast<T(!new)>(ys: seq<T>, x: T, r': seq<T>, le: (T, T) -> bool)
    requires TotalPreorder(le) && SortedBy(ys, le) && |ys| > 0 && !le(ys[|ys| - 1], x)
    requires SortedBy(r', le) && multiset(r') == multiset(ys[..|ys| - 1]) + multiset{x}
    ensures SortedBy(r' + [ys[|ys| - 1]], le)
    ensures multiset(r' + [ys[|ys| - 1]]) == multiset(ys) + multiset{x}
  {
    var init, last := ys[..|ys| - 1], ys[|ys| - 1];
    assert ys == init + [last];
    assert le(x, last);
    forall k | 0 <= k < |r'| ensures le(r'[k], last) {
      var y := r'[k];
      assert y in multiset(r');
      if y != x {
        assert y in multiset(init);
        assert y in init;
        var m :| 0 <= m < |init| && init[m] == y;
        assert ys[m] == y;
      }
    }
    var r := r' + [last];
    forall i, j | 0 <= i < j < |r| ensures le(r[i], r[j]) {
      if j < |r'| {
        assert r[i] == r'[i] && r[j] == r'[j];
      } else {
        assert r[i] == r'[i] && r[j] == last;
      }
    }
  }

  /** A stable insertion sort by the comparison `le`. */
  function SortBy<T(!new)>(xs: seq<T>, le: (T, T) -> bool): (r: seq<T>)
    requires TotalPreorder(le)
    ensures SortedBy(r, le)
    ensures multiset(r) == multiset(xs)
    ensures |r| == |xs|
  {
    if |xs| == 0 then []
    else
      assert xs == xs[..|xs| - 1] + [xs[|xs| - 1]];
      InsertBy(SortBy(xs[..|xs| - 1], le), xs[|xs| - 1], le)
  }

  /** Sorting a sequence that is already in order leaves it unchanged. */
  lemma {:induction false} SortSortedFixpoint<T(!new)>(xs: seq<T>, le: (T, T) -> bool)
    requires TotalPreorder(le) && SortedBy(xs, le)
    ensures SortBy(xs, le) == xs
  {
    if |xs| > 0 {
      var init, x := xs[..|xs| - 1], xs[|xs| - 1];
      assert SortedBy(init, le) && (|init| == 0 || le(init[|init| - 1], x));
      assert SortBy(init, le) == init by {
        SortSortedFixpoint(init, le);
      }
      assert SortBy(xs, le) == InsertBy(init, x, le) by {
        SortByStep(xs, le);
      }
      InsertByAtEnd(init, x, le);
      assert init + [x] == xs;
    }
  }

  /** `a` and `b` have the same sort key. */
  predicate Tied<T>(le: (T, T) -> bool, a: T, b: T) {
    le(a, b) && le(b, a)
  }

  /** The elements of `xs` whose key is that of `k`, in their order in `xs`. */
  function TiedWith<T(!new)>(xs: seq<T>, k: T, le: (T, T) -> bool): (r: seq<T>)
    ensures |r| <= |xs|
  {
    if |xs| == 0 then []
    else
      var init, x := xs[..|xs| - 1], xs[|xs| - 1];
      TiedWith(init, k, le) + (if Tied(le, x, k) then [x] else [])
  }

  /** `TiedWith` keeps exactly the elements of `k`'s key. */
  lemma {:induction false} TiedWithMember<T(!new)>(xs: seq<T>, k: T, le: (T, T) -> bool, y: T)
    ensures y in TiedWith(xs, k, le) <==> y in xs && Tied(le, y, k)
  {
    if |xs| > 0 {
      var init := xs[..|xs| - 1];
      TiedWithMember(init, k, le, y);
      assert xs == init + [xs[|xs| - 1]];
    }
  }

  /** `TiedWith` of a sequence with one more element at the end. */
  lemma TiedWithSnoc<T(!new)>(xs: seq<T>, x: T, k: T, le: (T, T) -> bool)
    ensures TiedWith(xs + [x], k, le) == TiedWith(xs, k, le) + (if Tied(le, x, k) then [x] else [])
  {
    assert (xs + [x])[..|xs|] == xs;
  }

  /** Two elements out of order cannot both have the key of `k`. */
  lemma NotBothTied<T(!new)>(le: (T, T) -> bool, a: T, b: T, k: T)
    requires TotalPreorder(le) && !le(a, b)
    ensures !(Tied(le, a, k) && Tied(le, b, k))
  {
  }

  /** Appending one element to two sequences with the same `TiedWith` keeps them equal. */
  lemma TiedWithSnocCongruent<T(!new)>(a: seq<T>, b: seq<T>, x: T, k: T, le: (T, T) -> bool)
    requires TiedWith(a, k, le) == TiedWith(b, k, le)
    ensures TiedWith(a + [x], k, le) == TiedWith(b + [x], k, le)
  {
    TiedWithSnoc(a, x, k, le);
    TiedWithSnoc(b, x, k, le);
  }

  /** Two trailing elements that do not share `k`'s key may trade places. */
  lemma TiedWithSwapLast<T(!new)>(r: seq<T>, init: seq<T>, last: T, x: T, k: T, le: (T, T) -> bool)
    requires TiedWith(r, k, le) == TiedWith(init + [x], k, le)
    requires !(Tied(le, last, k) && Tied(le, x, k))
    ensures TiedWith(r + [last], k, le) == TiedWith(init + [last] + [x], k, le)
  {
    TiedWithSnoc(r, last, k, le);
    TiedWithSnoc(init, x, k, le);
    TiedWithSnoc(init, last, k, le);
    TiedWithSnoc(init + [last], x, k, le);
  }

  /** The recursive case of `InsertBy`, unfolded once. */
  lemma InsertByStep<T(!new)>(ys: seq<T>, x: T, le: (T, T) -> bool)
    requires TotalPreorder(le) && SortedBy(ys, le) && |ys| > 0 && !le(ys[|ys| - 1], x)
    ensures SortedBy(ys[..|ys| - 1], le)
    ensures InsertBy(ys, x, le) == InsertBy(ys[..|ys| - 1], x, le) + [ys[|ys| - 1]]
  {
  }

  /** The base cases of `InsertBy`: `x` goes at the end. */
  lemma InsertByAtEnd<T(!new)>(ys: seq<T>, x: T, le: (T, T) -> bool)
    requires TotalPreorder(le) && SortedBy(ys, le) && (|ys| == 0 || le(ys[|ys| - 1], x))
    ensures InsertBy(ys, x, le) == ys + [x]
  {
  }

  /** Inserting `x` puts it after every element of the same key. */
  lemma {:induction false} InsertByStable<T(!new)>(ys: seq<T>, x: T, k: T, le: (T, T) -> bool)
    requires TotalPreorder(le) && SortedBy(ys, le)
    ensures TiedWith(InsertBy(ys, x, le), k, le) == TiedWith(ys + [x], k, le)
  {
    if |ys| > 0 && !le(ys[|ys| - 1], x) {
      var init, last := ys[..|ys| - 1], ys[|ys| - 1];
      InsertByStep(ys, x, le);
      var r' := InsertBy(init, x, le);
      assert TiedWith(r', k, le) == TiedWith(init + [x], k, le) by {
        InsertByStable(init, x, k, le);
      }
      assert !(Tied(le, last, k) && Tied(le, x, k)) by {
        NotBothTied(le, last, x, k);
      }
      assert ys == init + [last];
      TiedWithSwapLast(r', init, last, x, k, le);
    } else {
      InsertByAtEnd(ys, x, le);
    }
  }

  /** `SortBy`, unfolded once. */
  lemma SortByStep<T(!new)>(xs: seq<T>, le: (T, T) -> bool)
    requires TotalPreorder(le) && |xs| > 0
    ensures SortBy(xs, le) == InsertBy(SortBy(xs[..|xs| - 1], le), xs[|xs| - 1], le)
  {
  }

  /** Stability: the elements of any one key keep their relative order. */
  lemma {:induction false} SortByStable<T(!new)>(xs: seq<T>, k: T, le: (T, T) -> bool)
    requires TotalPreorder(le)
    ensures TiedWith(SortBy(xs, le), k, le) == TiedWith(xs, k, le)
  {
    if |xs| > 0 {
      var init, x := xs[..|xs| - 1], xs[|xs| - 1];
      SortByStable(init, k, le);
      InsertStable(SortBy(init, le), init, x, k, le);
      SortByStep(xs, le);
    }
  }

  /** Inserting into a sorted sequence that is stable with respect to `init`. */
  lemma InsertStable<T(!new)>(sorted: seq<T>, init: seq<T>, x: T, k: T, le: (T, T) -> bool)
    requires TotalPreorder(le) && SortedBy(sorted, le) && TiedWith(sorted, k, le) == TiedWith(init, k, le)
    ensures TiedWith(InsertBy(sorted, x, le), k, le) == TiedWith(init + [x], k, le)
  {
    InsertByStable(sorted, x, k, le);
    TiedWithSnocCongruent(sorted, init, x, k, le);
  }

  /** The labels `lab` strictly increase along `xs`. */
  predicate LabelsIncrease<T>(xs: seq<T>, lab: T -> int) {
    forall p, q :: 0 <= p < q < |xs| ==> lab(xs[p]) < lab(xs[q])
  }

  /** Picking out one key's elements keeps increasing labels increasing. */
  lemma {:induction false} TiedWithIncreasing<T(!new)>(xs: seq<T>, k: T, le: (T, T) -> bool, lab: T -> int)
    requires LabelsIncrease(xs, lab)
    ensures LabelsIncrease(TiedWith(xs, k, le), lab)
  {
    if |xs| > 0 {
      var init, x := xs[..|xs| - 1], xs[|xs| - 1];
      var ti := TiedWith(init, k, le);
      TiedWithIncreasing(init, k, le, lab);
      forall p | 0 <= p < |ti| ensures lab(ti[p]) < lab(x) {
        TiedWithMember(init, k, le, ti[p]);
        var m :| 0 <= m < |init| && init[m] == ti[p];
        assert xs[m] == ti[p];
      }
    }
  }

  /** Two elements of one key appear in `s` in the order of its key's subsequence. */
  lemma {:induction false} TiedInOrder<T(!new)>(s: seq<T>, k: T, le: (T, T) -> bool, lab: T -> int, i: int, j: int)
    requires 0 <= i < j < |s| && Tied(le, s[i], k) && Tied(le, s[j], k)
    requires LabelsIncrease(TiedWith(s, k, le), lab)
    ensures lab(s[i]) < lab(s[j])
  {
    var init := s[..|s| - 1];
    var ti := TiedWith(init, k, le);
    assert init[i] == s[i];
    if j == |s| - 1 {
      TiedWithMember(init, k, le, s[i]);
      var p :| 0 <= p < |ti| && ti[p] == s[i];
      assert TiedWith(s, k, le) == ti + [s[j]];
      assert TiedWith(s, k, le)[p] == s[i] && TiedWith(s, k, le)[|ti|] == s[j];
    } else {
      assert init[j] == s[j];
      assert TiedWith(s, k, le)[..|ti|] == ti;
      TiedInOrder(init, k, le, lab, i, j);
    }
  }

  /**
   * Stability stated by labels: when `xs` lists its elements with increasing
   * labels, any two elements of the sorted sequence with the same key are
   * still in label order.
   */
  lemma SortByKeepsTiedOrder<T(!new)>(xs: seq<T>, le: (T, T) -> bool, lab: T -> int)
    requires TotalPreorder(le) && LabelsIncrease(xs, lab)
    ensures forall i, j :: 0 <= i < j < |SortBy(xs, le)| && Tied(le, SortBy(xs, le)[i], SortBy(xs, le)[j]) ==>
              lab(SortBy(xs, le)[i]) < lab(SortBy(xs, le)[j])
  {
    var r := SortBy(xs, le);
    forall i, j | 0 <= i < j < |r| && Tied(le, r[i], r[j]) ensures lab(r[i]) < lab(r[j]) {
      var k := r[i];
      assert le(k, k);
      SortByStable(xs, k, le);
      TiedWithIncreasing(xs, k, le, lab);
      TiedInOrder(r, k, le, lab, i, j);
    }
  }

  /** Python's string order: code point by code point, a proper prefix first. */
  predicate StrLe(a: string, b: string) {
    |a| == 0 || (|b| > 0 && (a[0] < b[0] || (a[0] == b[0] && StrLe(a[1..], b[1..]))))
  }

  lemma {:induction false} StrLeTotal(a: string, b: string)
    ensures StrLe(a, b) || StrLe(b, a)
  {
    if |a| > 0 && |b| > 0 && a[0] == b[0] {
      StrLeTotal(a[1..], b[1..]);
    }
  }

  lemma {:induction false} StrLeTransitive(a: string, b: string, c: string)
    requires StrLe(a, b) && StrLe(b, c)
    ensures StrLe(a, c)
  {
    if |a| > 0 && |b| > 0 && |c| > 0 && a[0] == b[0] && b[0] == c[0] {
      StrLeTransitive(a[1..], b[1..], c[1..]);
    }
  }

  lemma {:induction false} StrLeAntisymmetric(a: string, b: string)
    requires StrLe(a, b) && StrLe(b, a)
    ensures a == b
  {
    if |a| > 0 && |b| > 0 {
      StrLeAntisymmetric(a[1..], b[1..]);
      assert a == [a[0]] + a[1..] && b == [b[0]] + b[1..];
    }
  }

  /** Python's string order as a sort comparison. */
  function StringOrder(): (le: (string, string) -> bool)
    ensures TotalPreorder(le)
    ensures forall a, b :: le(a, b) == StrLe(a, b)
  {
    var le := (a: string, b: string) => StrLe(a, b);
    assert forall a, b :: le(a, b) || le(b, a) by {
      forall a, b ensures le(a, b) || le(b, a) { StrLeTotal(a, b); }
    }
    assert forall a, b, c :: le(a, b) && le(b, c) ==> le(a, c) by {
      forall a, b, c | le(a, b) && le(b, c) ensures le(a, c) { StrLeTransitive(a, b, c); }
    }
    le
  }

  /** A string-sorted duplicate-free sequence is strictly increasing. */
  lemma StringSortedStrict(xs: seq<string>, i: int, j: int)
    requires SortedBy(xs, StringOrder()) && Distinct(xs) && 0 <= i < j < |xs|
    ensures StrLe(xs[i], xs[j]) && !StrLe(xs[j], xs[i])
  {
    if StrLe(xs[j], xs[i]) {
      StrLeAntisymmetric(xs[i], xs[j]);
    }
  }
}
