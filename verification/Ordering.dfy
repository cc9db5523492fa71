/** The byte-wise order used by every sort in the Agent, and what sorting by distinct keys
    guarantees: one canonical sequence whatever the order of the input. */
module Ordering {
  import opened Basics

  /** Lexicographic order on bytes, shorter prefix first. */
  predicate Less(a: Bytes, b: Bytes)
    decreases |a|
  {
    b != [] && (a == [] || a[0] < b[0] || (a[0] == b[0] && Less(a[1..], b[1..])))
  }

  lemma {:induction false} LessIrreflexive(a: Bytes)
    ensures !Less(a, a)
    decreases |a|
  {
    if a != [] {
      LessIrreflexive(a[1..]);
    }
  }

  lemma {:induction false} LessTransitive(a: Bytes, b: Bytes, c: Bytes)
    requires Less(a, b) && Less(b, c)
    ensures Less(a, c)
    decreases |a|
  {
    if a != [] && a[0] == b[0] == c[0] {
      LessTransitive(a[1..], b[1..], c[1..]);
    }
  }

  lemma {:induction false} LessTotal(a: Bytes, b: Bytes)
    ensures Less(a, b) || a == b || Less(b, a)
    decreases |a|
  {
    if a != [] && b != [] && a[0] == b[0] {
      LessTotal(a[1..], b[1..]);
      if a[1..] == b[1..] {
        assert a == [a[0]] + a[1..] && b == [b[0]] + b[1..];
      }
    }
  }

  lemma LessAsymmetric(a: Bytes, b: Bytes)
    requires Less(a, b)
    ensures !Less(b, a) && a != b
  {
    LessIrreflexive(a);
    if Less(b, a) {
      LessTransitive(a, b, a);
    }
  }

  /** No later element has a smaller key than an earlier one. */
  ghost predicate SortedBy<T(!new)>(xs: seq<T>, key: T -> Bytes) {
    forall i, j :: 0 <= i < j < |xs| ==> !Less(key(xs[j]), key(xs[i]))
  }

  /** Every element occurs once and no two elements share a key. */
  ghost predicate DistinctKeys<T(!new)>(xs: seq<T>, key: T -> Bytes) {
    && (forall x :: x in xs ==> multiset(xs)[x] == 1)
    && (forall x, y :: x in xs && y in xs && key(x) == key(y) ==> x == y)
  }

  /** Stable insertion: before the first element whose key is not smaller. */
  function InsertBy<T>(x: T, xs: seq<T>, key: T -> Bytes): (r: seq<T>)
    ensures multiset(r) == multiset([x]) + multiset(xs)
  {
    if xs == [] then [x]
    else if Less(key(xs[0]), key(x)) then
      assert xs == [xs[0]] + xs[1..];
      [xs[0]] + InsertBy(x, xs[1..], key)
    else [x] + xs
  }

  /** A stable sort by key. */
  function SortBy<T>(xs: seq<T>, key: T -> Bytes): (r: seq<T>)
    ensures multiset(r) == multiset(xs)
  {
    if xs == [] then []
    else
      assert xs == [xs[0]] + xs[1..];
      InsertBy(xs[0], SortBy(xs[1..], key), key)
  }

  lemma PermutationMembers<T>(xs: seq<T>, ys: seq<T>)
    requires multiset(xs) == multiset(ys)
    ensures |xs| == |ys|
    ensures forall x :: x in xs <==> x in ys
  {
    assert |multiset(xs)| == |xs| && |multiset(ys)| == |ys|;
    forall x ensures x in xs <==> x in ys {
      assert x in xs <==> x in multiset(xs);
      assert x in ys <==> x in multiset(ys);
    }
  }

  lemma {:induction false} InsertKeepsSorted<T(!new)>(x: T, xs: seq<T>, key: T -> Bytes)
    requires SortedBy(xs, key)
    ensures SortedBy(InsertBy(x, xs, key), key)
  {
    if xs != [] {
      if Less(key(xs[0]), key(x)) {
        InsertKeepsSorted(x, xs[1..], key);
        var rest := InsertBy(x, xs[1..], key);
        forall i | 0 <= i < |rest| ensures !Less(key(rest[i]), key(xs[0])) {
          assert rest[i] in multiset(rest);
          assert rest[i] == x || rest[i] in xs[1..];
          LessAsymmetric(key(xs[0]), key(x));
        }
      } else {
        forall j | 0 <= j < |xs| ensures !Less(key(xs[j]), key(x)) {
          if Less(key(xs[j]), key(x)) {
            LessTotal(key(x), key(xs[0]));
            if Less(key(x), key(xs[0])) {
              LessTransitive(key(xs[j]), key(x), key(xs[0]));
            }
          }
        }
      }
    }
  }

  lemma {:induction false} SortSorts<T(!new)>(xs: seq<T>, key: T -> Bytes)
    ensures SortedBy(SortBy(xs, key), key)
  {
    if xs != [] {
      SortSorts(xs[1..], key);
      InsertKeepsSorted(xs[0], SortBy(xs[1..], key), key);
    }
  }

  /** A pairwise key comparison is enough for `DistinctKeys`. */
  lemma {:induction false} DistinctByIndex<T(!new)>(xs: seq<T>, key: T -> Bytes)
    requires forall i, j :: 0 <= i < j < |xs| ==> key(xs[i]) != key(xs[j])
    ensures DistinctKeys(xs, key)
  {
    if xs != [] {
      DistinctByIndex(xs[1..], key);
      assert xs == [xs[0]] + xs[1..];
      assert multiset(xs) == multiset([xs[0]]) + multiset(xs[1..]);
      assert forall y :: y in xs[1..] ==> key(y) != key(xs[0]);
    }
  }

  /** Two sorted arrangements of the same elements with distinct keys are the same sequence. */
  lemma {:induction false} SortedUnique<T(!new)>(xs: seq<T>, ys: seq<T>, key: T -> Bytes)
    requires multiset(xs) == multiset(ys)
    requires SortedBy(xs, key) && SortedBy(ys, key) && DistinctKeys(xs, key)
    ensures xs == ys
  {
    PermutationMembers(xs, ys);
    if xs != [] {
      SameFirst(xs, ys, key);
      TailFacts(xs, key);
      TailMultiset(ys);
      assert SortedBy(ys[1..], key);
      SortedUnique(xs[1..], ys[1..], key);
      assert xs == [xs[0]] + xs[1..];
    }
  }

  lemma TailMultiset<T>(xs: seq<T>)
    requires xs != []
    ensures multiset(xs) == multiset{xs[0]} + multiset(xs[1..])
    ensures multiset(xs[1..]) == multiset(xs) - multiset{xs[0]}
  {
    assert xs == [xs[0]] + xs[1..];
  }

  lemma TailFacts<T(!new)>(xs: seq<T>, key: T -> Bytes)
    requires xs != [] && SortedBy(xs, key) && DistinctKeys(xs, key)
    ensures SortedBy(xs[1..], key) && DistinctKeys(xs[1..], key)
    ensures multiset(xs[1..]) == multiset(xs) - multiset{xs[0]}
  {
    var rest := xs[1..];
    TailMultiset(xs);
    forall x | x in rest ensures multiset(rest)[x] == 1 {
      assert x in xs && x in multiset(rest);
    }
  }

  lemma SameFirst<T(!new)>(xs: seq<T>, ys: seq<T>, key: T -> Bytes)
    requires xs != [] && ys != [] && (forall x :: x in xs <==> x in ys)
    requires SortedBy(xs, key) && SortedBy(ys, key) && DistinctKeys(xs, key)
    ensures xs[0] == ys[0]
  {
    assert xs[0] in xs && ys[0] in ys;
    var i :| 0 <= i < |ys| && ys[i] == xs[0];
    var j :| 0 <= j < |xs| && xs[j] == ys[0];
    LessTotal(key(xs[0]), key(ys[0]));
    LessIrreflexive(key(xs[0]));
  }

  /** Sorting by distinct keys forgets the order of the input. */
  lemma SortIgnoresOrder<T(!new)>(xs: seq<T>, ys: seq<T>, key: T -> Bytes)
    requires multiset(xs) == multiset(ys)
    requires DistinctKeys(xs, key)
    ensures SortBy(xs, key) == SortBy(ys, key)
  {
    SortSorts(xs, key);
    SortSorts(ys, key);
    PermutationMembers(xs, SortBy(xs, key));
    SortedUnique(SortBy(xs, key), SortBy(ys, key), key);
  }
}
