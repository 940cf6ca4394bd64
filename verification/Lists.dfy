/** Sorting by a key, totals, and what makes two lists the same up to order. */
module Lists {
  import opened Common

  /** Inserts after every element whose key is not larger: a stable sort's step. */
  function Insert<T>(s: seq<T>, x: T, key: T -> int): (r: seq<T>)
    ensures multiset(r) == multiset(s) + multiset{x}
  {
    if s == [] || key(s[|s| - 1]) <= key(x) then s + [x]
    else
      var init, last := s[..|s| - 1], s[|s| - 1];
      assert s == init + [last];
      Insert(init, x, key) + [last]
  }

  /** `[...s].sort((a, b) => key(a) - key(b))`. */
  function SortBy<T>(s: seq<T>, key: T -> int): (r: seq<T>)
    ensures multiset(r) == multiset(s)
  {
    if s == [] then []
    else
      assert s == s[..|s| - 1] + [s[|s| - 1]];
      Insert(SortBy(s[..|s| - 1], key), s[|s| - 1], key)
  }

  ghost predicate Sorted<T>(s: seq<T>, key: T -> int) {
    forall i, j | 0 <= i < j < |s| :: key(s[i]) <= key(s[j])
  }

  ghost predicate Increasing<T>(s: seq<T>, key: T -> int) {
    forall i, j | 0 <= i < j < |s| :: key(s[i]) < key(s[j])
  }

  /** No two elements share a key. */
  ghost predicate DistinctBy<T>(s: seq<T>, key: T -> int) {
    forall i, j | 0 <= i < j < |s| :: key(s[i]) != key(s[j])
  }

  lemma {:induction false} InsertSorted<T>(s: seq<T>, x: T, key: T -> int)
    requires Sorted(s, key)
    ensures Sorted(Insert(s, x, key), key)
  {
    if s != [] && key(s[|s| - 1]) > key(x) {
      var init, last := s[..|s| - 1], s[|s| - 1];
      InsertSorted(init, x, key);
      var r := Insert(init, x, key);
      forall i | 0 <= i < |r| ensures key(r[i]) <= key(last) {
        assert r[i] in multiset(r);
        if r[i] != x {
          assert r[i] in init;
        }
      }
    }
  }

  lemma {:induction false} SortBySorts<T>(s: seq<T>, key: T -> int)
    ensures Sorted(SortBy(s, key), key)
  {
    if s != [] {
      SortBySorts(s[..|s| - 1], key);
      InsertSorted(SortBy(s[..|s| - 1], key), s[|s| - 1], key);
    }
  }

  lemma {:induction false} SortedIsFixed<T>(s: seq<T>, key: T -> int)
    requires Sorted(s, key)
    ensures SortBy(s, key) == s
  {
    if s != [] {
      var init, x := s[..|s| - 1], s[|s| - 1];
      SortedIsFixed(init, key);
      hide Insert;
      InsertLast(init, x, key);
      assert s == init + [x];
    }
  }

  lemma InsertLast<T>(s: seq<T>, x: T, key: T -> int)
    requires s != [] ==> key(s[|s| - 1]) <= key(x)
    ensures Insert(s, x, key) == s + [x]
  {
  }

  lemma SameElements<T>(a: seq<T>, b: seq<T>)
    requires multiset(a) == multiset(b)
    ensures forall x :: x in a <==> x in b
  {
    assert forall x :: x in a <==> x in multiset(a);
  }

  lemma {:induction false} DistinctByPerm<T>(a: seq<T>, b: seq<T>, key: T -> int)
    requires multiset(a) == multiset(b) && DistinctBy(a, key)
    ensures DistinctBy(b, key)
  {
    forall i, j | 0 <= i < j < |b| ensures key(b[i]) != key(b[j]) {
      TwoOccurrences(b, i, j);
      assert b[i] in multiset(a) && b[j] in multiset(a);
      var p :| 0 <= p < |a| && a[p] == b[i];
      var q :| 0 <= q < |a| && a[q] == b[j];
      if p == q {
        OneOccurrence(a, key, p);
      }
    }
  }

  lemma TwoOccurrences<T>(s: seq<T>, i: nat, j: nat)
    requires i < j < |s|
    ensures s[i] == s[j] ==> multiset(s)[s[i]] >= 2
  {
    assert s == s[..j] + s[j..];
    assert s[i] in s[..j] && s[j] in s[j..];
  }

  lemma OneOccurrence<T>(s: seq<T>, key: T -> int, p: nat)
    requires DistinctBy(s, key) && p < |s|
    ensures multiset(s)[s[p]] == 1
  {
    var a, b := s[..p], s[p + 1..];
    assert s == a + [s[p]] + b;
    assert s[p] !in a && s[p] !in b;
  }

  /** A sorted list without equal keys is strictly increasing. */
  lemma SortDistinct<T>(s: seq<T>, key: T -> int)
    requires DistinctBy(s, key)
    ensures Increasing(SortBy(s, key), key)
  {
    SortBySorts(s, key);
    DistinctByPerm(s, SortBy(s, key), key);
  }

  lemma Inhabited<T>(s: seq<T>)
    ensures s == [] || exists x :: x in s
  {
    if s != [] {
      assert s[0] in s;
    }
  }

  /** An increasing list is determined by its elements. */
  lemma {:induction false} IncreasingUnique<T>(a: seq<T>, b: seq<T>, key: T -> int)
    requires Increasing(a, key) && Increasing(b, key)
    requires forall x :: x in a <==> x in b
    ensures a == b
  {
    if a == [] {
      Inhabited(b);
    } else {
      Inhabited(a);
      var a', b' := a[..|a| - 1], b[..|b| - 1];
      SameLast(a, b, key);
      assert a == a' + [a[|a| - 1]] && b == b' + [b[|b| - 1]];
      InitWithout(a, key);
      InitWithout(b, key);
      IncreasingUnique(a', b', key);
    }
  }

  lemma SameLast<T>(a: seq<T>, b: seq<T>, key: T -> int)
    requires Increasing(a, key) && Increasing(b, key) && a != []
    requires forall x :: x in a <==> x in b
    ensures b != [] && a[|a| - 1] == b[|b| - 1]
  {
    var x := a[|a| - 1];
    assert x in a;
    assert x in b;
    var y := b[|b| - 1];
    assert y in b;
    LastIsLargest(a, key, y);
    LastIsLargest(b, key, x);
  }

  lemma LastIsLargest<T>(s: seq<T>, key: T -> int, x: T)
    requires Increasing(s, key) && x in s
    ensures key(x) <= key(s[|s| - 1]) && (key(x) == key(s[|s| - 1]) ==> x == s[|s| - 1])
  {
    var i :| 0 <= i < |s| && s[i] == x;
  }

  /** Without its last element an increasing list has the smaller ones. */
  lemma InitWithout<T>(s: seq<T>, key: T -> int)
    requires Increasing(s, key) && s != []
    ensures Increasing(s[..|s| - 1], key)
    ensures forall x :: x in s[..|s| - 1] <==> x in s && key(x) < key(s[|s| - 1])
  {
    forall x | x in s ensures key(x) < key(s[|s| - 1]) ==> x in s[..|s| - 1] {
      var i :| 0 <= i < |s| && s[i] == x;
    }
  }

  // ---- totals ----

  function Total<T>(s: seq<T>, f: T -> int): int {
    if s == [] then 0 else Total(s[..|s| - 1], f) + f(s[|s| - 1])
  }

  lemma TotalPush<T>(s: seq<T>, x: T, f: T -> int)
    ensures Total(s + [x], f) == Total(s, f) + f(x)
  {
    assert (s + [x])[..|s|] == s;
  }

  lemma {:induction false} TotalAppend<T>(a: seq<T>, b: seq<T>, f: T -> int)
    ensures Total(a + b, f) == Total(a, f) + Total(b, f)
  {
    if b == [] {
      assert a + b == a;
    } else {
      var init, last := b[..|b| - 1], b[|b| - 1];
      assert (a + b)[..|a + b| - 1] == a + init;
      TotalAppend(a, init, f);
    }
  }

  lemma PickOut<T>(s: seq<T>, x: T) returns (l: seq<T>, r: seq<T>)
    requires x in s
    ensures s == l + [x] + r && multiset(l + r) == multiset(s) - multiset{x}
  {
    var j :| 0 <= j < |s| && s[j] == x;
    l, r := s[..j], s[j + 1..];
    assert s == l + [x] + r;
  }

  /** Totals do not depend on order. */
  lemma {:induction false} TotalPerm<T>(a: seq<T>, b: seq<T>, f: T -> int)
    requires multiset(a) == multiset(b)
    ensures Total(a, f) == Total(b, f)
  {
    hide Total;
    if a == [] {
      assert |multiset(a)| == |a| && |multiset(b)| == |b|;
    } else {
      var init, last := a[..|a| - 1], a[|a| - 1];
      assert a == init + [last];
      assert last in multiset(b);
      var l, r := PickOut(b, last);
      assert multiset(init) == multiset(a) - multiset{last};
      TotalPerm(init, l + r, f);
      TotalPush(init, last, f);
      TotalWithin(l, last, r, f);
    }
  }

  lemma TotalWithin<T>(l: seq<T>, x: T, r: seq<T>, f: T -> int)
    ensures Total(l + [x] + r, f) == Total(l + r, f) + f(x)
  {
    hide Total;
    TotalAppend(l, r, f);
    TotalAppend(l + [x], r, f);
    TotalPush(l, x, f);
  }

  /** Lists without repetition and with the same elements are permutations of one another. */
  lemma {:induction false} DistinctSame<T>(a: seq<T>, b: seq<T>)
    requires Distinct(a) && Distinct(b) && forall x :: x in a <==> x in b
    ensures multiset(a) == multiset(b)
  {
    forall x ensures multiset(a)[x] == multiset(b)[x] {
      DistinctCount(a, x);
      DistinctCount(b, x);
    }
  }

  lemma DistinctCount<T>(s: seq<T>, x: T)
    requires Distinct(s)
    ensures multiset(s)[x] == if x in s then 1 else 0
  {
    if x in s {
      var p :| 0 <= p < |s| && s[p] == x;
      var a, b := s[..p], s[p + 1..];
      assert s == a + [x] + b;
      assert x !in a && x !in b;
      assert multiset(s) == multiset(a) + multiset{x} + multiset(b);
    }
  }

  function Mapped<T, U>(s: seq<T>, f: T -> U): (r: seq<U>)
    ensures |r| == |s| && forall i | 0 <= i < |s| :: r[i] == f(s[i])
  {
    seq(|s|, i requires 0 <= i < |s| => f(s[i]))
  }

  lemma MappedPush<T, U>(s: seq<T>, x: T, f: T -> U)
    ensures Mapped(s + [x], f) == Mapped(s, f) + [f(x)]
  {
  }

  lemma MappedFront<T, U>(x: T, s: seq<T>, f: T -> U)
    ensures Mapped([x] + s, f) == [f(x)] + Mapped(s, f)
  {
  }

  lemma {:induction false} TotalMapped<T, U>(s: seq<T>, f: T -> U, g: U -> int, h: T -> int)
    requires forall x | x in s :: g(f(x)) == h(x)
    ensures Total(Mapped(s, f), g) == Total(s, h)
  {
    if s != [] {
      var init := s[..|s| - 1];
      assert Mapped(s, f)[..|s| - 1] == Mapped(init, f);
      TotalMapped(init, f, g, h);
      assert s[|s| - 1] in s;
    }
  }
}
