/** Stable sorting by a key comparison, as `sorted` does it, and the uniqueness of a strict order. */
module Sorting {

  /** `before` compares keys: a strict weak order. */
  ghost predicate WeakOrder<T(!new)>(before: (T, T) -> bool) {
    && (forall a :: !before(a, a))
    && (forall a, b, c :: before(a, b) && before(b, c) ==> before(a, c))
    && (forall a, b, c :: before(a, c) ==> before(a, b) || before(b, c))
  }

  /** Stable insertion: before the first element that is not ranked before `x`. */
  function Insert<T>(before: (T, T) -> bool, x: T, sorted: seq<T>): seq<T> {
    if sorted == [] then [x]
    else if before(sorted[0], x) then [sorted[0]] + Insert(before, x, sorted[1..])
    else [x] + sorted
  }

  function Sort<T>(before: (T, T) -> bool, xs: seq<T>): seq<T> {
    if xs == [] then [] else Insert(before, xs[0], Sort(before, xs[1..]))
  }

  ghost predicate Ordered<T(!new)>(before: (T, T) -> bool, xs: seq<T>) {
    forall i, j :: 0 <= i < j < |xs| ==> !before(xs[j], xs[i])
  }

  ghost predicate Strict<T(!new)>(before: (T, T) -> bool, xs: seq<T>) {
    forall i, j :: 0 <= i < j < |xs| ==> before(xs[i], xs[j])
  }

  /** Any two elements at different places compare one way or the other. */
  ghost predicate NoTies<T(!new)>(before: (T, T) -> bool, xs: seq<T>) {
    forall i, j :: 0 <= i < j < |xs| ==> before(xs[i], xs[j]) || before(xs[j], xs[i])
  }

  lemma {:induction false} InsertKeeps<T>(before: (T, T) -> bool, x: T, sorted: seq<T>)
    ensures multiset(Insert(before, x, sorted)) == multiset(sorted) + multiset{x}
    ensures forall y :: y in Insert(before, x, sorted) <==> y == x || y in sorted
  {
    if sorted != [] && before(sorted[0], x) {
      InsertKeeps(before, x, sorted[1..]);
      assert sorted == [sorted[0]] + sorted[1..];
    }
  }

  lemma {:induction false} SortKeeps<T>(before: (T, T) -> bool, xs: seq<T>)
    ensures multiset(Sort(before, xs)) == multiset(xs)
    ensures |Sort(before, xs)| == |xs|
    ensures forall y :: y in Sort(before, xs) <==> y in xs
  {
    if xs != [] {
      SortKeeps(before, xs[1..]);
      InsertKeeps(before, xs[0], Sort(before, xs[1..]));
      assert xs == [xs[0]] + xs[1..];
    }
    assert |multiset(Sort(before, xs))| == |multiset(xs)|;
  }

  lemma ConsOrdered<T(!new)>(before: (T, T) -> bool, x: T, xs: seq<T>)
    requires Ordered(before, xs) && forall y :: y in xs ==> !before(y, x)
    ensures Ordered(before, [x] + xs)
  {
    forall i, j | 0 <= i < j < |[x] + xs| ensures !before(([x] + xs)[j], ([x] + xs)[i]) {
      assert ([x] + xs)[j] == xs[j - 1] && xs[j - 1] in xs;
    }
  }

  lemma {:induction false} InsertOrdered<T(!new)>(before: (T, T) -> bool, x: T, sorted: seq<T>)
    requires WeakOrder(before) && Ordered(before, sorted)
    ensures Ordered(before, Insert(before, x, sorted))
  {
    if sorted == [] {
    } else {
      var head, rest := sorted[0], sorted[1..];
      forall y | y in rest ensures !before(y, head) {
        var i :| 0 <= i < |rest| && rest[i] == y;
        assert y == sorted[i + 1];
      }
      assert forall i, j :: 0 <= i < j < |rest| ==> rest[i] == sorted[i + 1] && rest[j] == sorted[j + 1];
      if before(head, x) {
        InsertOrdered(before, x, rest);
        InsertKeeps(before, x, rest);
        ConsOrdered(before, head, Insert(before, x, rest));
      } else {
        assert sorted == [head] + rest;
        ConsOrdered(before, x, sorted);
      }
    }
  }

  lemma {:induction false} SortOrdered<T(!new)>(before: (T, T) -> bool, xs: seq<T>)
    requires WeakOrder(before)
    ensures Ordered(before, Sort(before, xs))
  {
    if xs != [] {
      SortOrdered(before, xs[1..]);
      InsertOrdered(before, xs[0], Sort(before, xs[1..]));
    }
  }

  lemma ConsStrict<T(!new)>(before: (T, T) -> bool, x: T, xs: seq<T>)
    requires Strict(before, xs) && forall y :: y in xs ==> before(x, y)
    ensures Strict(before, [x] + xs)
  {
    forall i, j | 0 <= i < j < |[x] + xs| ensures before(([x] + xs)[i], ([x] + xs)[j]) {
      assert ([x] + xs)[j] == xs[j - 1] && xs[j - 1] in xs;
    }
  }

  lemma {:induction false} InsertStrict<T(!new)>(before: (T, T) -> bool, x: T, sorted: seq<T>)
    requires WeakOrder(before) && Strict(before, sorted)
    requires forall y :: y in sorted ==> before(x, y) || before(y, x)
    ensures Strict(before, Insert(before, x, sorted))
  {
    if sorted == [] {
    } else {
      var head, rest := sorted[0], sorted[1..];
      forall y | y in rest ensures before(head, y) && y in sorted {
        var i :| 0 <= i < |rest| && rest[i] == y;
        assert y == sorted[i + 1];
      }
      assert forall i, j :: 0 <= i < j < |rest| ==> rest[i] == sorted[i + 1] && rest[j] == sorted[j + 1];
      assert head in sorted;
      assert sorted == [head] + rest;
      if before(head, x) {
        InsertStrict(before, x, rest);
        InsertKeeps(before, x, rest);
        ConsStrict(before, head, Insert(before, x, rest));
      } else {
        ConsStrict(before, x, sorted);
      }
    }
  }

  /** Sorting a list without ties gives a strict order. */
  lemma {:induction false} SortStrict<T(!new)>(before: (T, T) -> bool, xs: seq<T>)
    requires WeakOrder(before) && NoTies(before, xs)
    ensures Strict(before, Sort(before, xs))
  {
    if xs != [] {
      var rest := xs[1..];
      assert forall i :: 0 <= i < |rest| ==> rest[i] == xs[i + 1];
      SortStrict(before, rest);
      SortKeeps(before, rest);
      forall y | y in Sort(before, rest) ensures before(xs[0], y) || before(y, xs[0]) {
        var i :| 0 <= i < |rest| && rest[i] == y;
      }
      InsertStrict(before, xs[0], Sort(before, rest));
    }
  }

  /** Two strictly ordered lists of the same elements are the same list. */
  lemma {:induction false} StrictUnique<T(!new)>(before: (T, T) -> bool, a: seq<T>, b: seq<T>)
    requires WeakOrder(before) && Strict(before, a) && Strict(before, b)
    requires |a| == |b| && forall x :: x in a <==> x in b
    ensures a == b
  {
    if a != [] {
      assert a[0] in b && b[0] in a;
      assert a[0] == b[0];
      assert a == [a[0]] + a[1..] && b == [b[0]] + b[1..];
      StrictTail(before, a);
      StrictTail(before, b);
      StrictUnique(before, a[1..], b[1..]);
    }
  }

  lemma StrictTail<T(!new)>(before: (T, T) -> bool, a: seq<T>)
    requires WeakOrder(before) && Strict(before, a) && a != []
    ensures Strict(before, a[1..]) && a[0] !in a[1..]
    ensures forall x :: x in a[1..] <==> x in a && x != a[0]
  {
    var rest := a[1..];
    assert forall i :: 0 <= i < |rest| ==> rest[i] == a[i + 1];
    assert a == [a[0]] + rest;
  }

  /** Sorting forgets the input order as soon as nothing ties. */
  lemma SortUnique<T(!new)>(before: (T, T) -> bool, a: seq<T>, b: seq<T>)
    requires WeakOrder(before) && NoTies(before, a) && NoTies(before, b)
    requires multiset(a) == multiset(b)
    ensures Sort(before, a) == Sort(before, b)
  {
    SortStrict(before, a);
    SortStrict(before, b);
    SortKeeps(before, a);
    SortKeeps(before, b);
    assert |multiset(a)| == |multiset(b)|;
    assert forall x :: x in a <==> x in multiset(b);
    StrictUnique(before, Sort(before, a), Sort(before, b));
  }

  /** A list that is already strictly ordered is its own sorting. */
  lemma {:induction false} SortIdentity<T(!new)>(before: (T, T) -> bool, xs: seq<T>)
    requires WeakOrder(before) && Strict(before, xs)
    ensures Sort(before, xs) == xs
  {
    if xs != [] {
      StrictTail(before, xs);
      SortIdentity(before, xs[1..]);
      assert xs == [xs[0]] + xs[1..];
      if |xs| > 1 { assert before(xs[0], xs[1]); }
    }
  }

  lemma {:induction false} InsertAgrees<T(!new)>(before: (T, T) -> bool, other: (T, T) -> bool, x: T, sorted: seq<T>)
    requires forall y :: y in sorted ==> before(y, x) == other(y, x)
    ensures Insert(before, x, sorted) == Insert(other, x, sorted)
  {
    if sorted != [] {
      assert sorted[0] in sorted;
      InsertAgrees(before, other, x, sorted[1..]);
    }
  }

  /** Comparisons that agree on a list sort it alike. */
  lemma {:induction false} SortAgrees<T(!new)>(before: (T, T) -> bool, other: (T, T) -> bool, xs: seq<T>)
    requires forall a, b :: a in xs && b in xs ==> before(a, b) == other(a, b)
    ensures Sort(before, xs) == Sort(other, xs)
  {
    if xs != [] {
      assert xs == [xs[0]] + xs[1..];
      SortAgrees(before, other, xs[1..]);
      SortKeeps(before, xs[1..]);
      InsertAgrees(before, other, xs[0], Sort(before, xs[1..]));
    }
  }

  lemma TwiceMeansTwo<T>(xs: seq<T>, i: nat, j: nat)
    requires i < j < |xs| && xs[i] == xs[j]
    ensures multiset(xs)[xs[i]] >= 2
  {
    assert xs == xs[..i] + [xs[i]] + xs[i + 1..j] + [xs[j]] + xs[j + 1..];
  }

  lemma OnceMeansOne<T>(xs: seq<T>, p: nat)
    requires p < |xs| && forall q :: 0 <= q < |xs| && q != p ==> xs[q] != xs[p]
    ensures multiset(xs)[xs[p]] == 1
  {
    assert xs == xs[..p] + [xs[p]] + xs[p + 1..];
    assert xs[p] !in xs[..p] && xs[p] !in xs[p + 1..];
  }
}
