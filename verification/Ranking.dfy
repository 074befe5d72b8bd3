/**
 * Ranking pool proofs (scoring.py): refinement parents are the head of a sorted list, the fallback finalist is the
 * minimum under the same key. The key holds a float read from model output, and that float may be NaN.
 */
module Ranking {
  import Sorting

  /** What `float(text)` returns for the last box of a self-evaluation. */
  datatype Float = NaN | MinusInfinity | Finite(value: real) | PlusInfinity {

    /** Python's `>`: false as soon as one side is NaN. */
    predicate Above(other: Float) {
      match this
      case NaN => false
      case MinusInfinity => false
      case Finite(x) => other.MinusInfinity? || (other.Finite? && x > other.value)
      case PlusInfinity => other.MinusInfinity? || other.Finite?
    }

    /** Python's `==`: NaN equals nothing, not even itself. */
    predicate Same(other: Float) {
      !NaN? && this == other
    }
  }

  /** The part of a pool record that ranking reads, with the proof it ranks. */
  datatype Pooled = Pooled(proof: string, mean: real, selfEval: Float, round: int, proofId: int)

  /**
   * `proof_rank_key(a) < proof_rank_key(b)` as tuples compare: the first unequal component decides, and a NaN
   * self-evaluation is unequal without being smaller.
   */
  predicate Before(a: Pooled, b: Pooled) {
    a.mean > b.mean || (a.mean == b.mean && (
    a.selfEval.Above(b.selfEval) || (a.selfEval.Same(b.selfEval) && (
    a.round > b.round || (a.round == b.round && a.proofId < b.proofId)))))
  }

  /** `sorted(records, key=proof_rank_key)`. */
  function Ranked(records: seq<Pooled>): seq<Pooled> {
    Sorting.Sort(Before, records)
  }

  function Take(xs: seq<Pooled>, k: nat): seq<Pooled> {
    if k <= |xs| then xs[..k] else xs
  }

  function SelectRefinementParents(records: seq<Pooled>, k: nat): seq<Pooled> {
    Take(Ranked(records), k)
  }

  /** `min(records, key=proof_rank_key)`: a later record replaces the best so far only when strictly before it. */
  function Min(records: seq<Pooled>): (r: Pooled)
    requires records != []
    ensures r in records
  {
    if |records| == 1 then records[0]
    else
      var best, last := Min(records[..|records| - 1]), records[|records| - 1];
      if Before(last, best) then last else best
  }

  // ---- which lists the key can order ---------------------------------------------------

  ghost predicate StrictlyOrdered(xs: seq<Pooled>) {
    forall i, j :: 0 <= i < j < |xs| ==> Before(xs[i], xs[j])
  }

  /** The pool numbers its proofs, so no two records share an id. */
  ghost predicate DistinctIds(records: seq<Pooled>) {
    forall i, j :: 0 <= i < j < |records| ==> records[i].proofId != records[j].proofId
  }

  /** No record with a NaN self-evaluation shares its mean with another record. */
  ghost predicate Comparable(records: seq<Pooled>) {
    forall a, b :: a in records && b in records && a != b && a.mean == b.mean ==> !a.selfEval.NaN?
  }

  /** The key with NaN put below every number: a strict weak order that agrees with `Before` on comparable lists. */
  predicate NumbersFirst(a: Pooled, b: Pooled) {
    a.mean > b.mean || (a.mean == b.mean && (
    a.selfEval.Above(b.selfEval) || (b.selfEval.NaN? && !a.selfEval.NaN?) || (a.selfEval == b.selfEval && (
    a.round > b.round || (a.round == b.round && a.proofId < b.proofId)))))
  }

  lemma NumbersFirstIsWeakOrder()
    ensures Sorting.WeakOrder(NumbersFirst)
  {
  }

  lemma ComparableAgrees(records: seq<Pooled>)
    requires Comparable(records)
    ensures forall a, b :: a in records && b in records && a != b ==> Before(a, b) == NumbersFirst(a, b)
    ensures forall a :: a in records ==> Before(a, a) == NumbersFirst(a, a)
  {
  }

  /** With distinct ids the key decides every pair exactly when the list is comparable. */
  lemma EveryPairDecidedIffComparable(records: seq<Pooled>)
    requires DistinctIds(records)
    ensures Sorting.NoTies(Before, records) <==> Comparable(records)
  {
    if Sorting.NoTies(Before, records) {
      forall a, b | a in records && b in records && a != b && a.mean == b.mean ensures !a.selfEval.NaN? {
        var i :| 0 <= i < |records| && records[i] == a;
        var j :| 0 <= j < |records| && records[j] == b;
        assert Before(a, b) || Before(b, a);
      }
    }
  }

  lemma RankedMembers(records: seq<Pooled>)
    ensures |Ranked(records)| == |records| && forall x :: x in Ranked(records) <==> x in records
  {
    Sorting.SortKeeps(Before, records);
  }

  lemma RankedAgrees(records: seq<Pooled>)
    requires Comparable(records)
    ensures Ranked(records) == Sorting.Sort(NumbersFirst, records)
  {
    ComparableAgrees(records);
    Sorting.SortAgrees(Before, NumbersFirst, records);
  }

  lemma RankedStrict(records: seq<Pooled>)
    requires DistinctIds(records) && Comparable(records)
    ensures StrictlyOrdered(Ranked(records))
  {
    EveryPairDecidedIffComparable(records);
    ComparableAgrees(records);
    NumbersFirstIsWeakOrder();
    assert Sorting.NoTies(NumbersFirst, records);
    Sorting.SortStrict(NumbersFirst, records);
    RankedAgrees(records);
    RankedMembers(records);
    var ranked := Ranked(records);
    forall i, j | 0 <= i < j < |ranked| ensures Before(ranked[i], ranked[j]) {
      assert ranked[i] in ranked && ranked[j] in ranked && NumbersFirst(ranked[i], ranked[j]);
    }
  }

  lemma Asymmetric(a: Pooled, b: Pooled)
    requires Before(a, b)
    ensures !Before(b, a) && a != b
  {
  }

  // ---- any `sorted` ------------------------------------------------------------------------

  /** No record is before the one in front of it. */
  ghost predicate InRun(xs: seq<Pooled>) {
    forall i :: 0 < i < |xs| ==> !Before(xs[i], xs[i - 1])
  }

  /** Nothing is before record `k`, and it is before everything in front of it. */
  ghost predicate Foremost(xs: seq<Pooled>, k: nat) {
    k < |xs| && (forall r :: r in xs ==> !Before(r, xs[k])) && forall i :: 0 <= i < k ==> Before(xs[k], xs[i])
  }

  /**
   * What a stable merge sort that looks for runs, as `sorted` is one, makes of any list: it rearranges it; it orders it
   * when the key can; it leaves a run as it is; and a foremost record comes first.
   */
  ghost predicate SortedFrom(out: seq<Pooled>, xs: seq<Pooled>) {
    && multiset(out) == multiset(xs)
    && (DistinctIds(xs) && Comparable(xs) ==> StrictlyOrdered(out))
    && (InRun(xs) ==> out == xs)
    && (forall k: nat :: Foremost(xs, k) ==> out != [] && out[0] == xs[k])
  }

  ghost predicate SortsByKey(sorter: seq<Pooled> -> seq<Pooled>) {
    forall xs :: SortedFrom(sorter(xs), xs)
  }

  lemma RankedCons(x: Pooled, rest: seq<Pooled>)
    ensures Ranked([x] + rest) == Sorting.Insert(Before, x, Ranked(rest))
  {
    assert ([x] + rest)[1..] == rest;
  }

  lemma InsertFront(x: Pooled, sorted: seq<Pooled>)
    requires sorted != [] ==> !Before(sorted[0], x)
    ensures Sorting.Insert(Before, x, sorted) == [x] + sorted
  {
  }

  lemma {:induction false} RunStays(xs: seq<Pooled>)
    requires InRun(xs)
    ensures Ranked(xs) == xs
  {
    if xs != [] {
      var rest := xs[1..];
      assert forall i :: 0 <= i < |rest| ==> rest[i] == xs[i + 1];
      RunStays(rest);
      assert xs == [xs[0]] + rest;
      RankedCons(xs[0], rest);
      InsertFront(xs[0], rest);
    }
  }

  lemma {:induction false} ForemostIsHead(xs: seq<Pooled>, k: nat)
    requires Foremost(xs, k)
    ensures Ranked(xs) != [] && Ranked(xs)[0] == xs[k]
  {
    var rest := xs[1..];
    assert xs == [xs[0]] + rest;
    RankedCons(xs[0], rest);
    RankedMembers(rest);
    if k > 0 {
      assert rest[k - 1] == xs[k];
      ForemostIsHead(rest, k - 1);
    } else if rest != [] {
      assert Ranked(rest)[0] in rest;
      InsertFront(xs[0], Ranked(rest));
    }
  }

  lemma {:induction false} InsertInRun(x: Pooled, sorted: seq<Pooled>)
    requires InRun(sorted)
    ensures InRun(Sorting.Insert(Before, x, sorted))
    ensures Sorting.Insert(Before, x, sorted)[0] == (if sorted != [] && Before(sorted[0], x) then sorted[0] else x)
  {
    if sorted != [] && Before(sorted[0], x) {
      var rest := sorted[1..];
      assert forall i :: 0 <= i < |rest| ==> rest[i] == sorted[i + 1];
      InsertInRun(x, rest);
      Asymmetric(sorted[0], x);
    }
  }

  /** The ranking is a run of its own records, whatever the list. */
  lemma {:induction false} RankedInRun(xs: seq<Pooled>)
    ensures InRun(Ranked(xs))
  {
    if xs != [] {
      RankedInRun(xs[1..]);
      InsertInRun(xs[0], Ranked(xs[1..]));
    }
  }

  /** The ranking of this model is such a sort. */
  lemma RankedSortsByKey()
    ensures SortsByKey(Ranked)
  {
    forall xs ensures SortedFrom(Ranked(xs), xs) {
      Sorting.SortKeeps(Before, xs);
      if DistinctIds(xs) && Comparable(xs) { RankedStrict(xs); }
      if InRun(xs) { RunStays(xs); }
      forall k: nat | Foremost(xs, k) ensures Ranked(xs) != [] && Ranked(xs)[0] == xs[k] {
        ForemostIsHead(xs, k);
      }
    }
  }

  lemma SameMembers(records: seq<Pooled>, order: seq<Pooled>)
    requires multiset(records) == multiset(order)
    ensures forall x :: x in records <==> x in order
    ensures |records| == |order|
    ensures Comparable(records) ==> Comparable(order)
  {
    assert forall x :: x in records <==> x in multiset(records);
    assert forall x :: x in order <==> x in multiset(order);
    assert |multiset(records)| == |records| && |multiset(order)| == |order|;
  }

  lemma {:induction false} StrictTellsApart(records: seq<Pooled>, out: seq<Pooled>)
    requires multiset(out) == multiset(records) && StrictlyOrdered(out)
    ensures Comparable(records)
  {
    SameMembers(records, out);
    forall a, b | a in records && b in records && a != b && a.mean == b.mean ensures !a.selfEval.NaN? {
      assert a in out && b in out;
      var i :| 0 <= i < |out| && out[i] == a;
      var j :| 0 <= j < |out| && out[j] == b;
      assert Before(a, b) || Before(b, a);
    }
  }

  /** Any such sort gives a strict order exactly when no NaN shares its mean with another record. */
  lemma RankedStrictIffComparable(sorter: seq<Pooled> -> seq<Pooled>, records: seq<Pooled>)
    requires SortsByKey(sorter) && DistinctIds(records)
    ensures StrictlyOrdered(sorter(records)) <==> Comparable(records)
  {
    assert SortedFrom(sorter(records), records);
    if StrictlyOrdered(sorter(records)) { StrictTellsApart(records, sorter(records)); }
  }

  /** Strict orders of the same comparable records are one. */
  lemma {:induction false} StrictOrdersAgree(records: seq<Pooled>, a: seq<Pooled>, b: seq<Pooled>)
    requires Comparable(records) && multiset(a) == multiset(records) && multiset(b) == multiset(records)
    requires StrictlyOrdered(a) && StrictlyOrdered(b)
    ensures a == b
  {
    SameMembers(records, a);
    SameMembers(records, b);
    ComparableAgrees(records);
    NumbersFirstIsWeakOrder();
    StrictInNumbers(records, a);
    StrictInNumbers(records, b);
    Sorting.StrictUnique(NumbersFirst, a, b);
  }

  lemma {:induction false} StrictInNumbers(records: seq<Pooled>, a: seq<Pooled>)
    requires Comparable(records) && (forall x :: x in records <==> x in a) && StrictlyOrdered(a)
    ensures Sorting.Strict(NumbersFirst, a)
  {
    ComparableAgrees(records);
    forall i, j | 0 <= i < j < |a| ensures NumbersFirst(a[i], a[j]) {
      assert a[i] in a && a[j] in a && Before(a[i], a[j]);
    }
  }

  /** On a comparable list every such sort gives the model's ranking. */
  lemma SorterIsRanked(sorter: seq<Pooled> -> seq<Pooled>, records: seq<Pooled>)
    requires SortsByKey(sorter) && DistinctIds(records) && Comparable(records)
    ensures sorter(records) == Ranked(records)
  {
    assert SortedFrom(sorter(records), records);
    RankedStrict(records);
    Sorting.SortKeeps(Before, records);
    StrictOrdersAgree(records, sorter(records), Ranked(records));
  }

  // ---- refinement parents ------------------------------------------------------------------

  /** Parents outrank every record left out. */
  lemma ParentsOutrankTheRest(records: seq<Pooled>, k: nat)
    requires DistinctIds(records) && Comparable(records)
    ensures var ps := SelectRefinementParents(records, k);
      && |ps| == (if k <= |records| then k else |records|)
      && StrictlyOrdered(ps)
      && (forall p :: p in ps ==> p in records)
      && (forall p, r :: p in ps && r in records && r !in ps ==> Before(p, r))
  {
    var all := Ranked(records);
    RankedStrict(records);
    RankedMembers(records);
    var ps := SelectRefinementParents(records, k);
    assert forall q :: 0 <= q < |ps| ==> ps[q] == all[q];
    assert forall p :: p in ps ==> p in all;
    forall p, r | p in ps && r in records && r !in ps ensures Before(p, r) {
      assert r in all;
      var j :| 0 <= j < |all| && all[j] == r;
      var i :| 0 <= i < |ps| && ps[i] == p;
    }
  }

  lemma RankedUnique(records: seq<Pooled>, order: seq<Pooled>)
    requires Comparable(records) && Sorting.NoTies(Before, records) && Sorting.NoTies(Before, order)
    requires multiset(records) == multiset(order)
    ensures Ranked(records) == Ranked(order)
  {
    SameMembers(records, order);
    ComparableAgrees(records);
    ComparableAgrees(order);
    NumbersFirstIsWeakOrder();
    NoTiesAgree(records);
    NoTiesAgree(order);
    Sorting.SortUnique(NumbersFirst, records, order);
    RankedAgrees(records);
    RankedAgrees(order);
  }

  lemma NoTiesAgree(records: seq<Pooled>)
    requires Comparable(records) && Sorting.NoTies(Before, records)
    ensures Sorting.NoTies(NumbersFirst, records)
  {
    ComparableAgrees(records);
    forall i, j | 0 <= i < j < |records| ensures NumbersFirst(records[i], records[j]) || NumbersFirst(records[j], records[i]) {
      assert records[i] in records && records[j] in records;
      assert Before(records[i], records[j]) || Before(records[j], records[i]);
    }
  }

  lemma {:induction false} DistinctIdsInAnyOrder(records: seq<Pooled>, order: seq<Pooled>)
    requires DistinctIds(records) && multiset(records) == multiset(order)
    ensures DistinctIds(order)
  {
    SameMembers(records, order);
    forall i, j | 0 <= i < j < |order| ensures order[i].proofId != order[j].proofId {
      if order[i].proofId == order[j].proofId {
        var a, b := order[i], order[j];
        assert a in order && b in order;
        var p :| 0 <= p < |records| && records[p] == a;
        var q :| 0 <= q < |records| && records[q] == b;
        assert p == q;
        Sorting.TwiceMeansTwo(order, i, j);
        Sorting.OnceMeansOne(records, p);
        assert false;
      }
    }
  }

  // ---- list order matters exactly when a NaN shares its mean ----------------------------------

  /** Of the two records, `x` is met first. */
  predicate MetFirst(x: Pooled, y: Pooled, xs: seq<Pooled>) {
    xs != [] && (xs[0] == x || (xs[0] != y && MetFirst(x, y, xs[1..])))
  }

  /** A NaN is inserted ahead of everything with its mean. */
  lemma {:induction false} NaNGoesAhead(x: Pooled, y: Pooled, sorted: seq<Pooled>)
    requires x.selfEval.NaN? && x != y && x.mean == y.mean
    ensures MetFirst(x, y, Sorting.Insert(Before, x, sorted))
  {
    if sorted != [] && Before(sorted[0], x) {
      NaNGoesAhead(x, y, sorted[1..]);
    }
  }

  /** A record is inserted ahead of a NaN with its mean. */
  lemma {:induction false} AheadOfNaN(x: Pooled, y: Pooled, sorted: seq<Pooled>)
    requires x.selfEval.NaN? && x != y && x.mean == y.mean
    ensures !MetFirst(x, y, Sorting.Insert(Before, y, sorted))
  {
    if sorted != [] && Before(sorted[0], y) {
      AheadOfNaN(x, y, sorted[1..]);
    }
  }

  function Remove(x: Pooled, xs: seq<Pooled>): (r: seq<Pooled>)
    requires x in xs
    ensures multiset(r) == multiset(xs) - multiset{x}
  {
    assert xs == [xs[0]] + xs[1..];
    if xs[0] == x then xs[1..] else [xs[0]] + Remove(x, xs[1..])
  }

  lemma PutBack(x: Pooled, xs: seq<Pooled>, rest: seq<Pooled>)
    requires x in multiset(xs) && multiset(rest) == multiset(xs) - multiset{x}
    ensures multiset([x] + rest) == multiset(xs)
  {
  }

  lemma SwapTwo(a: Pooled, b: Pooled, rest: seq<Pooled>)
    ensures multiset([a] + ([b] + rest)) == multiset([b] + ([a] + rest))
  {
  }

  lemma SwapFront(records: seq<Pooled>, a: Pooled, b: Pooled) returns (rest: seq<Pooled>)
    requires a in records && b in records && a != b
    ensures multiset([a] + ([b] + rest)) == multiset(records) && multiset([b] + ([a] + rest)) == multiset(records)
  {
    var once := Remove(a, records);
    assert b in multiset(once);
    rest := Remove(b, once);
    PutBack(b, once, rest);
    PutBack(a, records, [b] + rest);
    SwapTwo(a, b, rest);
  }

  /** The ranking of a comparable list is the same from every order. */
  lemma RankedIgnoresListOrder(records: seq<Pooled>, order: seq<Pooled>)
    requires DistinctIds(records) && Comparable(records)
    requires multiset(records) == multiset(order)
    ensures Ranked(records) == Ranked(order)
  {
    DistinctIdsInAnyOrder(records, order);
    SameMembers(records, order);
    EveryPairDecidedIffComparable(records);
    EveryPairDecidedIffComparable(order);
    RankedUnique(records, order);
  }

  /** The parents do not depend on the order of the record list. */
  lemma ParentsIgnoreListOrder(records: seq<Pooled>, order: seq<Pooled>, k: nat)
    requires DistinctIds(records) && Comparable(records)
    requires multiset(records) == multiset(order)
    ensures SelectRefinementParents(records, k) == SelectRefinementParents(order, k)
  {
    RankedIgnoresListOrder(records, order);
  }

  /** A NaN `a` and another record of its mean swap places in the ranking when they swap places in the list. */
  lemma {:induction false} NaNSwaps(records: seq<Pooled>, a: Pooled, b: Pooled) returns (p: seq<Pooled>, q: seq<Pooled>)
    requires a in records && b in records && a != b && a.mean == b.mean && a.selfEval.NaN?
    ensures multiset(p) == multiset(records) && multiset(q) == multiset(records)
    ensures Ranked(p) != Ranked(q)
  {
    var rest := SwapFront(records, a, b);
    p, q := [a] + ([b] + rest), [b] + ([a] + rest);
    RankedCons(a, [b] + rest);
    RankedCons(b, [a] + rest);
    NaNGoesAhead(a, b, Ranked([b] + rest));
    AheadOfNaN(a, b, Ranked([a] + rest));
  }

  /** Two orders that any such sort leaves as they are. */
  lemma {:induction false} TwoRuns(records: seq<Pooled>) returns (p: seq<Pooled>, q: seq<Pooled>)
    requires !Comparable(records)
    ensures multiset(p) == multiset(records) && multiset(q) == multiset(records) && InRun(p) && InRun(q) && p != q
  {
    var a, b :| a in records && b in records && a != b && a.mean == b.mean && a.selfEval.NaN?;
    var v, w := NaNSwaps(records, a, b);
    p, q := Ranked(v), Ranked(w);
    Sorting.SortKeeps(Before, v);
    Sorting.SortKeeps(Before, w);
    RankedInRun(v);
    RankedInRun(w);
  }

  /** Whatever such sort is used: every order of the list gives the same ranking exactly when the list is comparable. */
  lemma {:induction false} ListOrderMattersIffNotComparable(sorter: seq<Pooled> -> seq<Pooled>, records: seq<Pooled>)
    requires SortsByKey(sorter) && DistinctIds(records)
    ensures Comparable(records) <==> forall order :: multiset(order) == multiset(records) ==> sorter(order) == sorter(records)
  {
    if Comparable(records) {
      forall order | multiset(order) == multiset(records) ensures sorter(order) == sorter(records) {
        assert SortedFrom(sorter(order), order) && SortedFrom(sorter(records), records);
        DistinctIdsInAnyOrder(records, order);
        SameMembers(records, order);
        StrictOrdersAgree(records, sorter(order), sorter(records));
      }
    } else {
      var p, q := TwoRuns(records);
      assert SortedFrom(sorter(p), p) && SortedFrom(sorter(q), q);
    }
  }

  // ---- proof ids do not matter without ties -----------------------------------------------------

  /** What a schedule cannot change: everything but the proof id that arrival order hands out. */
  function Face(p: Pooled): Pooled {
    p.(proofId := 0)
  }

  function Faces(xs: seq<Pooled>): (r: seq<Pooled>)
    ensures |r| == |xs| && forall i :: 0 <= i < |xs| ==> r[i] == Face(xs[i])
  {
    if xs == [] then [] else [Face(xs[0])] + Faces(xs[1..])
  }

  predicate SameGrade(a: Pooled, b: Pooled) {
    a.mean == b.mean && a.selfEval == b.selfEval && a.round == b.round
  }

  /** No two records share mean, self-evaluation and round. */
  ghost predicate NoTies(records: seq<Pooled>) {
    forall i, j :: 0 <= i < j < |records| ==> !SameGrade(records[i], records[j])
  }

  lemma {:induction false} FacesInsert(x: Pooled, sorted: seq<Pooled>)
    requires forall y :: y in sorted ==> !SameGrade(x, y)
    ensures Faces(Sorting.Insert(Before, x, sorted)) == Sorting.Insert(Before, Face(x), Faces(sorted))
  {
    if sorted != [] {
      var rest := sorted[1..];
      assert Faces(sorted) == [Face(sorted[0])] + Faces(rest) && Faces(sorted)[1..] == Faces(rest);
      assert sorted[0] in sorted;
      if Before(sorted[0], x) {
        FacesInsert(x, rest);
        assert Faces([sorted[0]] + Sorting.Insert(Before, x, rest)) == [Face(sorted[0])] + Faces(Sorting.Insert(Before, x, rest));
      } else {
        assert Faces([x] + sorted) == [Face(x)] + Faces(sorted);
      }
    }
  }

  /** Without ties, forgetting proof ids commutes with ranking. */
  lemma {:induction false} FacesRanked(records: seq<Pooled>)
    requires NoTies(records)
    ensures Faces(Ranked(records)) == Ranked(Faces(records))
  {
    if records != [] {
      var rest := records[1..];
      assert forall i :: 0 <= i < |rest| ==> rest[i] == records[i + 1];
      FacesRanked(rest);
      Sorting.SortKeeps(Before, rest);
      forall y | y in Ranked(rest) ensures !SameGrade(records[0], y) {
        var i :| 0 <= i < |rest| && rest[i] == y;
      }
      FacesInsert(records[0], Ranked(rest));
      assert Faces(records) == [Face(records[0])] + Faces(rest) && Faces(records)[1..] == Faces(rest);
    }
  }

  lemma {:induction false} GradesDiffer(records: seq<Pooled>, i: nat, j: nat)
    requires NoTies(records) && Comparable(records) && i < |records| && j < |records| && i != j
    ensures !SameGrade(records[i], records[j])
    ensures records[i].mean == records[j].mean ==> !records[i].selfEval.NaN? && !records[j].selfEval.NaN?
  {
    assert records[i] in records && records[j] in records;
  }

  lemma FacesCompare(a: Pooled, b: Pooled)
    requires !SameGrade(a, b) && (a.mean == b.mean ==> !a.selfEval.NaN? && !b.selfEval.NaN?)
    ensures Before(Face(a), Face(b)) || Before(Face(b), Face(a))
  {
  }

  /** Faces of a comparable list without ties are comparable and compare pairwise. */
  lemma FacesComparable(records: seq<Pooled>)
    requires NoTies(records) && Comparable(records)
    ensures Comparable(Faces(records)) && Sorting.NoTies(Before, Faces(records))
  {
    var f := Faces(records);
    forall a, b | a in f && b in f && a != b && a.mean == b.mean ensures !a.selfEval.NaN? {
      var i :| 0 <= i < |f| && f[i] == a;
      var j :| 0 <= j < |f| && f[j] == b;
      GradesDiffer(records, i, j);
    }
    forall i, j | 0 <= i < j < |f| ensures Before(f[i], f[j]) || Before(f[j], f[i]) {
      GradesDiffer(records, i, j);
      FacesCompare(records[i], records[j]);
    }
  }

  /**
   * Two schedules that give the same proofs the same (mean, self-evaluation, round), without ties, pick the same
   * parents in the same order, whatever proof ids their arrival orders dealt out.
   */
  lemma ParentsIgnoreProofIds(records: seq<Pooled>, others: seq<Pooled>, k: nat)
    requires NoTies(records) && NoTies(others) && Comparable(records) && Comparable(others)
    requires multiset(Faces(records)) == multiset(Faces(others))
    ensures Faces(SelectRefinementParents(records, k)) == Faces(SelectRefinementParents(others, k))
  {
    FacesRanked(records);
    FacesRanked(others);
    FacesComparable(records);
    FacesComparable(others);
    RankedUnique(Faces(records), Faces(others));
    FacesTake(Ranked(records), k);
    FacesTake(Ranked(others), k);
  }

  lemma FacesTake(xs: seq<Pooled>, k: nat)
    ensures Faces(Take(xs, k)) == Take(Faces(xs), k)
  {
  }

  // ---- the minimum and the head of the ranking -----------------------------------------------------

  /** No record has a greater mean. */
  ghost predicate Top(x: Pooled, records: seq<Pooled>) {
    x in records && forall r :: r in records ==> r.mean <= x.mean
  }

  /** Among the records with the greatest mean no self-evaluation is NaN, or at most one is a number. */
  ghost predicate TopDecided(records: seq<Pooled>) {
    || (forall x :: Top(x, records) ==> !x.selfEval.NaN?)
    || (forall x, y :: Top(x, records) && Top(y, records) && x != y ==> x.selfEval.NaN? || y.selfEval.NaN?)
  }

  lemma {:induction false} ForemostIsMin(records: seq<Pooled>, k: nat)
    requires Foremost(records, k)
    ensures Min(records) == records[k]
  {
    if |records| > 1 {
      var front, last := records[..|records| - 1], records[|records| - 1];
      assert records == front + [last];
      if k < |front| {
        assert front[k] == records[k];
        ForemostIsMin(front, k);
      } else {
        var i :| 0 <= i < |front| && front[i] == Min(front);
        assert Min(front) == records[i];
      }
    }
  }

  lemma {:induction false} SomeTop(records: seq<Pooled>) returns (k: nat)
    requires records != []
    ensures k < |records| && Top(records[k], records) && forall i :: 0 <= i < k ==> records[i].mean < records[k].mean
  {
    if |records| == 1 {
      k := 0;
    } else {
      var front, last := records[..|records| - 1], records[|records| - 1];
      assert records == front + [last];
      k := SomeTop(front);
      assert front[k] == records[k] && forall i :: 0 <= i < |front| ==> front[i] in front;
      if last.mean > records[k].mean { k := |records| - 1; }
    }
  }

  /** Different values have different ids, whatever the order. */
  ghost predicate IdsTell(records: seq<Pooled>) {
    forall a, b :: a in records && b in records && a != b ==> a.proofId != b.proofId
  }

  lemma NumbersCompare(a: Pooled, b: Pooled, c: Pooled)
    requires !a.selfEval.NaN? && !b.selfEval.NaN? && a.mean == b.mean
    ensures a.proofId != b.proofId ==> Before(a, b) || Before(b, a)
    ensures Before(a, b) && Before(b, c) ==> Before(a, c)
  {
  }

  /** When the records of mean `m`, the greatest, are all numbers, one of them is before every other record. */
  lemma {:induction false} Champion(records: seq<Pooled>, m: real) returns (t: Pooled)
    requires IdsTell(records) && (exists r :: r in records && r.mean == m)
    requires forall r :: r in records ==> r.mean <= m && (r.mean == m ==> !r.selfEval.NaN?)
    ensures t in records && t.mean == m && forall r :: r in records && r != t ==> Before(t, r)
    decreases records
  {
    var front, last := records[..|records| - 1], records[|records| - 1];
    assert records == front + [last];
    if exists r :: r in front && r.mean == m {
      t := Champion(front, m);
      if last.mean == m && last != t {
        NumbersCompare(last, t, last);
        if Before(last, t) {
          forall r | r in front && r != last ensures Before(last, r) {
            if r != t { NumbersCompare(last, t, r); }
          }
          t := last;
        }
      }
    } else {
      t := last;
    }
  }

  lemma {:induction false} DistinctIdsTell(records: seq<Pooled>)
    requires DistinctIds(records)
    ensures IdsTell(records)
  {
    forall a, b | a in records && b in records && a != b ensures a.proofId != b.proofId {
      var i :| 0 <= i < |records| && records[i] == a;
      var j :| 0 <= j < |records| && records[j] == b;
    }
  }

  lemma {:induction false} ChampionForemost(records: seq<Pooled>, t: Pooled) returns (k: nat)
    requires t in records && forall r :: r in records && r != t ==> Before(t, r)
    ensures Foremost(records, k)
  {
    k := FirstPlace(records, t);
    forall r | r in records ensures !Before(r, t) {
      if r != t { Asymmetric(t, r); }
    }
    assert forall i :: 0 <= i < k ==> records[i] in records;
  }

  lemma {:induction false} FirstPlace(records: seq<Pooled>, t: Pooled) returns (k: nat)
    requires t in records
    ensures k < |records| && records[k] == t && forall i :: 0 <= i < k ==> records[i] != t
  {
    if records[0] == t {
      k := 0;
    } else {
      assert records == [records[0]] + records[1..];
      k := FirstPlace(records[1..], t);
      k := k + 1;
    }
  }

  /** When the top is decided some record is foremost. */
  lemma {:induction false} TopDecidedForemost(records: seq<Pooled>) returns (k: nat)
    requires records != [] && DistinctIds(records) && TopDecided(records)
    ensures Foremost(records, k)
  {
    DistinctIdsTell(records);
    k := SomeTop(records);
    var x := records[k];
    if forall y :: Top(y, records) ==> !y.selfEval.NaN? {
      forall r | r in records && r.mean == x.mean ensures !r.selfEval.NaN? {
        assert Top(r, records);
      }
      var t := Champion(records, x.mean);
      k := ChampionForemost(records, t);
    } else {
      forall r | r in records ensures !Before(r, x) {
        if r.mean == x.mean { assert Top(r, records); }
      }
    }
  }

  /** The fallback rule and the refinement rule agree on the best proof. */
  lemma {:induction false} MinIsHead(records: seq<Pooled>)
    requires records != [] && DistinctIds(records) && TopDecided(records)
    ensures Ranked(records) != [] && Min(records) == Ranked(records)[0]
  {
    var k := TopDecidedForemost(records);
    ForemostIsMin(records, k);
    ForemostIsHead(records, k);
  }

  /** On a comparable list the minimum is before everything else. */
  lemma {:induction false} MinBeatsAll(records: seq<Pooled>)
    requires records != [] && DistinctIds(records) && Comparable(records)
    ensures forall r :: r in records && r != Min(records) ==> Before(Min(records), r)
  {
    if |records| > 1 {
      var front, last := records[..|records| - 1], records[|records| - 1];
      assert records == front + [last];
      DistinctIdsTell(records);
      MinBeatsAll(front);
      var b := Min(front);
      assert b in records;
      forall r | r in records && r != Min(records) ensures Before(Min(records), r) {
        ComparableTriple(records, last, b, r);
      }
    }
  }

  lemma {:induction false} ComparableTriple(records: seq<Pooled>, a: Pooled, b: Pooled, c: Pooled)
    requires a in records && b in records && c in records && Comparable(records) && IdsTell(records)
    ensures Before(a, b) && Before(b, c) ==> Before(a, c)
    ensures a != b ==> Before(a, b) || Before(b, a)
  {
  }

  /** A list that opens with a best-mean number `y` and holds something before it has another minimum. */
  lemma {:induction false} MinMovesOn(records: seq<Pooled>, y: Pooled)
    requires records != [] && records[0] == y && forall r :: r in records ==> r.mean <= y.mean
    ensures Min(records) == y || Before(Min(records), y)
    ensures (exists z :: z in records && Before(z, y)) ==> Min(records) != y
  {
    if |records| > 1 {
      var front, last := records[..|records| - 1], records[|records| - 1];
      assert records == front + [last];
      MinMovesOn(front, y);
      var b := Min(front);
      assert b in records && last in records;
      if Before(last, b) && b != y {
        NumbersCompare(last, b, y);
      }
    }
  }

  lemma HeadStays(records: seq<Pooled>, x: Pooled, y: Pooled, z: Pooled, rest: seq<Pooled>)
    requires x.selfEval.NaN? && x.mean == y.mean && forall r :: r in [z] + rest ==> r.mean <= x.mean
    requires records == [y] + ([x] + ([z] + rest))
    ensures Ranked(records) != [] && Ranked(records)[0] == y
  {
    var tail := [z] + rest;
    RankedMembers(tail);
    assert Ranked(tail)[0] in tail;
    RankedCons(x, tail);
    InsertFront(x, Ranked(tail));
    RankedCons(y, [x] + tail);
    InsertFront(y, [x] + Ranked(tail));
  }

  /** A NaN `x` and numbers `y` and `z` at the top: some run of the records does not start with their minimum. */
  lemma {:induction false} NaNSplits(records: seq<Pooled>, x: Pooled, y: Pooled, z: Pooled) returns (order: seq<Pooled>)
    requires x in records && y in records && z in records && x.selfEval.NaN? && !y.selfEval.NaN? && Before(z, y)
    requires x.mean == y.mean && forall r :: r in records ==> r.mean <= y.mean
    ensures multiset(order) == multiset(records) && order != [] && InRun(order) && Min(order) != order[0]
  {
    var one := Remove(y, records);
    assert x in multiset(one);
    var two := Remove(x, one);
    assert !z.selfEval.NaN?;
    assert z in multiset(two);
    var rest := Remove(z, two);
    var list := [y] + ([x] + ([z] + rest));
    PutBack(z, two, rest);
    PutBack(x, one, [z] + rest);
    PutBack(y, records, [x] + ([z] + rest));
    SameMembers(records, list);
    assert forall r :: r in [z] + rest ==> r in list;
    HeadStays(list, x, y, z, rest);
    order := Ranked(list);
    Sorting.SortKeeps(Before, list);
    RankedInRun(list);
    assert z in list && z in order;
    MinMovesOn(order, y);
  }

  lemma {:induction false} UndecidedTopSplits(records: seq<Pooled>) returns (order: seq<Pooled>)
    requires DistinctIds(records) && !TopDecided(records)
    ensures multiset(order) == multiset(records) && order != [] && InRun(order) && Min(order) != order[0]
  {
    DistinctIdsTell(records);
    var x :| Top(x, records) && x.selfEval.NaN?;
    var y, z :| Top(y, records) && Top(z, records) && y != z && !y.selfEval.NaN? && !z.selfEval.NaN?;
    NumbersCompare(y, z, y);
    if Before(z, y) {
      order := NaNSplits(records, x, y, z);
    } else {
      order := NaNSplits(records, x, z, y);
    }
  }

  lemma TopDecidedInAnyOrder(records: seq<Pooled>, order: seq<Pooled>)
    requires multiset(records) == multiset(order) && TopDecided(records)
    ensures TopDecided(order)
  {
    SameMembers(records, order);
    assert forall x :: Top(x, records) <==> Top(x, order);
  }

  /**
   * Whatever such sort is used: minimum and head of the ranking agree, in every order of registration, exactly when the
   * top is decided.
   */
  lemma MinIsHeadIffTopDecided(sorter: seq<Pooled> -> seq<Pooled>, records: seq<Pooled>)
    requires SortsByKey(sorter) && records != [] && DistinctIds(records)
    ensures TopDecided(records) <==>
      forall order :: multiset(order) == multiset(records) && order != [] ==> sorter(order) != [] && Min(order) == sorter(order)[0]
  {
    if TopDecided(records) {
      forall order | multiset(order) == multiset(records) && order != []
        ensures sorter(order) != [] && Min(order) == sorter(order)[0]
      {
        assert SortedFrom(sorter(order), order);
        TopDecidedInAnyOrder(records, order);
        DistinctIdsInAnyOrder(records, order);
        var k := TopDecidedForemost(order);
        ForemostIsMin(order, k);
      }
    } else {
      var order := UndecidedTopSplits(records);
      assert SortedFrom(sorter(order), order);
    }
  }

  /**
   * Equal means, self-evaluations 0.2, NaN and 0.9: no neighbours compare, so any such sort leaves the list as it is and
   * the ranking starts with the first, while the minimum is the last; in the opposite order the ranking starts with it.
   */
  lemma NaNSplitsFallbackFromParents(sorter: seq<Pooled> -> seq<Pooled>, a: Pooled, b: Pooled, c: Pooled)
    requires SortsByKey(sorter)
    requires a.mean == b.mean == c.mean && a.selfEval == Finite(0.2) && b.selfEval == NaN && c.selfEval == Finite(0.9)
    ensures sorter([a, b, c]) == [a, b, c] && Min([a, b, c]) == c && sorter([c, b, a]) == [c, b, a]
  {
    assert SortedFrom(sorter([a, b, c]), [a, b, c]) && SortedFrom(sorter([c, b, a]), [c, b, a]);
    assert [a, b, c][..2] == [a, b] && [a, b][..1] == [a];
    assert Min([a, b]) == a;
  }
}
