/** The rules of scoring.py that compare proofs: the panel verdict and finalist ranking. */
module Scoring {
  import opened Options

  // ---- the verifier panel --------------------------------------------------

  datatype PanelVerdict = PanelVerdict(complete: bool, accepted: bool, mean: real, verifierMeans: seq<real>, validScores: seq<real>)

  /** The scores of the valid judgments, in order. */
  function Valid(scores: seq<Option<real>>): seq<real> {
    if scores == [] then []
    else (if scores[0].Some? then [scores[0].value] else []) + Valid(scores[1..])
  }

  function Sum(xs: seq<real>): real {
    if xs == [] then 0.0 else xs[0] + Sum(xs[1..])
  }

  function Mean(xs: seq<real>): real
    requires xs != []
  {
    Sum(xs) / |xs| as real
  }

  function Means(panel: seq<seq<Option<real>>>): (r: seq<real>)
    requires forall v :: v in panel ==> Valid(v) != []
    ensures |r| == |panel|
  {
    if panel == [] then [] else [Mean(Valid(panel[0]))] + Means(panel[1..])
  }

  function Zeros(n: nat): seq<real> {
    seq(n, i => 0.0)
  }

  function AllValid(panel: seq<seq<Option<real>>>): seq<real> {
    if panel == [] then [] else Valid(panel[0]) + AllValid(panel[1..])
  }

  predicate Complete(panel: seq<seq<Option<real>>>, judgments: nat, interrupted: bool) {
    !interrupted && forall v :: v in panel ==> |Valid(v)| == judgments
  }

  /**
   * `panel_verdict`: one list of received scores per verifier, in verifier order. The configuration
   * has at least one verifier and at least one judgment each.
   */
  function Verdict(panel: seq<seq<Option<real>>>, judgments: nat, interrupted: bool): PanelVerdict
    requires panel != [] && judgments > 0
  {
    if !Complete(panel, judgments, interrupted) then
      PanelVerdict(false, false, 0.0, Zeros(|panel|), [])
    else
      var scores := AllValid(panel);
      PanelVerdict(true, forall x :: x in scores ==> x == 1.0, Mean(Means(panel)), Means(panel), scores)
  }

  /** Every valid score lies between 0 and 1, as the verification parser guarantees. */
  ghost predicate UnitScores(panel: seq<seq<Option<real>>>) {
    forall x :: x in AllValid(panel) ==> 0.0 <= x <= 1.0
  }

  lemma {:induction false} SumAppend(a: seq<real>, b: seq<real>)
    ensures Sum(a + b) == Sum(a) + Sum(b)
  {
    if a == [] {
      assert a + b == b;
    } else {
      SumAppend(a[1..], b);
      assert (a + b)[1..] == a[1..] + b;
    }
  }

  lemma {:induction false} SumBounds(xs: seq<real>)
    requires forall x :: x in xs ==> 0.0 <= x <= 1.0
    ensures 0.0 <= Sum(xs) <= |xs| as real
    ensures Sum(xs) == |xs| as real <==> forall x :: x in xs ==> x == 1.0
  {
    if xs != [] {
      assert forall x :: x in xs <==> x == xs[0] || x in xs[1..];
      SumBounds(xs[1..]);
      assert xs[0] in xs && Sum(xs) == xs[0] + Sum(xs[1..]);
      assert |xs| as real == |xs[1..]| as real + 1.0;
    }
  }

  lemma Times(n: nat, j: nat)
    ensures (n + 1) * j == n * j + j
  {
  }

  lemma {:induction false} AllValidCount(panel: seq<seq<Option<real>>>, judgments: nat)
    requires forall v :: v in panel ==> |Valid(v)| == judgments
    ensures |AllValid(panel)| == |panel| * judgments
  {
    if panel == [] {
      assert |panel| * judgments == 0;
    } else {
      var rest := panel[1..];
      assert forall v :: v in rest ==> v in panel;
      AllValidCount(rest, judgments);
      Times(|rest|, judgments);
      assert |AllValid(panel)| == judgments + |AllValid(rest)|;
    }
  }

  lemma AddQuotients(a: real, b: real, n: real)
    requires n > 0.0
    ensures a / n + b / n == (a + b) / n
  {
  }

  /** The per-verifier means add up to the flat sum over the judgment count. */
  lemma {:induction false} SumOfMeans(panel: seq<seq<Option<real>>>, judgments: nat)
    requires judgments > 0 && forall v :: v in panel ==> |Valid(v)| == judgments
    ensures Sum(Means(panel)) == Sum(AllValid(panel)) / judgments as real
  {
    if panel != [] {
      var rest := panel[1..];
      assert forall v :: v in rest ==> v in panel;
      SumOfMeans(rest, judgments);
      var first := Valid(panel[0]);
      calc {
        Sum(Means(panel));
        { assert Means(panel) == [Mean(first)] + Means(rest); assert Means(panel)[1..] == Means(rest); }
        Mean(first) + Sum(Means(rest));
        Sum(first) / judgments as real + Sum(AllValid(rest)) / judgments as real;
        { AddQuotients(Sum(first), Sum(AllValid(rest)), judgments as real); }
        (Sum(first) + Sum(AllValid(rest))) / judgments as real;
        { SumAppend(first, AllValid(rest)); }
        Sum(AllValid(panel)) / judgments as real;
      }
    }
  }

  lemma DivideTwice(t: real, a: nat, b: nat)
    requires a > 0 && b > 0
    ensures a * b > 0 && t / b as real / a as real == t / (a * b) as real
  {
    assert a * b >= b;
    assert (a * b) as real == a as real * b as real;
    DivideTwiceReal(t, a as real, b as real);
  }

  lemma DivideTwiceReal(t: real, a: real, b: real)
    requires a > 0.0 && b > 0.0
    ensures a * b > 0.0 && t / b / a == t / (a * b)
  {
    var q := t / b / a;
    assert q * a == t / b;
    assert q * a * b == t;
    assert q * (a * b) == t;
  }

  /** For a complete panel the mean of the verifier means is the mean of all its judgments. */
  lemma MeanOfMeansIsFlatMean(panel: seq<seq<Option<real>>>, judgments: nat, interrupted: bool)
    requires panel != [] && judgments > 0 && Verdict(panel, judgments, interrupted).complete
    ensures AllValid(panel) != [] && |AllValid(panel)| == |panel| * judgments
    ensures Verdict(panel, judgments, interrupted).mean == Mean(AllValid(panel))
  {
    SumOfMeans(panel, judgments);
    AllValidCount(panel, judgments);
    DivideTwice(Sum(AllValid(panel)), |panel|, judgments);
    assert |Means(panel)| == |panel|;
  }

  /** The mean of a complete panel lies between 0 and 1, and is 1 exactly when the panel accepts. */
  lemma MeanIsOneIffAccepted(panel: seq<seq<Option<real>>>, judgments: nat, interrupted: bool)
    requires panel != [] && judgments > 0 && UnitScores(panel)
    requires Verdict(panel, judgments, interrupted).complete
    ensures var v := Verdict(panel, judgments, interrupted);
      0.0 <= v.mean <= 1.0 && (v.mean == 1.0 <==> v.accepted)
  {
    MeanOfMeansIsFlatMean(panel, judgments, interrupted);
    var xs := AllValid(panel);
    SumBounds(xs);
    DivisionBounds(Sum(xs), |xs| as real);
  }

  lemma DivisionBounds(s: real, n: real)
    requires n > 0.0 && 0.0 <= s <= n
    ensures 0.0 <= s / n <= 1.0 && (s / n == 1.0 <==> s == n)
  {
    assert s / n * n == s;
  }

  // ---- ranking finalists ---------------------------------------------------

  datatype Finalist = Finalist(model: string, proof: string, imoScore: Option<real>, accepted: bool, mean: real)

  /** `list.index`; the caller's list holds the value. */
  function IndexOf(order: seq<string>, x: string): (i: nat)
    requires x in order
    ensures i < |order| && order[i] == x
  {
    if order[0] == x then 0 else 1 + IndexOf(order[1..], x)
  }

  function OrZero(s: Option<real>): real {
    if s.Some? then s.value else 0.0
  }

  /** `finalist_rank_key(a) < finalist_rank_key(b)` as tuples compare. */
  predicate FinalistBefore(a: Finalist, b: Finalist, order: seq<string>, judged: bool)
    requires a.model in order && b.model in order
  {
    var tail := |a.proof| < |b.proof| || (|a.proof| == |b.proof| && IndexOf(order, a.model) < IndexOf(order, b.model));
    if judged then
      (a.imoScore.Some? && b.imoScore.None?) ||
      (a.imoScore.Some? == b.imoScore.Some? &&
        (OrZero(a.imoScore) > OrZero(b.imoScore) || (OrZero(a.imoScore) == OrZero(b.imoScore) && tail)))
    else
      (a.accepted && !b.accepted) ||
      (a.accepted == b.accepted && (a.mean > b.mean || (a.mean == b.mean && tail)))
  }

  /** `min` with the finalist key: the first of the best. */
  function SelectFinalist(xs: seq<Finalist>, order: seq<string>, judged: bool): (r: Finalist)
    requires xs != [] && forall x :: x in xs ==> x.model in order
    ensures r in xs
  {
    if |xs| == 1 then xs[0]
    else
      var best := SelectFinalist(xs[..|xs| - 1], order, judged);
      if FinalistBefore(xs[|xs| - 1], best, order, judged) then xs[|xs| - 1] else best
  }

  /**
   * The submitted finalist beats every finalist of another checkpoint, so with one finalist per
   * checkpoint the choice does not depend on the order of the list.
   */
  lemma {:induction false} SelectedBeatsOthers(xs: seq<Finalist>, order: seq<string>, judged: bool)
    requires xs != [] && forall x :: x in xs ==> x.model in order
    ensures var best := SelectFinalist(xs, order, judged);
      forall x :: x in xs ==>
        !FinalistBefore(x, best, order, judged) && (x.model != best.model ==> FinalistBefore(best, x, order, judged))
  {
    if |xs| > 1 {
      var front, last := xs[..|xs| - 1], xs[|xs| - 1];
      SelectedBeatsOthers(front, order, judged);
      assert forall x :: x in xs <==> x in front || x == last;
    }
  }

  lemma SelectionIgnoresListOrder(xs: seq<Finalist>, ys: seq<Finalist>, order: seq<string>, judged: bool)
    requires xs != [] && ys != [] && forall x :: x in xs ==> x.model in order
    requires forall x :: x in xs <==> x in ys
    requires forall x, y :: x in xs && y in xs && x.model == y.model ==> x == y
    ensures SelectFinalist(xs, order, judged) == SelectFinalist(ys, order, judged)
  {
    SelectedBeatsOthers(xs, order, judged);
    SelectedBeatsOthers(ys, order, judged);
  }

  // ---- the choice on the finalists' own fields ----------------------------------------------

  /** `a` stands in the list at or before every place of `b`. */
  ghost predicate ComesFirst(order: seq<string>, a: string, b: string) {
    forall i: nat :: i < |order| && order[i] == b ==> a in order[..i + 1]
  }

  lemma {:induction false} IndexIsFirst(order: seq<string>, x: string)
    requires x in order
    ensures forall i: nat :: i < IndexOf(order, x) ==> order[i] != x
  {
    if order[0] != x {
      IndexIsFirst(order[1..], x);
      forall i: nat | i < IndexOf(order, x) ensures order[i] != x {
        if i > 0 { assert order[i] == order[1..][i - 1]; }
      }
    }
  }

  lemma IndexComesFirst(order: seq<string>, a: string, b: string)
    requires a in order && b in order && IndexOf(order, a) <= IndexOf(order, b)
    ensures ComesFirst(order, a, b)
  {
    IndexIsFirst(order, b);
    forall i: nat | i < |order| && order[i] == b ensures a in order[..i + 1] {
      assert order[..i + 1][IndexOf(order, a)] == a;
    }
  }

  /** Shorter proof, then earlier checkpoint. */
  ghost predicate ShorterThenFirst(order: seq<string>, best: Finalist, x: Finalist) {
    |best.proof| <= |x.proof| && (|best.proof| == |x.proof| ==> ComesFirst(order, best.model, x.model))
  }

  /** The first of the best: everything in front of it is worse. */
  lemma {:induction false} SelectedIsFirst(xs: seq<Finalist>, order: seq<string>, judged: bool) returns (k: nat)
    requires xs != [] && forall x :: x in xs ==> x.model in order
    ensures k < |xs| && xs[k] == SelectFinalist(xs, order, judged)
    ensures forall j :: 0 <= j < k ==> FinalistBefore(xs[k], xs[j], order, judged)
  {
    if |xs| == 1 {
      k := 0;
    } else {
      var n := |xs| - 1;
      var front := xs[..n];
      k := SelectedIsFirst(front, order, judged);
      SelectedBeatsOthers(front, order, judged);
      assert forall j :: 0 <= j < n ==> front[j] == xs[j] && front[j] in front;
      if FinalistBefore(xs[n], front[k], order, judged) {
        forall j | 0 <= j < n ensures FinalistBefore(xs[n], xs[j], order, judged) {
          assert !FinalistBefore(xs[j], front[k], order, judged);
        }
        k := n;
      }
    }
  }

  /**
   * With judges, the submitted finalist has a score if any finalist has one, and no finalist has a greater one; among
   * those of the same score none has a shorter proof, and among those of the same length none has an earlier checkpoint.
   * None in front of it in the list is like it in all three.
   */
  lemma JudgedChoice(xs: seq<Finalist>, order: seq<string>)
    requires xs != [] && forall x :: x in xs ==> x.model in order
    ensures var best := SelectFinalist(xs, order, true);
      && best in xs
      && (forall x :: x in xs && x.imoScore.Some? ==> best.imoScore.Some? && best.imoScore.value >= x.imoScore.value)
      && (forall x :: x in xs && x.imoScore == best.imoScore ==> ShorterThenFirst(order, best, x))
      && (exists k :: 0 <= k < |xs| && xs[k] == best && forall j :: 0 <= j < k ==>
            xs[j].imoScore != best.imoScore || |xs[j].proof| != |best.proof| || xs[j].model != best.model)
  {
    var best := SelectFinalist(xs, order, true);
    var k := SelectedIsFirst(xs, order, true);
    SelectedBeatsOthers(xs, order, true);
    forall x | x in xs && x.imoScore == best.imoScore ensures ShorterThenFirst(order, best, x) {
      if |best.proof| == |x.proof| { IndexComesFirst(order, best.model, x.model); }
    }
  }

  /**
   * Without judges, the submitted finalist is accepted if any is, and no other of its kind has a greater mean; then
   * proof length and checkpoint order decide as with judges.
   */
  lemma UnjudgedChoice(xs: seq<Finalist>, order: seq<string>)
    requires xs != [] && forall x :: x in xs ==> x.model in order
    ensures var best := SelectFinalist(xs, order, false);
      && best in xs
      && (forall x :: x in xs && x.accepted ==> best.accepted)
      && (forall x :: x in xs && x.accepted == best.accepted ==> best.mean >= x.mean)
      && (forall x :: x in xs && x.accepted == best.accepted && x.mean == best.mean ==> ShorterThenFirst(order, best, x))
      && (exists k :: 0 <= k < |xs| && xs[k] == best && forall j :: 0 <= j < k ==>
            xs[j].accepted != best.accepted || xs[j].mean != best.mean || |xs[j].proof| != |best.proof| || xs[j].model != best.model)
  {
    var best := SelectFinalist(xs, order, false);
    var k := SelectedIsFirst(xs, order, false);
    SelectedBeatsOthers(xs, order, false);
    forall x | x in xs && x.accepted == best.accepted && x.mean == best.mean ensures ShorterThenFirst(order, best, x) {
      if |best.proof| == |x.proof| { IndexComesFirst(order, best.model, x.model); }
    }
  }
}
