/** What critique retention guarantees about the list it returns. */
module CritiqueGuarantees {
  import opened Options
  import opened Critiques
  import Sorting
  import Scoring

  // ---- what the selection guarantees -----------------------------------------

  function CountPicks(picks: seq<Pick>, v: nat): nat {
    if picks == [] then 0 else (if picks[|picks| - 1].v == v then 1 else 0) + CountPicks(picks[..|picks| - 1], v)
  }

  /** `rounds` picks from every verifier, one more from the first `v`, all within the caps. */
  ghost predicate Even(queues: seq<seq<Critique>>, limit: nat, picks: seq<Pick>, v: nat, rounds: nat) {
    && v <= |queues| && InRange(queues, picks) && NoDup(picks)
    && |picks| == rounds * |queues| + v
    && (forall w: nat :: w < |queues| ==> CountPicks(picks, w) == (if w < v then rounds + 1 else rounds))
    && (forall s :: CountScore(Items(queues, picks), s) <= limit)
  }

  /** `ext[w]` is the first item of queue `w` that is unselected and fits beside the picks before it. */
  ghost predicate NextPick(queues: seq<seq<Critique>>, limit: nat, picks: seq<Pick>, ext: seq<Pick>, w: nat)
    requires w < |ext|
  {
    && ext[w].v == w && ext[w] !in picks && w < |queues| && InRange(queues, picks + ext[..w])
    && forall i: nat :: i < ext[w].i && i < |queues[w]| ==> Pick(w, i) in picks || !Fits(queues, picks + ext[..w], limit, queues[w][i].score)
  }

  /** The part of a pass done so far: one pick from each of the first verifiers, within the caps. */
  ghost predicate PartialBatch(queues: seq<seq<Critique>>, limit: nat, picks: seq<Pick>, ext: seq<Pick>) {
    && InRange(queues, picks + ext)
    && (forall w: nat :: w < |ext| ==> NextPick(queues, limit, picks, ext, w))
    && (forall s :: CountScore(Items(queues, picks + ext), s) <= limit)
  }

  /** After the picks `ext` of the earlier verifiers, verifier `v` has no unselected item that fits. */
  ghost predicate StuckAt(queues: seq<seq<Critique>>, limit: nat, picks: seq<Pick>, v: nat, ext: seq<Pick>) {
    && v < |queues| && |ext| == v && PartialBatch(queues, limit, picks, ext)
    && (forall i :: 0 <= i < |queues[v]| ==> Pick(v, i) in picks || !Fits(queues, picks + ext, limit, queues[v][i].score))
  }

  lemma PartialStep(queues: seq<seq<Critique>>, limit: nat, base: seq<Pick>, ext: seq<Pick>, i: nat)
    requires PartialBatch(queues, limit, base, ext) && |ext| < |queues| && i < |queues[|ext|]|
    requires FirstFree(queues, limit, |ext|, 0, base + ext) == Some(i)
    requires InRange(queues, base + (ext + [Pick(|ext|, i)]))
    requires forall s :: CountScore(Items(queues, base + (ext + [Pick(|ext|, i)])), s) <= limit
    ensures PartialBatch(queues, limit, base, ext + [Pick(|ext|, i)])
  {
    var v, more := |ext|, ext + [Pick(|ext|, i)];
    forall w: nat | w < |more| ensures NextPick(queues, limit, base, more, w) {
      if w < v {
        assert NextPick(queues, limit, base, ext, w) && more[..w] == ext[..w];
      } else {
        assert more[..w] == ext;
        forall p | p in ext ensures p.v < v {
          var u :| 0 <= u < |ext| && ext[u] == p;
          assert NextPick(queues, limit, base, ext, u);
        }
      }
    }
  }

  lemma EvenStep(queues: seq<seq<Critique>>, limit: nat, picks: seq<Pick>, v: nat, rounds: nat, i: nat)
    requires Even(queues, limit, picks, v, rounds) && v < |queues| && i < |queues[v]|
    requires Pick(v, i) !in picks && Fits(queues, picks, limit, queues[v][i].score)
    ensures Even(queues, limit, picks + [Pick(v, i)], v + 1, rounds)
  {
    var here := Pick(v, i);
    NoDupAppend(picks, here);
    AppendPick(queues, picks, here);
    assert (picks + [here])[..|picks|] == picks;
    forall s ensures CountScore(Items(queues, picks + [here]), s) <= limit {
      CountScoreAppend(Items(queues, picks), [queues[v][i]], s);
    }
  }

  lemma EvenWrap(queues: seq<seq<Critique>>, limit: nat, picks: seq<Pick>, rounds: nat)
    requires Even(queues, limit, picks, |queues|, rounds)
    ensures Even(queues, limit, picks, 0, rounds + 1)
  {
    Scoring.Times(rounds, |queues|);
  }

  lemma {:induction false} BatchKeepsEven(queues: seq<seq<Critique>>, limit: nat, v: nat, base: seq<Pick>, ext: seq<Pick>, rounds: nat)
    requires Even(queues, limit, base + ext, v, rounds) && |ext| == v && PartialBatch(queues, limit, base, ext)
    ensures var b := Batch(queues, limit, v, base + ext);
      if b.Some? then Even(queues, limit, b.value, |queues|, rounds)
      else exists w, e :: StuckAt(queues, limit, base, w, e)
    decreases |queues| - v
  {
    if v < |queues| {
      var f := FirstFree(queues, limit, v, 0, base + ext);
      if f.Some? {
        var here := Pick(v, f.value);
        EvenStep(queues, limit, base + ext, v, rounds, f.value);
        Assoc(base, ext, [here]);
        PartialStep(queues, limit, base, ext, f.value);
        BatchKeepsEven(queues, limit, v + 1, base, ext + [here], rounds);
      } else {
        NotYet(queues, limit, base, ext);
      }
    }
  }

  /** Nothing free: the verifier is stuck. */
  lemma NotYet(queues: seq<seq<Critique>>, limit: nat, base: seq<Pick>, ext: seq<Pick>)
    requires |ext| < |queues| && PartialBatch(queues, limit, base, ext) && FirstFree(queues, limit, |ext|, 0, base + ext).None?
    ensures StuckAt(queues, limit, base, |ext|, ext)
  {
    forall p | p in ext ensures p.v < |ext| {
      var u :| 0 <= u < |ext| && ext[u] == p;
      assert NextPick(queues, limit, base, ext, u);
    }
  }

  lemma {:induction false} RoundsKeepEven(queues: seq<seq<Critique>>, limit: nat, k: nat, picks: seq<Pick>, rounds: nat) returns (total: nat)
    requires queues != [] && Even(queues, limit, picks, 0, rounds)
    ensures rounds <= total <= rounds + k
    ensures Even(queues, limit, Rounds(queues, limit, k, picks), 0, total)
    ensures total < rounds + k ==> exists v, e :: StuckAt(queues, limit, Rounds(queues, limit, k, picks), v, e)
  {
    total := rounds;
    if k > 0 {
      assert picks + [] == picks;
      assert PartialBatch(queues, limit, picks, []);
      BatchKeepsEven(queues, limit, 0, picks, [], rounds);
      RoundsUnfold(queues, limit, k, picks);
      var b := Batch(queues, limit, 0, picks);
      if b.Some? {
        EvenWrap(queues, limit, b.value, rounds);
        total := RoundsKeepEven(queues, limit, k - 1, b.value, rounds + 1);
      }
    }
  }

  /** No verifier judged the same seed twice, as the panel guarantees. */
  ghost predicate DistinctVotes(candidates: seq<Critique>) {
    forall i, j :: 0 <= i < j < |candidates| ==>
      candidates[i].verifier != candidates[j].verifier || candidates[i].seed != candidates[j].seed
  }

  lemma {:induction false} OfMembers(candidates: seq<Critique>, v: string)
    ensures forall c :: c in Of(candidates, v) <==> c in candidates && c.verifier == v
  {
    if candidates != [] {
      OfMembers(candidates[1..], v);
      assert candidates == [candidates[0]] + candidates[1..];
    }
  }

  lemma {:induction false} OfNoTies(candidates: seq<Critique>, v: string)
    requires DistinctVotes(candidates)
    ensures Sorting.NoTies(SeedBefore, Of(candidates, v))
  {
    if candidates != [] {
      var rest := candidates[1..];
      assert forall i :: 0 <= i < |rest| ==> rest[i] == candidates[i + 1];
      OfNoTies(rest, v);
      var q := Of(rest, v);
      if candidates[0].verifier == v {
        OfMembers(rest, v);
        forall i | 0 <= i < |q| ensures q[i].seed != candidates[0].seed {
          assert q[i] in rest;
          var k :| 0 <= k < |rest| && rest[k] == q[i];
        }
        var all := [candidates[0]] + q;
        forall i, j | 0 <= i < j < |all| ensures SeedBefore(all[i], all[j]) || SeedBefore(all[j], all[i]) {
          assert all[j] == q[j - 1];
        }
        assert Of(candidates, v) == all;
      }
    }
  }

  lemma QueueFacts(candidates: seq<Critique>, v: string)
    ensures forall c :: c in Queue(candidates, v) <==> c in candidates && c.verifier == v
    ensures DistinctVotes(candidates) ==> Sorting.Strict(SeedBefore, Queue(candidates, v))
  {
    OfMembers(candidates, v);
    Sorting.SortKeeps(SeedBefore, Of(candidates, v));
    if DistinctVotes(candidates) {
      OfNoTies(candidates, v);
      Sorting.SortStrict(SeedBefore, Of(candidates, v));
    }
  }

  lemma {:induction false} ItemsFacts(candidates: seq<Critique>, order: seq<string>, picks: seq<Pick>)
    requires DistinctVotes(candidates) && NoDup(order) && InRange(Queues(candidates, order), picks) && NoDup(picks)
    ensures var items := Items(Queues(candidates, order), picks);
      && NoDup(items)
      && (forall c :: c in items ==> c in candidates && c.verifier in order)
      && (forall i, j :: 0 <= i < j < |items| ==> items[i].verifier != items[j].verifier || items[i].seed != items[j].seed)
  {
    var queues := Queues(candidates, order);
    var items := Items(queues, picks);
    forall v | v in order ensures
      (forall c :: c in Queue(candidates, v) ==> c in candidates && c.verifier == v) && Sorting.Strict(SeedBefore, Queue(candidates, v))
    {
      QueueFacts(candidates, v);
    }
    forall k | 0 <= k < |items| ensures items[k] in candidates && items[k].verifier == order[picks[k].v] {
      assert picks[k] in picks;
      assert items[k] in Queue(candidates, order[picks[k].v]);
    }
    forall i, j | 0 <= i < j < |items| ensures items[i].verifier != items[j].verifier || items[i].seed != items[j].seed {
      var p, q := picks[i], picks[j];
      assert p in picks && q in picks && p != q;
      if p.v == q.v {
        assert Sorting.Strict(SeedBefore, queues[p.v]);
        assert SeedBefore(queues[p.v][p.i], queues[p.v][q.i]) || SeedBefore(queues[p.v][q.i], queues[p.v][p.i]);
      }
    }
  }

  lemma QueueVerifier(candidates: seq<Critique>, order: seq<string>, p: Pick)
    requires InRange(Queues(candidates, order), [p])
    ensures p.v < |order| && p.i < |Queues(candidates, order)[p.v]|
    ensures Queues(candidates, order)[p.v][p.i].verifier == order[p.v]
  {
    assert p in [p];
    QueueFacts(candidates, order[p.v]);
    assert Queues(candidates, order)[p.v][p.i] in Queue(candidates, order[p.v]);
  }

  lemma {:induction false} CountVerifierItems(queues: seq<seq<Critique>>, order: seq<string>, picks: seq<Pick>, v: nat)
    requires NoDup(order) && v < |order| == |queues| && InRange(queues, picks)
    requires forall p :: p in picks ==> queues[p.v][p.i].verifier == order[p.v]
    ensures CountVerifier(Items(queues, picks), order[v]) == CountPicks(picks, v)
  {
    if picks != [] {
      var front, last := picks[..|picks| - 1], picks[|picks| - 1];
      assert last in picks && forall p :: p in front ==> p in picks;
      CountVerifierItems(queues, order, front, v);
      assert Items(queues, picks)[..|front|] == Items(queues, front);
    }
  }

  // ---- counts survive sorting -------------------------------------------------

  lemma {:induction false} CountVerifierAppend(a: seq<Critique>, b: seq<Critique>, v: string)
    ensures CountVerifier(a + b, v) == CountVerifier(a, v) + CountVerifier(b, v)
  {
    if b == [] {
      assert a + b == a;
    } else {
      CountVerifierAppend(a, b[..|b| - 1], v);
      assert (a + b)[..|a + b| - 1] == a + b[..|b| - 1];
    }
  }

  lemma {:induction false} CountsInsert(before: (Critique, Critique) -> bool, x: Critique, xs: seq<Critique>, s: real, v: string)
    ensures CountScore(Sorting.Insert(before, x, xs), s) == CountScore([x], s) + CountScore(xs, s)
    ensures CountVerifier(Sorting.Insert(before, x, xs), v) == CountVerifier([x], v) + CountVerifier(xs, v)
  {
    if xs != [] {
      var rest := xs[1..];
      assert xs == [xs[0]] + rest;
      CountScoreAppend([xs[0]], rest, s);
      CountVerifierAppend([xs[0]], rest, v);
      if before(xs[0], x) {
        CountsInsert(before, x, rest, s, v);
        CountScoreAppend([xs[0]], Sorting.Insert(before, x, rest), s);
        CountVerifierAppend([xs[0]], Sorting.Insert(before, x, rest), v);
      } else {
        CountScoreAppend([x], xs, s);
        CountVerifierAppend([x], xs, v);
      }
    }
  }

  lemma {:induction false} CountsSort(before: (Critique, Critique) -> bool, xs: seq<Critique>, s: real, v: string)
    ensures CountScore(Sorting.Sort(before, xs), s) == CountScore(xs, s)
    ensures CountVerifier(Sorting.Sort(before, xs), v) == CountVerifier(xs, v)
  {
    if xs != [] {
      var rest := xs[1..];
      CountsSort(before, rest, s, v);
      CountsInsert(before, xs[0], Sorting.Sort(before, rest), s, v);
      assert xs == [xs[0]] + rest;
      CountScoreAppend([xs[0]], rest, s);
      CountVerifierAppend([xs[0]], rest, v);
    }
  }

  // ---- the guarantees on the returned list --------------------------------------

  /** Strictly by score, then verifier order, then seed. */
  ghost predicate InOutputOrder(kept: seq<Critique>, order: seq<string>) {
    forall i, j :: 0 <= i < j < |kept| ==> OutputBefore(order, kept[i], kept[j])
  }

  lemma OutputFacts(items: seq<Critique>, order: seq<string>)
    requires NoDup(order) && forall c :: c in items ==> c.verifier in order
    requires forall i, j :: 0 <= i < j < |items| ==> items[i].verifier != items[j].verifier || items[i].seed != items[j].seed
    ensures InOutputOrder(Output(items, order), order)
    ensures |Output(items, order)| == |items| && forall c :: c in Output(items, order) <==> c in items
    ensures forall s :: CountScore(Output(items, order), s) == CountScore(items, s)
    ensures forall v :: CountVerifier(Output(items, order), v) == CountVerifier(items, v)
  {
    var before := (a: Critique, b: Critique) => OutputBefore(order, a, b);
    assert Sorting.WeakOrder(before);
    forall i, j | 0 <= i < j < |items| ensures before(items[i], items[j]) || before(items[j], items[i]) {
      assert items[i] in items && items[j] in items;
    }
    Sorting.SortStrict(before, items);
    Sorting.SortKeeps(before, items);
    assert Output(items, order) == Sorting.Sort(before, items);
    forall i, j | 0 <= i < j < |Output(items, order)| ensures OutputBefore(order, Output(items, order)[i], Output(items, order)[j]) {
      assert before(Output(items, order)[i], Output(items, order)[j]);
    }
    forall s ensures CountScore(Output(items, order), s) == CountScore(items, s) {
      CountsSort(before, items, s, "");
    }
    forall v ensures CountVerifier(Output(items, order), v) == CountVerifier(items, v) {
      CountsSort(before, items, 0.0, v);
    }
  }

  /** `ext[w]` is verifier `w`'s first judgment by seed that is not kept and fits beside what was picked before it. */
  ghost predicate NextVote(cap: nat, candidates: seq<Critique>, order: seq<string>, kept: seq<Critique>, ext: seq<Critique>, w: nat)
    requires w < |ext| <= |order|
  {
    && ext[w] in candidates && ext[w].verifier == order[w] && ext[w] !in kept
    && forall c :: c in candidates && c.verifier == order[w] && c.seed < ext[w].seed ==>
         c in kept || CountScore(kept, c.score) + CountScore(ext[..w], c.score) >= cap
  }

  /**
   * Verifier `v` has nothing left to give: `ext` is the pass that stopped at it, one new judgment from each earlier
   * verifier in turn and all within the caps, and after it every judgment of `v` is kept or would break its cap.
   */
  ghost predicate Exhausted(cap: nat, candidates: seq<Critique>, order: seq<string>, kept: seq<Critique>, v: nat, ext: seq<Critique>) {
    && v < |order| && |ext| == v
    && (forall w: nat :: w < v ==> NextVote(cap, candidates, order, kept, ext, w))
    && (forall s :: CountScore(kept, s) + CountScore(ext, s) <= cap)
    && (forall c :: c in candidates && c.verifier == order[v] ==>
         c in kept || CountScore(kept, c.score) + CountScore(ext, c.score) >= cap)
  }

  /** Judgments of one queue, by seed: an earlier seed has an earlier place. */
  lemma EarlierPlace(candidates: seq<Critique>, v: string, i: nat, j: nat)
    requires DistinctVotes(candidates) && i < |Queue(candidates, v)| && j < |Queue(candidates, v)|
    requires Queue(candidates, v)[i].seed < Queue(candidates, v)[j].seed
    ensures i < j
  {
    QueueFacts(candidates, v);
    var q := Queue(candidates, v);
    assert i != j;
    assert j < i ==> SeedBefore(q[j], q[i]);
  }

  lemma NotKept(candidates: seq<Critique>, order: seq<string>, picks: seq<Pick>, p: Pick)
    requires DistinctVotes(candidates) && NoDup(order) && InRange(Queues(candidates, order), picks + [p]) && InRange(Queues(candidates, order), picks)
    requires NoDup(picks) && p !in picks
    ensures p.v < |order| && p.i < |Queues(candidates, order)[p.v]|
    ensures Queues(candidates, order)[p.v][p.i] !in Items(Queues(candidates, order), picks)
  {
    NoDupAppend(picks, p);
    assert p in picks + [p];
    ItemsFacts(candidates, order, picks + [p]);
    var items := Items(Queues(candidates, order), picks + [p]);
    forall k | 0 <= k < |picks| ensures items[k] != items[|picks|] {
    }
    assert forall k :: 0 <= k < |picks| ==> Items(Queues(candidates, order), picks)[k] == items[k];
  }

  lemma StuckVote(candidates: seq<Critique>, order: seq<string>, picks: seq<Pick>, ext: seq<Pick>, w: nat)
    requires DistinctVotes(candidates) && NoDup(order) && NoDup(picks)
    requires InRange(Queues(candidates, order), picks) && InRange(Queues(candidates, order), picks + ext) && InRange(Queues(candidates, order), ext)
    requires w < |ext| <= |order| && NextPick(Queues(candidates, order), ScoreLimit(candidates), picks, ext, w)
    ensures NextVote(ScoreLimit(candidates), candidates, order, Items(Queues(candidates, order), picks), Items(Queues(candidates, order), ext), w)
  {
    var queues, limit := Queues(candidates, order), ScoreLimit(candidates);
    var kept, more, p := Items(queues, picks), Items(queues, ext), ext[w];
    assert p in ext && p in picks + ext && InRange(queues, picks + [p]);
    QueueFacts(candidates, order[w]);
    assert queues[w] == Queue(candidates, order[w]) && more[w] in Queue(candidates, order[w]);
    NotKept(candidates, order, picks, p);
    assert InRange(queues, ext[..w]) && Items(queues, ext[..w]) == more[..w];
    ItemsConcat(queues, picks, ext[..w]);
    forall c | c in candidates && c.verifier == order[w] && c.seed < more[w].seed
      ensures c in kept || CountScore(kept, c.score) + CountScore(more[..w], c.score) >= limit
    {
      var i :| 0 <= i < |queues[w]| && queues[w][i] == c;
      EarlierPlace(candidates, order[w], i, p.i);
      if Pick(w, i) in picks {
        PickedIsKept(queues, picks, Pick(w, i));
      } else {
        CountScoreAppend(kept, more[..w], c.score);
      }
    }
  }

  lemma StuckIsExhausted(candidates: seq<Critique>, order: seq<string>, picks: seq<Pick>, v: nat, ext: seq<Pick>)
    requires DistinctVotes(candidates) && NoDup(order) && NoDup(picks) && InRange(Queues(candidates, order), picks)
    requires StuckAt(Queues(candidates, order), ScoreLimit(candidates), picks, v, ext)
    ensures InRange(Queues(candidates, order), ext)
    ensures Exhausted(ScoreLimit(candidates), candidates, order, Items(Queues(candidates, order), picks), v, Items(Queues(candidates, order), ext))
  {
    var queues, limit := Queues(candidates, order), ScoreLimit(candidates);
    assert InRange(queues, ext) by { assert forall p :: p in ext ==> p in picks + ext; }
    var kept, more := Items(queues, picks), Items(queues, ext);
    ItemsConcat(queues, picks, ext);
    forall w: nat | w < v ensures NextVote(limit, candidates, order, kept, more, w) {
      StuckVote(candidates, order, picks, ext, w);
    }
    forall s ensures CountScore(kept, s) + CountScore(more, s) <= limit {
      CountScoreAppend(kept, more, s);
    }
    StuckOwn(candidates, order, picks, v, ext);
  }

  lemma StuckOwn(candidates: seq<Critique>, order: seq<string>, picks: seq<Pick>, v: nat, ext: seq<Pick>)
    requires InRange(Queues(candidates, order), picks) && InRange(Queues(candidates, order), ext)
    requires StuckAt(Queues(candidates, order), ScoreLimit(candidates), picks, v, ext)
    ensures var kept, more := Items(Queues(candidates, order), picks), Items(Queues(candidates, order), ext);
      forall c :: c in candidates && c.verifier == order[v] ==>
        c in kept || CountScore(kept, c.score) + CountScore(more, c.score) >= ScoreLimit(candidates)
  {
    var queues := Queues(candidates, order);
    var kept, more := Items(queues, picks), Items(queues, ext);
    ItemsConcat(queues, picks, ext);
    forall c | c in candidates && c.verifier == order[v]
      ensures c in kept || CountScore(kept, c.score) + CountScore(more, c.score) >= ScoreLimit(candidates)
    {
      QueueFacts(candidates, order[v]);
      var i :| 0 <= i < |queues[v]| && queues[v][i] == c;
      if Pick(v, i) in picks {
        PickedIsKept(queues, picks, Pick(v, i));
      } else {
        CountScoreAppend(kept, more, c.score);
      }
    }
  }

  lemma PickedIsKept(queues: seq<seq<Critique>>, picks: seq<Pick>, p: Pick)
    requires InRange(queues, picks) && p in picks
    ensures queues[p.v][p.i] in Items(queues, picks)
  {
    var k :| 0 <= k < |picks| && picks[k] == p;
    assert Items(queues, picks)[k] == queues[p.v][p.i];
  }

  /**
   * A duplicate-free part of the judgments, the same number from every verifier, at most 8 in all and within the cap per
   * score, in strict output order; and fewer than the full share only when some verifier has nothing left to give.
   */
  lemma WithinLimit(candidates: seq<Critique>, order: seq<string>) returns (each: nat)
    requires DistinctVotes(candidates) && NoDup(order) && candidates != [] && order != []
    ensures var kept := Retain(candidates, order);
      && |kept| == each * |order| <= MAX_CRITIQUES && each <= MAX_CRITIQUES / |order|
      && NoDup(kept) && (forall c :: c in kept ==> c in candidates && c.verifier in order)
      && (forall v :: v in order ==> CountVerifier(kept, v) == each)
      && (forall s :: CountScore(kept, s) <= ScoreLimit(candidates))
      && InOutputOrder(kept, order)
      && (each < MAX_CRITIQUES / |order| ==> exists v: nat, ext :: Exhausted(ScoreLimit(candidates), candidates, order, kept, v, ext))
  {
    var queues, limit := Queues(candidates, order), ScoreLimit(candidates);
    var full := MAX_CRITIQUES / |order|;
    each := RoundsKeepEven(queues, limit, full, [], 0);
    var picks := Selection(candidates, order);
    var items := Items(queues, picks);
    ItemsFacts(candidates, order, picks);
    OutputFacts(items, order);
    var kept := Retain(candidates, order);
    assert kept == Output(items, order);
    ShareBound(each, |order|);
    forall v | v in order ensures CountVerifier(kept, v) == each {
      var i :| 0 <= i < |order| && order[i] == v;
      forall p | p in picks ensures queues[p.v][p.i].verifier == order[p.v] {
        QueueVerifier(candidates, order, p);
      }
      CountVerifierItems(queues, order, picks, i);
    }
    assert NoDup(kept) by { OutputOrderDistinct(kept, order); }
    if each < full {
      var v, e :| StuckAt(queues, limit, picks, v, e);
      StuckIsExhausted(candidates, order, picks, v, e);
      SameExhausted(limit, candidates, order, items, kept, v, Items(queues, e));
    }
  }

  /** Sorting the kept judgments changes nothing about who is exhausted. */
  lemma SameExhausted(cap: nat, candidates: seq<Critique>, order: seq<string>, items: seq<Critique>, kept: seq<Critique>, v: nat, ext: seq<Critique>)
    requires Exhausted(cap, candidates, order, items, v, ext)
    requires (forall c :: c in items <==> c in kept) && forall s :: CountScore(kept, s) == CountScore(items, s)
    ensures Exhausted(cap, candidates, order, kept, v, ext)
  {
    forall w: nat | w < v ensures NextVote(cap, candidates, order, kept, ext, w) {
      assert NextVote(cap, candidates, order, items, ext, w);
    }
  }

  lemma OutputOrderDistinct(kept: seq<Critique>, order: seq<string>)
    requires InOutputOrder(kept, order)
    ensures NoDup(kept)
  {
  }

  lemma ShareBound(each: nat, n: nat)
    requires n > 0 && each <= MAX_CRITIQUES / n
    ensures each * n <= MAX_CRITIQUES
  {
    assert each * n <= (MAX_CRITIQUES / n) * n;
  }

  lemma {:induction false} OfMultiset(candidates: seq<Critique>, v: string, c: Critique)
    ensures multiset(Of(candidates, v))[c] == if c.verifier == v then multiset(candidates)[c] else 0
  {
    if candidates != [] {
      OfMultiset(candidates[1..], v, c);
      assert candidates == [candidates[0]] + candidates[1..];
    }
  }

  lemma QueueIgnoresInputOrder(candidates: seq<Critique>, candidates': seq<Critique>, v: string)
    requires DistinctVotes(candidates) && DistinctVotes(candidates') && multiset(candidates) == multiset(candidates')
    ensures Queue(candidates, v) == Queue(candidates', v)
  {
    forall c ensures multiset(Of(candidates, v))[c] == multiset(Of(candidates', v))[c] {
      OfMultiset(candidates, v, c);
      OfMultiset(candidates', v, c);
    }
    assert multiset(Of(candidates, v)) == multiset(Of(candidates', v));
    OfNoTies(candidates, v);
    OfNoTies(candidates', v);
    Sorting.SortUnique(SeedBefore, Of(candidates, v), Of(candidates', v));
  }

  /** The order in which judgments arrive does not matter. */
  lemma RetainIgnoresInputOrder(candidates: seq<Critique>, candidates': seq<Critique>, order: seq<string>)
    requires DistinctVotes(candidates) && DistinctVotes(candidates') && multiset(candidates) == multiset(candidates')
    ensures Retain(candidates, order) == Retain(candidates', order)
  {
    assert ScoreLimit(candidates) == ScoreLimit(candidates') by {
      assert forall c :: c in candidates <==> c in multiset(candidates');
    }
    assert |multiset(candidates)| == |multiset(candidates')|;
    forall i | 0 <= i < |order| ensures Queue(candidates, order[i]) == Queue(candidates', order[i]) {
      QueueIgnoresInputOrder(candidates, candidates', order[i]);
    }
    assert Queues(candidates, order) == Queues(candidates', order);
  }

  // ---- earlier judgments first ------------------------------------------------------------

  /** Everything before a pick in its queue is picked too, or has another score and that score is full. */
  ghost predicate Leading(queues: seq<seq<Critique>>, limit: nat, picks: seq<Pick>)
    requires InRange(queues, picks)
  {
    forall p, i :: p in picks && 0 <= i < p.i ==>
      Pick(p.v, i) in picks || (queues[p.v][i].score != queues[p.v][p.i].score && !Fits(queues, picks, limit, queues[p.v][i].score))
  }

  lemma LeadingStep(queues: seq<seq<Critique>>, limit: nat, picks: seq<Pick>, v: nat, i: nat)
    requires v < |queues| && InRange(queues, picks) && Leading(queues, limit, picks)
    requires FirstFree(queues, limit, v, 0, picks) == Some(i) && InRange(queues, picks + [Pick(v, i)])
    ensures Leading(queues, limit, picks + [Pick(v, i)])
  {
    var here := Pick(v, i);
    var more := picks + [here];
    forall p, k | p in more && 0 <= k < p.i
      ensures Pick(p.v, k) in more || (queues[p.v][k].score != queues[p.v][p.i].score && !Fits(queues, more, limit, queues[p.v][k].score))
    {
      if Pick(p.v, k) !in more {
        assert !Fits(queues, picks, limit, queues[p.v][k].score);
        NeverFitsAgain(queues, picks, [here], limit, queues[p.v][k].score);
      }
    }
  }

  lemma {:induction false} BatchLeads(queues: seq<seq<Critique>>, limit: nat, v: nat, picks: seq<Pick>)
    requires v <= |queues| && InRange(queues, picks) && Leading(queues, limit, picks)
    ensures Batch(queues, limit, v, picks).Some? ==> Leading(queues, limit, Batch(queues, limit, v, picks).value)
    decreases |queues| - v
  {
    if v < |queues| {
      match FirstFree(queues, limit, v, 0, picks)
      case None =>
      case Some(i) =>
        assert InRange(queues, picks + [Pick(v, i)]);
        LeadingStep(queues, limit, picks, v, i);
        BatchLeads(queues, limit, v + 1, picks + [Pick(v, i)]);
    }
  }

  lemma {:induction false} RoundsLead(queues: seq<seq<Critique>>, limit: nat, k: nat, picks: seq<Pick>)
    requires InRange(queues, picks) && Leading(queues, limit, picks)
    ensures Leading(queues, limit, Rounds(queues, limit, k, picks))
  {
    if k > 0 {
      BatchLeads(queues, limit, 0, picks);
      RoundsUnfold(queues, limit, k, picks);
      var b := Batch(queues, limit, 0, picks);
      if b.Some? { RoundsLead(queues, limit, k - 1, b.value); }
    }
  }

  /** A judgment passed over for a later one of its verifier has another score, and that score is full. */
  ghost predicate PassedOverWhenFull(cap: nat, candidates: seq<Critique>, kept: seq<Critique>) {
    forall c, d :: c in candidates && d in kept && c.verifier == d.verifier && c.seed < d.seed ==>
      c in kept || (c.score != d.score && CountScore(kept, c.score) >= cap)
  }

  lemma {:induction false} ItemsPassedOver(candidates: seq<Critique>, order: seq<string>, picks: seq<Pick>)
    requires DistinctVotes(candidates) && NoDup(order) && InRange(Queues(candidates, order), picks)
    requires Leading(Queues(candidates, order), ScoreLimit(candidates), picks)
    ensures PassedOverWhenFull(ScoreLimit(candidates), candidates, Items(Queues(candidates, order), picks))
  {
    var queues := Queues(candidates, order);
    var kept := Items(queues, picks);
    forall c, d | c in candidates && d in kept && c.verifier == d.verifier && c.seed < d.seed
      ensures c in kept || (c.score != d.score && CountScore(kept, c.score) >= ScoreLimit(candidates))
    {
      var k :| 0 <= k < |kept| && kept[k] == d;
      var p := picks[k];
      assert p in picks;
      QueueVerifier(candidates, order, p);
      QueueFacts(candidates, order[p.v]);
      var i :| 0 <= i < |queues[p.v]| && queues[p.v][i] == c;
      EarlierPlace(candidates, order[p.v], i, p.i);
      if Pick(p.v, i) in picks { PickedIsKept(queues, picks, Pick(p.v, i)); }
    }
  }

  lemma RetainPassesOver(candidates: seq<Critique>, order: seq<string>)
    requires DistinctVotes(candidates) && NoDup(order) && candidates != [] && order != []
    ensures PassedOverWhenFull(ScoreLimit(candidates), candidates, Retain(candidates, order))
  {
    var queues := Queues(candidates, order);
    var picks := Selection(candidates, order);
    RoundsLead(queues, ScoreLimit(candidates), MAX_CRITIQUES / |order|, []);
    ItemsPassedOver(candidates, order, picks);
    var total := RoundsKeepEven(queues, ScoreLimit(candidates), MAX_CRITIQUES / |order|, [], 0);
    ItemsFacts(candidates, order, picks);
    OutputFacts(Items(queues, picks), order);
  }

  // ---- the same in plain numbers -------------------------------------------------------------

  /** How often a score occurs, counted by places. */
  function Times(xs: seq<Critique>, score: real): nat {
    |set k | 0 <= k < |xs| && xs[k].score == score|
  }

  /** How many judgments of a verifier there are, counted by places. */
  function Votes(xs: seq<Critique>, verifier: string): nat {
    |set k | 0 <= k < |xs| && xs[k].verifier == verifier|
  }

  lemma LastTime(xs: seq<Critique>, score: real)
    requires xs != []
    ensures Times(xs, score) == Times(xs[..|xs| - 1], score) + (if xs[|xs| - 1].score == score then 1 else 0)
  {
    var n := |xs| - 1;
    var all, front := (set k | 0 <= k < |xs| && xs[k].score == score), (set k | 0 <= k < n && xs[..n][k].score == score);
    assert n !in front && all == if xs[n].score == score then front + {n} else front;
  }

  lemma {:induction false} CountScoreIsTimes(xs: seq<Critique>, score: real)
    ensures CountScore(xs, score) == Times(xs, score)
  {
    if xs != [] {
      CountScoreIsTimes(xs[..|xs| - 1], score);
      LastTime(xs, score);
    }
  }

  lemma LastVote(xs: seq<Critique>, verifier: string)
    requires xs != []
    ensures Votes(xs, verifier) == Votes(xs[..|xs| - 1], verifier) + (if xs[|xs| - 1].verifier == verifier then 1 else 0)
  {
    var n := |xs| - 1;
    var all, front := (set k | 0 <= k < |xs| && xs[k].verifier == verifier), (set k | 0 <= k < n && xs[..n][k].verifier == verifier);
    forall k ensures k in all <==> k in front || (k == n && xs[n].verifier == verifier) {
      if 0 <= k < n { assert xs[..n][k] == xs[k]; }
    }
    assert n !in front;
    if xs[n].verifier == verifier { assert all == front + {n}; } else { assert all == front; }
  }

  lemma {:induction false} CountVerifierIsVotes(xs: seq<Critique>, verifier: string)
    ensures CountVerifier(xs, verifier) == Votes(xs, verifier)
  {
    if xs != [] {
      CountVerifierIsVotes(xs[..|xs| - 1], verifier);
      LastVote(xs, verifier);
    }
  }

  /** Two judgments differ in score. */
  ghost predicate Mixed(candidates: seq<Critique>) {
    exists c, d :: c in candidates && d in candidates && c.score != d.score
  }

  /** By score, then by the verifier's place in the order, then by seed. */
  ghost predicate Sorted(kept: seq<Critique>, order: seq<string>) {
    forall i, j :: 0 <= i < j < |kept| ==> kept[i].score < kept[j].score || (kept[i].score == kept[j].score && ByVote(order, kept[i], kept[j]))
  }

  ghost predicate ByVote(order: seq<string>, c: Critique, d: Critique) {
    forall a, b :: 0 <= a < |order| && 0 <= b < |order| && order[a] == c.verifier && order[b] == d.verifier ==>
      a < b || (a == b && c.seed < d.seed)
  }

  lemma OutputIsSorted(kept: seq<Critique>, order: seq<string>)
    requires NoDup(order) && InOutputOrder(kept, order)
    ensures Sorted(kept, order)
  {
    forall i, j | 0 <= i < j < |kept|
      ensures kept[i].score < kept[j].score || (kept[i].score == kept[j].score && ByVote(order, kept[i], kept[j]))
    {
      assert OutputBefore(order, kept[i], kept[j]);
    }
  }

  /** The cap per score: 4 when scores differ, else 8. */
  lemma LimitInNumbers(candidates: seq<Critique>)
    ensures Mixed(candidates) ==> ScoreLimit(candidates) == 4
    ensures !Mixed(candidates) ==> ScoreLimit(candidates) == 8
  {
  }

  /**
   * What a refinement prompt may rely on: a duplicate-free part of the judgments, the same number `each` from every
   * verifier and 8 divided by their number at most; no score more than 4 times when the candidates differ in score; sorted
   * by score, verifier and seed; an earlier judgment passed over only when its score was full; and fewer than the full
   * share only when some verifier has nothing left that fits.
   */
  lemma RetainGuarantees(candidates: seq<Critique>, order: seq<string>) returns (each: nat)
    requires DistinctVotes(candidates) && NoDup(order) && candidates != [] && order != []
    ensures var kept, cap := Retain(candidates, order), if Mixed(candidates) then 4 else 8;
      && |kept| == each * |order| <= 8 && each <= 8 / |order|
      && NoDup(kept) && (forall c :: c in kept ==> c in candidates && c.verifier in order)
      && (forall v :: v in order ==> Votes(kept, v) == each)
      && (forall s :: Times(kept, s) <= cap)
      && Sorted(kept, order) && PassedOverWhenFull(cap, candidates, kept)
      && (each < 8 / |order| ==> exists v: nat, ext :: Exhausted(cap, candidates, order, kept, v, ext))
  {
    var kept := Retain(candidates, order);
    each := WithinLimit(candidates, order);
    LimitInNumbers(candidates);
    OutputIsSorted(kept, order);
    RetainPassesOver(candidates, order);
    forall v | v in order ensures Votes(kept, v) == each { CountVerifierIsVotes(kept, v); }
    forall s ensures Times(kept, s) <= ScoreLimit(candidates) { CountScoreIsTimes(kept, s); }
  }

  lemma {:induction false} UniformCount(xs: seq<Critique>, s: real)
    requires forall c :: c in xs ==> c.score == s
    ensures CountScore(xs, s) == |xs|
  {
    if xs != [] {
      var n := |xs| - 1;
      assert forall c :: c in xs[..n] ==> c in xs;
      UniformCount(xs[..n], s);
      assert xs[n] in xs;
    }
  }

  lemma {:induction false} VotesCovered(xs: seq<Critique>, kept: seq<Critique>, v: string)
    requires NoDup(xs) && forall c :: c in xs && c.verifier == v ==> c in kept
    ensures Votes(xs, v) <= Votes(kept, v)
    decreases xs
  {
    if xs != [] {
      var n := |xs| - 1;
      var front := xs[..n];
      CountVerifierIsVotes(xs, v);
      CountVerifierIsVotes(front, v);
      CountVerifierIsVotes(kept, v);
      if xs[n].verifier == v {
        var k :| 0 <= k < |kept| && kept[k] == xs[n];
        var others := kept[..k] + kept[k + 1..];
        assert kept == kept[..k] + [kept[k]] + kept[k + 1..];
        CountVerifierAppend(kept[..k] + [kept[k]], kept[k + 1..], v);
        CountVerifierAppend(kept[..k], [kept[k]], v);
        CountVerifierAppend(kept[..k], kept[k + 1..], v);
        CountVerifierIsVotes(others, v);
        assert [kept[k]][..0] == [];
        assert CountVerifier([kept[k]], v) == 1;
        forall c | c in front && c.verifier == v ensures c in others {
          var i :| 0 <= i < n && front[i] == c;
          assert xs[i] != xs[n];
          var m :| 0 <= m < |kept| && kept[m] == c;
          assert m < k ==> kept[..k][m] == c;
          assert m > k ==> kept[k + 1..][m - k - 1] == c;
        }
        VotesCovered(front, others, v);
      } else {
        VotesCovered(front, kept, v);
      }
    }
  }

  /** With one score for all and enough judgments from every verifier, every verifier gives its full share. */
  lemma UniformFillsTheShare(candidates: seq<Critique>, order: seq<string>)
    requires DistinctVotes(candidates) && NoDup(order) && candidates != [] && order != []
    requires !Mixed(candidates) && forall v :: v in order ==> Votes(candidates, v) >= 8 / |order|
    ensures |Retain(candidates, order)| == (8 / |order|) * |order|
  {
    var kept := Retain(candidates, order);
    var each := RetainGuarantees(candidates, order);
    if each < 8 / |order| {
      var v: nat, ext :| Exhausted(8, candidates, order, kept, v, ext);
      EverythingKept(candidates, order, kept, each, v, ext);
      assert false;
    }
    assert each == 8 / |order|;
  }

  /** With one score for all, a verifier that stops the selection early has given everything it has. */
  lemma EverythingKept(candidates: seq<Critique>, order: seq<string>, kept: seq<Critique>, each: nat, v: nat, ext: seq<Critique>)
    requires DistinctVotes(candidates) && order != [] && !Mixed(candidates)
    requires |kept| == each * |order| && each < 8 / |order| && forall c :: c in kept ==> c in candidates
    requires Exhausted(8, candidates, order, kept, v, ext)
    ensures order[v] in order && Votes(candidates, order[v]) <= Votes(kept, order[v])
  {
    UniformHasRoom(candidates, order, kept, each, v, ext);
    VotesCovered(candidates, kept, order[v]);
  }

  lemma ShareRoom(each: nat, n: nat)
    requires n > 0 && each < 8 / n
    ensures each * n + n <= 8
  {
    assert (each + 1) * n <= (8 / n) * n;
    Scoring.Times(each, n);
  }

  /** A pass that has begun leaves room under the cap of 8. */
  lemma UniformHasRoom(candidates: seq<Critique>, order: seq<string>, kept: seq<Critique>, each: nat, v: nat, ext: seq<Critique>)
    requires !Mixed(candidates) && order != [] && |kept| == each * |order| && each < 8 / |order|
    requires (forall c :: c in kept ==> c in candidates) && Exhausted(8, candidates, order, kept, v, ext)
    ensures forall c :: c in candidates && c.verifier == order[v] ==> c in kept
  {
    ShareRoom(each, |order|);
    forall c | c in candidates && c.verifier == order[v] ensures c in kept {
      forall w: nat | w < v ensures ext[w].score == c.score {
        assert NextVote(8, candidates, order, kept, ext, w);
      }
      forall e | e in ext ensures e.score == c.score {
        var w :| 0 <= w < |ext| && ext[w] == e;
      }
      UniformCount(kept, c.score);
      UniformCount(ext, c.score);
    }
  }

  lemma {:induction false} CountScoreBound(xs: seq<Critique>, s: real)
    ensures CountScore(xs, s) <= |xs|
  {
    if xs != [] { CountScoreBound(xs[..|xs| - 1], s); }
  }

  lemma {:induction false} VerifierHasVote(xs: seq<Critique>, v: string)
    requires CountVerifier(xs, v) > 0
    ensures exists c :: c in xs && c.verifier == v
  {
    var n := |xs| - 1;
    if xs[n].verifier != v {
      VerifierHasVote(xs[..n], v);
    } else {
      assert xs[n] in xs;
    }
  }

  /** Up to four verifiers with a judgment each are all heard: no cap can stop the first pass. */
  lemma EveryVerifierHeard(candidates: seq<Critique>, order: seq<string>)
    requires DistinctVotes(candidates) && NoDup(order) && 0 < |order| <= 4
    requires forall v :: v in order ==> exists c :: c in candidates && c.verifier == v
    ensures forall v :: v in order ==> exists c :: c in Retain(candidates, order) && c.verifier == v
  {
    assert order[0] in order;
    var each := WithinLimit(candidates, order);
    var kept := Retain(candidates, order);
    if each == 0 {
      var v: nat, ext :| Exhausted(ScoreLimit(candidates), candidates, order, kept, v, ext);
      NoFirstPassStops(candidates, order, v, ext);
    }
    forall v | v in order ensures exists c :: c in kept && c.verifier == v { VerifierHasVote(kept, v); }
  }

  lemma NoFirstPassStops(candidates: seq<Critique>, order: seq<string>, v: nat, ext: seq<Critique>)
    requires |order| <= 4 && forall w :: w in order ==> exists c :: c in candidates && c.verifier == w
    ensures !Exhausted(ScoreLimit(candidates), candidates, order, [], v, ext)
  {
    if v < |order| && |ext| == v {
      assert order[v] in order;
      var c :| c in candidates && c.verifier == order[v];
      CountScoreBound(ext, c.score);
      LimitInNumbers(candidates);
    }
  }
}
