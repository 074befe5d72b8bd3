/** Critique retention (scoring.py): the balanced greedy pick, and its trip through a pool record. */
module Critiques {
  import opened Options
  import Sorting
  import Scoring

  const MAX_CRITIQUES: nat := 8
  const MAX_CRITIQUES_PER_SCORE: nat := 4

  datatype Critique = Critique(rating: string, score: real, verifier: string, seed: int)

  // ---- queues --------------------------------------------------------------

  function Of(candidates: seq<Critique>, v: string): seq<Critique> {
    if candidates == [] then []
    else (if candidates[0].verifier == v then [candidates[0]] else []) + Of(candidates[1..], v)
  }

  predicate SeedBefore(a: Critique, b: Critique) {
    a.seed < b.seed
  }

  /** A verifier's judgments by seed. */
  function Queue(candidates: seq<Critique>, v: string): seq<Critique> {
    Sorting.Sort(SeedBefore, Of(candidates, v))
  }

  function Queues(candidates: seq<Critique>, order: seq<string>): (r: seq<seq<Critique>>)
    ensures |r| == |order| && forall i :: 0 <= i < |order| ==> r[i] == Queue(candidates, order[i])
  {
    seq(|order|, i requires 0 <= i < |order| => Queue(candidates, order[i]))
  }

  predicate OneScore(candidates: seq<Critique>) {
    forall c, d :: c in candidates && d in candidates ==> c.score == d.score
  }

  function ScoreLimit(candidates: seq<Critique>): nat {
    if OneScore(candidates) then MAX_CRITIQUES else MAX_CRITIQUES_PER_SCORE
  }

  function CountScore(xs: seq<Critique>, s: real): nat {
    if xs == [] then 0 else (if xs[|xs| - 1].score == s then 1 else 0) + CountScore(xs[..|xs| - 1], s)
  }

  function CountVerifier(xs: seq<Critique>, v: string): nat {
    if xs == [] then 0 else (if xs[|xs| - 1].verifier == v then 1 else 0) + CountVerifier(xs[..|xs| - 1], v)
  }

  // ---- the simple form: rescan each queue for its first unselected fitting item ----

  /** Position `i` of verifier `v`'s queue. */
  datatype Pick = Pick(v: nat, i: nat)

  predicate InRange(queues: seq<seq<Critique>>, picks: seq<Pick>) {
    forall p :: p in picks ==> p.v < |queues| && p.i < |queues[p.v]|
  }

  function Items(queues: seq<seq<Critique>>, picks: seq<Pick>): (r: seq<Critique>)
    requires InRange(queues, picks)
    ensures |r| == |picks| && forall k :: 0 <= k < |picks| ==> r[k] == queues[picks[k].v][picks[k].i]
  {
    seq(|picks|, k requires 0 <= k < |picks| => assert picks[k] in picks; queues[picks[k].v][picks[k].i])
  }

  /** Whether one more item of this score stays within the cap. */
  predicate Fits(queues: seq<seq<Critique>>, picks: seq<Pick>, limit: nat, score: real)
    requires InRange(queues, picks)
  {
    CountScore(Items(queues, picks), score) < limit
  }

  /** The first unselected item of queue `v` at or after `from` that fits. */
  function FirstFree(queues: seq<seq<Critique>>, limit: nat, v: nat, from: nat, picks: seq<Pick>): (r: Option<nat>)
    requires v < |queues| && from <= |queues[v]| && InRange(queues, picks)
    ensures r.Some? ==> from <= r.value < |queues[v]| && Pick(v, r.value) !in picks && Fits(queues, picks, limit, queues[v][r.value].score)
    ensures forall i :: from <= i < (if r.Some? then r.value else |queues[v]|) ==> Pick(v, i) in picks || !Fits(queues, picks, limit, queues[v][i].score)
    decreases |queues[v]| - from
  {
    if from == |queues[v]| then None
    else if Pick(v, from) !in picks && Fits(queues, picks, limit, queues[v][from].score) then Some(from)
    else FirstFree(queues, limit, v, from + 1, picks)
  }

  /** One pass over the verifiers from `v` on; nothing when some verifier has nothing left to give. */
  function Batch(queues: seq<seq<Critique>>, limit: nat, v: nat, picks: seq<Pick>): (r: Option<seq<Pick>>)
    requires v <= |queues| && InRange(queues, picks)
    ensures r.Some? ==> InRange(queues, r.value)
    decreases |queues| - v
  {
    if v == |queues| then Some(picks)
    else match FirstFree(queues, limit, v, 0, picks)
      case None => None
      case Some(i) => Batch(queues, limit, v + 1, picks + [Pick(v, i)])
  }

  function Rounds(queues: seq<seq<Critique>>, limit: nat, k: nat, picks: seq<Pick>): (r: seq<Pick>)
    requires InRange(queues, picks)
    ensures InRange(queues, r)
  {
    if k == 0 then picks
    else match Batch(queues, limit, 0, picks)
      case None => picks
      case Some(p) => Rounds(queues, limit, k - 1, p)
  }

  function Rank(order: seq<string>, v: string): nat {
    if v in order then Scoring.IndexOf(order, v) else |order|
  }

  /** The output order: score, then verifier order, then seed. */
  predicate OutputBefore(order: seq<string>, a: Critique, b: Critique) {
    a.score < b.score || (a.score == b.score && (
    Rank(order, a.verifier) < Rank(order, b.verifier) || (Rank(order, a.verifier) == Rank(order, b.verifier) && a.seed < b.seed)))
  }

  function Output(selected: seq<Critique>, order: seq<string>): seq<Critique> {
    Sorting.Sort((a, b) => OutputBefore(order, a, b), selected)
  }

  function Selection(candidates: seq<Critique>, order: seq<string>): (r: seq<Pick>)
    requires order != []
    ensures InRange(Queues(candidates, order), r)
  {
    Rounds(Queues(candidates, order), ScoreLimit(candidates), MAX_CRITIQUES / |order|, [])
  }

  function Retain(candidates: seq<Critique>, order: seq<string>): seq<Critique> {
    if candidates == [] || order == [] then []
    else Output(Items(Queues(candidates, order), Selection(candidates, order)), order)
  }

  // ---- the code's form: positions that only move forward --------------------

  function Get(counts: map<real, nat>, s: real): nat {
    if s in counts then counts[s] else 0
  }

  ghost predicate CountsAgree(counts: map<real, nat>, items: seq<Critique>) {
    forall s :: Get(counts, s) == CountScore(items, s)
  }

  /** Everything before a position is selected or will never fit again, and nothing after it is selected. */
  ghost predicate Behind(queues: seq<seq<Critique>>, limit: nat, positions: seq<nat>, picks: seq<Pick>)
    requires InRange(queues, picks) && |positions| == |queues|
  {
    && (forall v :: 0 <= v < |queues| ==> positions[v] <= |queues[v]|)
    && (forall v, i :: 0 <= v < |queues| && 0 <= i < positions[v] ==>
         Pick(v, i) in picks || !Fits(queues, picks, limit, queues[v][i].score))
    && (forall p :: p in picks ==> p.i < positions[p.v])
  }

  lemma {:induction false} CountScoreAppend(a: seq<Critique>, b: seq<Critique>, s: real)
    ensures CountScore(a + b, s) == CountScore(a, s) + CountScore(b, s)
  {
    if b == [] {
      assert a + b == a;
    } else {
      CountScoreAppend(a, b[..|b| - 1], s);
      assert (a + b)[..|a + b| - 1] == a + b[..|b| - 1];
    }
  }

  /** Counts only grow, so what does not fit now never fits later. */
  lemma NeverFitsAgain(queues: seq<seq<Critique>>, picks: seq<Pick>, more: seq<Pick>, limit: nat, s: real)
    requires InRange(queues, picks) && InRange(queues, picks + more)
    requires !Fits(queues, picks, limit, s)
    ensures !Fits(queues, picks + more, limit, s)
  {
    assert InRange(queues, more) by { assert forall p :: p in more ==> p in picks + more; }
    assert Items(queues, picks + more) == Items(queues, picks) + Items(queues, more);
    CountScoreAppend(Items(queues, picks), Items(queues, more), s);
  }

  lemma {:induction false} FirstFreeSkips(queues: seq<seq<Critique>>, limit: nat, v: nat, from: nat, upto: nat, picks: seq<Pick>)
    requires v < |queues| && from <= upto <= |queues[v]| && InRange(queues, picks)
    requires forall i :: from <= i < upto ==> Pick(v, i) in picks || !Fits(queues, picks, limit, queues[v][i].score)
    ensures FirstFree(queues, limit, v, from, picks) == FirstFree(queues, limit, v, upto, picks)
    decreases upto - from
  {
    if from < upto {
      FirstFreeSkips(queues, limit, v, from + 1, upto, picks);
    }
  }

  predicate Room(scoreCounts: map<real, nat>, batchCounts: map<real, nat>, limit: nat, c: Critique) {
    Get(scoreCounts, c.score) + Get(batchCounts, c.score) < limit
  }

  /** The inner loop: the next item of one queue whose score is still under the cap. */
  method NextEligible(queue: seq<Critique>, start: nat, scoreCounts: map<real, nat>, batchCounts: map<real, nat>, limit: nat)
    returns (pick: Option<Critique>, position: nat)
    requires start <= |queue|
    ensures start <= position <= |queue|
    ensures pick.None? ==> position == |queue| && forall i :: start <= i < |queue| ==> !Room(scoreCounts, batchCounts, limit, queue[i])
    ensures pick.Some? ==> position > start && pick.value == queue[position - 1]
    ensures pick.Some? ==> Room(scoreCounts, batchCounts, limit, queue[position - 1])
    ensures pick.Some? ==> forall i :: start <= i < position - 1 ==> !Room(scoreCounts, batchCounts, limit, queue[i])
  {
    pick, position := None, start;
    while position < |queue| && pick.None?
      invariant start <= position <= |queue|
      invariant pick.None? ==> forall i :: start <= i < position ==> !Room(scoreCounts, batchCounts, limit, queue[i])
      invariant pick.Some? ==> position > start && pick.value == queue[position - 1]
      invariant pick.Some? ==> Room(scoreCounts, batchCounts, limit, queue[position - 1])
      invariant pick.Some? ==> forall i :: start <= i < position - 1 ==> !Room(scoreCounts, batchCounts, limit, queue[i])
      decreases |queue| - position, pick.None?
    {
      var item := queue[position];
      position := position + 1;
      if Room(scoreCounts, batchCounts, limit, item) {
        pick := Some(item);
      }
    }
  }

  /** What one pass keeps: `more` are the queue places of the items in `batch`. */
  ghost predicate PassState(queues: seq<seq<Critique>>, limit: nat, positions: seq<nat>, picks: seq<Pick>, v: nat,
                            more: seq<Pick>, batch: seq<Critique>, batchCounts: map<real, nat>, next: seq<nat>) {
    && v <= |queues| == |positions| == |next|
    && InRange(queues, picks) && InRange(queues, more) && InRange(queues, picks + more)
    && batch == Items(queues, more) && CountsAgree(batchCounts, batch)
    && (forall w :: v <= w < |queues| ==> next[w] == positions[w])
    && Behind(queues, limit, next, picks + more)
  }

  /** The positions after one more pick stay ahead of everything picked or unfit. */
  lemma PassBehind(queues: seq<seq<Critique>>, limit: nat, picks: seq<Pick>, more: seq<Pick>, next: seq<nat>, v: nat,
                   scoreCounts: map<real, nat>, batchCounts: map<real, nat>, position: nat)
    requires InRange(queues, picks) && InRange(queues, more) && InRange(queues, picks + more) && |next| == |queues|
    requires CountsAgree(scoreCounts, Items(queues, picks)) && CountsAgree(batchCounts, Items(queues, more))
    requires Behind(queues, limit, next, picks + more)
    requires v < |queues| && next[v] < position <= |queues[v]|
    requires forall i :: next[v] <= i < position - 1 ==> !Room(scoreCounts, batchCounts, limit, queues[v][i])
    ensures InRange(queues, picks + (more + [Pick(v, position - 1)]))
    ensures Behind(queues, limit, next[v := position], picks + (more + [Pick(v, position - 1)]))
  {
    CountsAddUp(queues, picks, more, scoreCounts, batchCounts, limit);
    KeepBehind(queues, limit, next, picks + more, v, position);
    Assoc(picks, more, [Pick(v, position - 1)]);
  }

  lemma PassStep(queues: seq<seq<Critique>>, limit: nat, positions: seq<nat>, picks: seq<Pick>, v: nat,
                 more: seq<Pick>, batch: seq<Critique>, batchCounts: map<real, nat>, next: seq<nat>,
                 scoreCounts: map<real, nat>, position: nat)
    requires PassState(queues, limit, positions, picks, v, more, batch, batchCounts, next)
    requires CountsAgree(scoreCounts, Items(queues, picks))
    requires v < |queues| && positions[v] < position <= |queues[v]|
    requires forall i :: positions[v] <= i < position - 1 ==> !Room(scoreCounts, batchCounts, limit, queues[v][i])
    ensures var c := queues[v][position - 1];
      PassState(queues, limit, positions, picks, v + 1, more + [Pick(v, position - 1)], batch + [c],
                batchCounts[c.score := Get(batchCounts, c.score) + 1], next[v := position])
  {
    PassBehind(queues, limit, picks, more, next, v, scoreCounts, batchCounts, position);
    CountOneMore(batchCounts, batch, queues[v][position - 1]);
    AppendPick(queues, more, Pick(v, position - 1));
  }

  /** The pass takes the item the simple form would take. */
  lemma PassTakes(queues: seq<seq<Critique>>, limit: nat, positions: seq<nat>, picks: seq<Pick>, v: nat,
                  more: seq<Pick>, batch: seq<Critique>, batchCounts: map<real, nat>, next: seq<nat>,
                  scoreCounts: map<real, nat>, position: nat)
    requires PassState(queues, limit, positions, picks, v, more, batch, batchCounts, next)
    requires CountsAgree(scoreCounts, Items(queues, picks))
    requires v < |queues| && positions[v] < position <= |queues[v]|
    requires Room(scoreCounts, batchCounts, limit, queues[v][position - 1])
    requires forall i :: positions[v] <= i < position - 1 ==> !Room(scoreCounts, batchCounts, limit, queues[v][i])
    ensures InRange(queues, picks + (more + [Pick(v, position - 1)]))
    ensures Batch(queues, limit, v, picks + more) == Batch(queues, limit, v + 1, picks + (more + [Pick(v, position - 1)]))
  {
    var all, here := picks + more, Pick(v, position - 1);
    assert all + [here] == picks + (more + [here]);
    CountsAddUp(queues, picks, more, scoreCounts, batchCounts, limit);
    BatchTakes(queues, limit, v, all, position - 1);
  }

  lemma AppendPick(queues: seq<seq<Critique>>, picks: seq<Pick>, here: Pick)
    requires InRange(queues, picks) && here.v < |queues| && here.i < |queues[here.v]|
    ensures InRange(queues, picks + [here])
    ensures Items(queues, picks + [here]) == Items(queues, picks) + [queues[here.v][here.i]]
  {
  }

  lemma BatchTakes(queues: seq<seq<Critique>>, limit: nat, v: nat, picks: seq<Pick>, i: nat)
    requires v < |queues| && i < |queues[v]| && InRange(queues, picks)
    requires Pick(v, i) !in picks && Fits(queues, picks, limit, queues[v][i].score)
    requires forall k :: 0 <= k < i ==> Pick(v, k) in picks || !Fits(queues, picks, limit, queues[v][k].score)
    ensures InRange(queues, picks + [Pick(v, i)])
    ensures Batch(queues, limit, v, picks) == Batch(queues, limit, v + 1, picks + [Pick(v, i)])
  {
    FirstFreeSkips(queues, limit, v, 0, i, picks);
  }

  lemma PassStuck(queues: seq<seq<Critique>>, limit: nat, positions: seq<nat>, picks: seq<Pick>, v: nat,
                  more: seq<Pick>, batch: seq<Critique>, batchCounts: map<real, nat>, next: seq<nat>, scoreCounts: map<real, nat>)
    requires PassState(queues, limit, positions, picks, v, more, batch, batchCounts, next)
    requires CountsAgree(scoreCounts, Items(queues, picks))
    requires v < |queues| && positions[v] <= |queues[v]|
    requires forall i :: positions[v] <= i < |queues[v]| ==> !Room(scoreCounts, batchCounts, limit, queues[v][i])
    ensures Batch(queues, limit, v, picks + more).None?
  {
    CountsAddUp(queues, picks, more, scoreCounts, batchCounts, limit);
    FirstFreeSkips(queues, limit, v, 0, |queues[v]|, picks + more);
  }

  method TakeBatch(queues: seq<seq<Critique>>, positions: seq<nat>, scoreCounts: map<real, nat>, limit: nat, ghost picks: seq<Pick>)
    returns (ok: bool, batch: seq<Critique>, batchCounts: map<real, nat>, nextPositions: seq<nat>, ghost more: seq<Pick>)
    requires |positions| == |queues| && InRange(queues, picks)
    requires CountsAgree(scoreCounts, Items(queues, picks)) && Behind(queues, limit, positions, picks)
    ensures !ok ==> Batch(queues, limit, 0, picks).None?
    ensures ok ==> PassState(queues, limit, positions, picks, |queues|, more, batch, batchCounts, nextPositions)
    ensures ok ==> Batch(queues, limit, 0, picks) == Some(picks + more)
  {
    batch, batchCounts, nextPositions, more := [], map[], positions, [];
    assert picks + more == picks;
    for v := 0 to |queues|
      invariant PassState(queues, limit, positions, picks, v, more, batch, batchCounts, nextPositions)
      invariant Batch(queues, limit, v, picks + more) == Batch(queues, limit, 0, picks)
    {
      var pick, position := NextEligible(queues[v], positions[v], scoreCounts, batchCounts, limit);
      if pick.None? {
        PassStuck(queues, limit, positions, picks, v, more, batch, batchCounts, nextPositions, scoreCounts);
        return false, batch, batchCounts, nextPositions, more;
      }
      PassTakes(queues, limit, positions, picks, v, more, batch, batchCounts, nextPositions, scoreCounts, position);
      PassStep(queues, limit, positions, picks, v, more, batch, batchCounts, nextPositions, scoreCounts, position);
      batch := batch + [pick.value];
      batchCounts := batchCounts[pick.value.score := Get(batchCounts, pick.value.score) + 1];
      nextPositions := nextPositions[v := position];
      more := more + [Pick(v, position - 1)];
    }
    ok := true;
  }

  /** What the rounds keep. */
  ghost predicate RoundState(queues: seq<seq<Critique>>, limit: nat, positions: seq<nat>, counts: map<real, nat>,
                             selected: seq<Critique>, picks: seq<Pick>) {
    && |positions| == |queues| && InRange(queues, picks)
    && selected == Items(queues, picks) && CountsAgree(counts, selected)
    && Behind(queues, limit, positions, picks)
  }

  lemma ItemsConcat(queues: seq<seq<Critique>>, picks: seq<Pick>, more: seq<Pick>)
    requires InRange(queues, picks) && InRange(queues, more) && InRange(queues, picks + more)
    ensures Items(queues, picks + more) == Items(queues, picks) + Items(queues, more)
  {
  }

  lemma RoundStep(queues: seq<seq<Critique>>, limit: nat, positions: seq<nat>, counts: map<real, nat>,
                  selected: seq<Critique>, picks: seq<Pick>, more: seq<Pick>, batch: seq<Critique>, batchCounts: map<real, nat>, next: seq<nat>)
    requires InRange(queues, picks) && selected == Items(queues, picks) && CountsAgree(counts, selected) && |positions| == |queues|
    requires PassState(queues, limit, positions, picks, |queues|, more, batch, batchCounts, next)
    ensures RoundState(queues, limit, next, Merged(counts, batchCounts), selected + batch, picks + more)
  {
    MergeCounts(counts, batchCounts, selected, batch);
    ItemsConcat(queues, picks, more);
  }

  lemma RoundsUnfold(queues: seq<seq<Critique>>, limit: nat, k: nat, picks: seq<Pick>)
    requires k > 0 && InRange(queues, picks)
    ensures Batch(queues, limit, 0, picks).None? ==> Rounds(queues, limit, k, picks) == picks
    ensures Batch(queues, limit, 0, picks).Some? ==>
      Rounds(queues, limit, k, picks) == Rounds(queues, limit, k - 1, Batch(queues, limit, 0, picks).value)
  {
  }

  function Merged(a: map<real, nat>, b: map<real, nat>): map<real, nat> {
    map s | s in a.Keys + b.Keys :: Get(a, s) + Get(b, s)
  }

  /** `retain_critiques`, equal to the simple form that rescans every queue from its start. */
  method RetainCritiques(candidates: seq<Critique>, order: seq<string>) returns (kept: seq<Critique>)
    ensures kept == Retain(candidates, order)
  {
    if |candidates| == 0 || |order| == 0 {
      return [];
    }
    var perVerifierLimit := MAX_CRITIQUES / |order|;
    var limit := ScoreLimit(candidates);
    var queues := Queues(candidates, order);
    var positions: seq<nat> := seq(|order|, i => 0);
    var scoreCounts: map<real, nat> := map[];
    var selected: seq<Critique> := [];
    ghost var picks: seq<Pick> := [];
    ghost var goal := Selection(candidates, order);
    for round := 0 to perVerifierLimit
      invariant RoundState(queues, limit, positions, scoreCounts, selected, picks)
      invariant Rounds(queues, limit, perVerifierLimit - round, picks) == goal
    {
      var ok, batch, batchCounts, nextPositions, more := TakeBatch(queues, positions, scoreCounts, limit, picks);
      RoundsUnfold(queues, limit, perVerifierLimit - round, picks);
      if !ok {
        return Output(selected, order);
      }
      RoundStep(queues, limit, positions, scoreCounts, selected, picks, more, batch, batchCounts, nextPositions);
      selected := selected + batch;
      positions := nextPositions;
      scoreCounts := Merged(scoreCounts, batchCounts);
      picks := picks + more;
    }
    return Output(selected, order);
  }

  /** The two counters together say what fits. */
  lemma CountsAddUp(queues: seq<seq<Critique>>, picks: seq<Pick>, more: seq<Pick>, a: map<real, nat>, b: map<real, nat>, limit: nat)
    requires InRange(queues, picks) && InRange(queues, more) && InRange(queues, picks + more)
    requires CountsAgree(a, Items(queues, picks)) && CountsAgree(b, Items(queues, more))
    ensures forall s :: Fits(queues, picks + more, limit, s) <==> Get(a, s) + Get(b, s) < limit
  {
    assert Items(queues, picks + more) == Items(queues, picks) + Items(queues, more);
    forall s ensures CountScore(Items(queues, picks + more), s) == Get(a, s) + Get(b, s) {
      CountScoreAppend(Items(queues, picks), Items(queues, more), s);
    }
  }

  lemma CountOneMore(counts: map<real, nat>, items: seq<Critique>, c: Critique)
    requires CountsAgree(counts, items)
    ensures CountsAgree(counts[c.score := Get(counts, c.score) + 1], items + [c])
  {
    assert (items + [c])[..|items|] == items;
    var counts' := counts[c.score := Get(counts, c.score) + 1];
    forall s ensures Get(counts', s) == CountScore(items + [c], s) {
      assert Get(counts, s) == CountScore(items, s);
    }
  }

  lemma MergeCounts(a: map<real, nat>, b: map<real, nat>, xs: seq<Critique>, ys: seq<Critique>)
    requires CountsAgree(a, xs) && CountsAgree(b, ys)
    ensures CountsAgree(Merged(a, b), xs + ys)
  {
    forall s ensures Get(a, s) + Get(b, s) == CountScore(xs + ys, s) {
      CountScoreAppend(xs, ys, s);
    }
  }

  lemma KeepBehind(queues: seq<seq<Critique>>, limit: nat, positions: seq<nat>, picks: seq<Pick>, v: nat, position: nat)
    requires InRange(queues, picks) && |positions| == |queues| && Behind(queues, limit, positions, picks)
    requires v < |queues| && positions[v] < position <= |queues[v]|
    requires forall i :: positions[v] <= i < position - 1 ==> !Fits(queues, picks, limit, queues[v][i].score)
    ensures InRange(queues, picks + [Pick(v, position - 1)])
    ensures Behind(queues, limit, positions[v := position], picks + [Pick(v, position - 1)])
  {
    var here := Pick(v, position - 1);
    var positions' := positions[v := position];
    assert InRange(queues, picks + [here]);
    forall w, i | 0 <= w < |queues| && 0 <= i < positions'[w]
      ensures Pick(w, i) in picks + [here] || !Fits(queues, picks + [here], limit, queues[w][i].score)
    {
      if Pick(w, i) !in picks + [here] {
        assert Pick(w, i) !in picks;
        NeverFitsAgain(queues, picks, [here], limit, queues[w][i].score);
      }
    }
  }
}
