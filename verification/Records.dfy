/**
 * Ranking pool records for refinement and for the fallback finalist, on the records' own fields: what the choice of
 * parents and the choice of the fallback have to do with mean, self-evaluation, round and id.
 */
module Records {
  import opened Options
  import opened Search
  import Ranking
  import Sorting

  /** `min(evidence, key=proof_rank_key)`: the first record no other beats. */
  function Best(pool: seq<Record>): (r: Option<nat>)
    ensures r.Some? ==> r.value < |pool| && IsEvidence(pool[r.value])
  {
    if pool == [] then None
    else
      var n := |pool| - 1;
      match Best(pool[..n])
      case None => if IsEvidence(pool[n]) then Some(n) else None
      case Some(k) =>
        if IsEvidence(pool[n]) && Ranking.Before(PooledOf(pool[n]), PooledOf(pool[k])) then Some(n) else Some(k)
  }

  // ---- the rule on record fields ----------------------------------------------------------------

  /** The panel of this record is complete. */
  ghost predicate Judgeable(pool: seq<Record>, p: int) {
    0 <= p < |pool| && pool[p].verdict.Some? && pool[p].verdict.value.complete
  }

  /** At least as great, as floats that are not NaN compare. */
  ghost predicate AtLeast(x: Ranking.Float, y: Ranking.Float) {
    x.PlusInfinity? || y.MinusInfinity? || (x.Finite? && y.Finite? && x.value >= y.value)
  }

  /** Greater mean, then greater self-evaluation, then later round, then smaller id. */
  ghost predicate NotBehind(a: Record, b: Record)
    requires a.verdict.Some? && b.verdict.Some?
  {
    a.verdict.value.mean >= b.verdict.value.mean &&
    (a.verdict.value.mean == b.verdict.value.mean ==>
      AtLeast(a.selfEval, b.selfEval) && (a.selfEval == b.selfEval ==> a.round >= b.round && (a.round == b.round ==> a.id <= b.id)))
  }

  /** Nobody who shares the mean of record `k` has a NaN self-evaluation. */
  ghost predicate NoNaNBeside(pool: seq<Record>, k: int)
    requires Judgeable(pool, k)
  {
    forall p :: Judgeable(pool, p) && pool[p].verdict.value.mean == pool[k].verdict.value.mean ==> !pool[p].selfEval.NaN?
  }

  lemma BeforeIsNotBehind(a: Record, b: Record)
    requires a.verdict.Some? && b.verdict.Some? && Ranking.Before(PooledOf(a), PooledOf(b))
    ensures a.verdict.value.mean >= b.verdict.value.mean
    ensures (a.selfEval.NaN? || b.selfEval.NaN?) || NotBehind(a, b)
  {
  }

  lemma NotBeforeIsNotBehind(a: Record, b: Record)
    requires a.verdict.Some? && b.verdict.Some? && !Ranking.Before(PooledOf(b), PooledOf(a))
    ensures a.verdict.value.mean >= b.verdict.value.mean
    ensures (a.selfEval.NaN? || b.selfEval.NaN?) || NotBehind(a, b)
  {
  }

  lemma NotBehindTransitive(a: Record, b: Record, c: Record)
    requires a.verdict.Some? && b.verdict.Some? && c.verdict.Some?
    requires NotBehind(a, b) && NotBehind(b, c) && !a.selfEval.NaN? && !b.selfEval.NaN? && !c.selfEval.NaN?
    ensures NotBehind(a, c)
  {
  }

  // ---- the fallback -----------------------------------------------------------------------------

  /**
   * The fallback record has a complete panel and the greatest mean of all complete records, NaN self-evaluations or not;
   * with none of these among the records of that mean, it is behind none in self-evaluation, round and id.
   */
  lemma {:induction false} BestByRecord(pool: seq<Record>)
    ensures Best(pool).None? <==> forall p :: !Judgeable(pool, p)
    ensures Best(pool).Some? ==>
      var k := Best(pool).value;
      && Judgeable(pool, k)
      && (forall p :: Judgeable(pool, p) ==> pool[k].verdict.value.mean >= pool[p].verdict.value.mean)
      && (NoNaNBeside(pool, k) ==> forall p :: Judgeable(pool, p) ==> NotBehind(pool[k], pool[p]))
  {
    if pool != [] {
      var n := |pool| - 1;
      var front := pool[..n];
      BestByRecord(front);
      assert forall p :: Judgeable(front, p) <==> p < n && Judgeable(pool, p);
      if Best(front).Some? && Judgeable(pool, n) {
        BestStep(pool, Best(front).value);
      } else if Best(front).Some? {
        assert NoNaNBeside(pool, Best(front).value) ==> NoNaNBeside(front, Best(front).value);
      } else {
        assert forall p :: Judgeable(pool, p) ==> p == n;
        assert IsEvidence(pool[n]) <==> Judgeable(pool, n);
      }
    }
  }

  /** One more complete record after the best so far. */
  lemma BestStep(pool: seq<Record>, b: nat)
    requires pool != [] && b < |pool| - 1 && Judgeable(pool, |pool| - 1) && Judgeable(pool[..|pool| - 1], b)
    requires forall p :: Judgeable(pool[..|pool| - 1], p) ==> pool[b].verdict.value.mean >= pool[p].verdict.value.mean
    requires NoNaNBeside(pool[..|pool| - 1], b) ==> forall p :: Judgeable(pool[..|pool| - 1], p) ==> NotBehind(pool[b], pool[p])
    ensures var k := if Ranking.Before(PooledOf(pool[|pool| - 1]), PooledOf(pool[b])) then |pool| - 1 else b;
      && Judgeable(pool, k)
      && (forall p :: Judgeable(pool, p) ==> pool[k].verdict.value.mean >= pool[p].verdict.value.mean)
      && (NoNaNBeside(pool, k) ==> forall p :: Judgeable(pool, p) ==> NotBehind(pool[k], pool[p]))
  {
    var n := |pool| - 1;
    var front := pool[..n];
    var wins := Ranking.Before(PooledOf(pool[n]), PooledOf(pool[b]));
    var k := if wins then n else b;
    assert forall p :: Judgeable(front, p) <==> p < n && Judgeable(pool, p);
    if wins { BeforeIsNotBehind(pool[n], pool[b]); } else { NotBeforeIsNotBehind(pool[b], pool[n]); }
    if NoNaNBeside(pool, k) {
      forall p | Judgeable(pool, p) ensures NotBehind(pool[k], pool[p]) {
        if pool[p].verdict.value.mean == pool[k].verdict.value.mean {
          assert !pool[p].selfEval.NaN? && !pool[k].selfEval.NaN?;
          if p < n {
            assert pool[b].verdict.value.mean == pool[k].verdict.value.mean && NoNaNBeside(front, b);
            if wins { NotBehindTransitive(pool[n], pool[b], pool[p]); }
          }
        }
      }
    }
  }

  // ---- refinement parents -----------------------------------------------------------------------

  ghost predicate ByMean(xs: seq<Ranking.Pooled>) {
    forall i, j :: 0 <= i < j < |xs| ==> xs[i].mean >= xs[j].mean
  }

  lemma {:induction false} InsertByMean(x: Ranking.Pooled, xs: seq<Ranking.Pooled>)
    requires ByMean(xs)
    ensures ByMean(Sorting.Insert(Ranking.Before, x, xs))
  {
    if xs != [] && Ranking.Before(xs[0], x) {
      var rest := xs[1..];
      InsertByMean(x, rest);
      var tail := Sorting.Insert(Ranking.Before, x, rest);
      Sorting.InsertKeeps(Ranking.Before, x, rest);
      forall j | 0 <= j < |tail| ensures xs[0].mean >= tail[j].mean {
        assert tail[j] in tail;
        if tail[j] != x {
          var i :| 0 <= i < |rest| && rest[i] == tail[j];
          assert xs[i + 1] == rest[i];
        }
      }
    }
  }

  lemma {:induction false} RankedByMean(xs: seq<Ranking.Pooled>)
    ensures ByMean(Ranking.Ranked(xs))
  {
    if xs != [] {
      RankedByMean(xs[1..]);
      InsertByMean(xs[0], Ranking.Ranked(xs[1..]));
    }
  }

  /** Record `p` is a parent, and an earlier one, wherever record `q` is one. */
  ghost predicate Precedes(parents: seq<nat>, p: Record, q: Record) {
    forall j :: 0 <= j < |parents| && parents[j] == q.id ==> p.id in parents[..j]
  }

  /** No two complete records share a mean when one of them has a NaN self-evaluation. */
  ghost predicate NoNaNTies(pool: seq<Record>) {
    forall p, q :: Judgeable(pool, p) && Judgeable(pool, q) && p != q && pool[p].verdict.value.mean == pool[q].verdict.value.mean ==>
      !pool[p].selfEval.NaN?
  }

  /** The places of the complete records. */
  ghost function Complete(pool: seq<Record>): set<int> {
    set p | 0 <= p < |pool| && Judgeable(pool, p)
  }

  ghost predicate Numbered(pool: seq<Record>) {
    forall p :: 0 <= p < |pool| ==> pool[p].id == p + 1
  }

  lemma {:induction false} EvidenceCount(pool: seq<Record>)
    ensures |Evidence(pool)| == |Complete(pool)|
  {
    if pool != [] {
      var n := |pool| - 1;
      EvidenceCount(pool[..n]);
      assert forall p :: Judgeable(pool[..n], p) <==> p < n && Judgeable(pool, p);
      assert n !in Complete(pool[..n]) && Complete(pool) == if Judgeable(pool, n) then Complete(pool[..n]) + {n} else Complete(pool[..n]);
    }
  }

  /** The scan over the pool finds the minimum of its complete proofs. */
  lemma {:induction false} BestIsMin(pool: seq<Record>)
    ensures Best(pool).None? <==> Evidence(pool) == []
    ensures Best(pool).Some? ==> PooledOf(pool[Best(pool).value]) == Ranking.Min(Evidence(pool))
  {
    if pool != [] {
      var front, last := pool[..|pool| - 1], pool[|pool| - 1];
      BestIsMin(front);
      if IsEvidence(last) {
        var evidence := Evidence(pool);
        assert evidence == Evidence(front) + [PooledOf(last)];
        assert evidence[..|evidence| - 1] == Evidence(front);
      } else {
        assert Evidence(pool) == Evidence(front) && forall p :: 0 <= p < |front| ==> pool[p] == front[p];
      }
    }
  }

  lemma {:induction false} EvidenceIds(pool: seq<Record>)
    requires forall p :: 0 <= p < |pool| ==> pool[p].id == p + 1
    ensures Ranking.DistinctIds(Evidence(pool)) && forall x :: x in Evidence(pool) ==> x.proofId <= |pool|
  {
    if pool != [] {
      var front := pool[..|pool| - 1];
      EvidenceIds(front);
      var last := if IsEvidence(pool[|pool| - 1]) then [PooledOf(pool[|pool| - 1])] else [];
      forall i, j | 0 <= i < j < |Evidence(front) + last| ensures (Evidence(front) + last)[i].proofId != (Evidence(front) + last)[j].proofId {
        if j == |Evidence(front)| { assert Evidence(front)[i] in Evidence(front); }
      }
    }
  }

  lemma RankedPlace(pool: seq<Record>, p: int) returns (i: nat)
    requires Judgeable(pool, p)
    ensures i < |Ranking.Ranked(Evidence(pool))| && Ranking.Ranked(Evidence(pool))[i] == PooledOf(pool[p])
  {
    EvidenceMembers(pool);
    Ranking.RankedMembers(Evidence(pool));
    assert IsEvidence(pool[p]) && PooledOf(pool[p]) in Evidence(pool);
    i :| 0 <= i < |Ranking.Ranked(Evidence(pool))| && Ranking.Ranked(Evidence(pool))[i] == PooledOf(pool[p]);
  }

  /** Every place of the ranking is that of one record, told by its id. */
  lemma RankedIds(pool: seq<Record>)
    requires Numbered(pool)
    ensures forall i, j :: 0 <= i < j < |Ranking.Ranked(Evidence(pool))| ==>
      Ranking.Ranked(Evidence(pool))[i].proofId != Ranking.Ranked(Evidence(pool))[j].proofId
  {
    EvidenceIds(pool);
    Sorting.SortKeeps(Ranking.Before, Evidence(pool));
    Ranking.DistinctIdsInAnyOrder(Evidence(pool), Ranking.Ranked(Evidence(pool)));
  }

  ghost predicate RankedBefore(ranked: seq<Ranking.Pooled>, x: Ranking.Pooled, y: Ranking.Pooled) {
    forall i, j :: 0 <= i < |ranked| && 0 <= j < |ranked| && ranked[i] == x && ranked[j] == y ==> i < j
  }

  /** Who stands earlier in the ranking is chosen first. */
  lemma EarlierPrecedes(cfg: Config, pool: seq<Record>, p: int, q: int)
    requires Numbered(pool) && Judgeable(pool, p) && Judgeable(pool, q)
    requires RankedBefore(Ranking.Ranked(Evidence(pool)), PooledOf(pool[p]), PooledOf(pool[q]))
    ensures Precedes(Parents(cfg, pool), pool[p], pool[q])
  {
    var ranked, parents := Ranking.Ranked(Evidence(pool)), Parents(cfg, pool);
    var i := RankedPlace(pool, p);
    var m := RankedPlace(pool, q);
    RankedIds(pool);
    forall j | 0 <= j < |parents| && parents[j] == pool[q].id ensures pool[p].id in parents[..j] {
      assert ranked[j].proofId == pool[q].id == ranked[m].proofId;
      assert j == m && parents[..j][i] == pool[p].id;
    }
  }

  /**
   * The parents of a round: as many complete records as configured or as there are, no record twice. A record of greater
   * mean is chosen before one of smaller mean, NaN self-evaluations or not; and where no tie in mean involves a NaN,
   * self-evaluation, round and id decide the rest.
   */
  lemma ParentsByRecord(cfg: Config, pool: seq<Record>)
    requires Numbered(pool)
    ensures var parents := Parents(cfg, pool);
      && |parents| == (if |Complete(pool)| < cfg.parentsPerRound then |Complete(pool)| else cfg.parentsPerRound)
      && NoDup(parents)
      && (forall id :: id in parents ==> Judgeable(pool, id - 1) && pool[id - 1].id == id)
      && (forall p, q :: Judgeable(pool, p) && Judgeable(pool, q) && pool[p].verdict.value.mean > pool[q].verdict.value.mean ==>
           Precedes(parents, pool[p], pool[q]))
      && (NoNaNTies(pool) ==> forall p, q :: Judgeable(pool, p) && Judgeable(pool, q) && p != q && NotBehind(pool[p], pool[q]) ==>
           Precedes(parents, pool[p], pool[q]))
  {
    EvidenceCount(pool);
    ParentsAreRecords(cfg, pool);
    forall p, q | Judgeable(pool, p) && Judgeable(pool, q) && pool[p].verdict.value.mean > pool[q].verdict.value.mean
      ensures Precedes(Parents(cfg, pool), pool[p], pool[q])
    {
      RankedByMean(Evidence(pool));
      EarlierPrecedes(cfg, pool, p, q);
    }
    if NoNaNTies(pool) {
      forall p, q | Judgeable(pool, p) && Judgeable(pool, q) && p != q && NotBehind(pool[p], pool[q])
        ensures Precedes(Parents(cfg, pool), pool[p], pool[q])
      {
        DecidedPrecedes(cfg, pool, p, q);
      }
    }
  }

  lemma ParentsAreRecords(cfg: Config, pool: seq<Record>)
    requires Numbered(pool)
    ensures var parents := Parents(cfg, pool);
      && |parents| == (if |Evidence(pool)| < cfg.parentsPerRound then |Evidence(pool)| else cfg.parentsPerRound)
      && NoDup(parents) && (forall id :: id in parents ==> Judgeable(pool, id - 1) && pool[id - 1].id == id)
  {
    var ranked, parents := Ranking.Ranked(Evidence(pool)), Parents(cfg, pool);
    EvidenceMembers(pool);
    Ranking.RankedMembers(Evidence(pool));
    RankedIds(pool);
    forall id | id in parents ensures Judgeable(pool, id - 1) && pool[id - 1].id == id {
      var k :| 0 <= k < |parents| && parents[k] == id;
      assert ranked[k] in ranked;
      var p :| 0 <= p < |pool| && IsEvidence(pool[p]) && PooledOf(pool[p]) == ranked[k];
    }
  }

  lemma DecidedPrecedes(cfg: Config, pool: seq<Record>, p: int, q: int)
    requires Numbered(pool) && NoNaNTies(pool) && Judgeable(pool, p) && Judgeable(pool, q) && p != q && NotBehind(pool[p], pool[q])
    ensures Precedes(Parents(cfg, pool), pool[p], pool[q])
  {
    EvidenceMembers(pool);
    EvidenceIds(pool);
    var ranked := Ranking.Ranked(Evidence(pool));
    forall a, b | a in Evidence(pool) && b in Evidence(pool) && a != b && a.mean == b.mean ensures !a.selfEval.NaN? {
      var x :| 0 <= x < |pool| && IsEvidence(pool[x]) && PooledOf(pool[x]) == a;
      var y :| 0 <= y < |pool| && IsEvidence(pool[y]) && PooledOf(pool[y]) == b;
      assert Judgeable(pool, x) && Judgeable(pool, y);
    }
    Ranking.RankedStrict(Evidence(pool));
    assert !Ranking.Before(PooledOf(pool[q]), PooledOf(pool[p])) && PooledOf(pool[p]) != PooledOf(pool[q]);
    EarlierPrecedes(cfg, pool, p, q);
  }

  /** The best `k` complete records, or all when there are fewer. */
  ghost predicate TakesTheBest(pool: seq<Record>, k: nat, chosen: set<int>) {
    && chosen <= Complete(pool) && |chosen| == (if |Complete(pool)| < k then |Complete(pool)| else k)
    && (forall p, q :: p in Complete(pool) && q in chosen && pool[p].verdict.value.mean > pool[q].verdict.value.mean ==> p in chosen)
    && (NoNaNTies(pool) ==> forall p, q :: p in Complete(pool) && q in chosen && NotBehind(pool[p], pool[q]) ==> p in chosen)
  }

  ghost function Places(pool: seq<Record>, ids: seq<nat>): set<int> {
    set p | 0 <= p < |pool| && pool[p].id in ids
  }

  lemma PlacesOneMore(pool: seq<Record>, ids: seq<nat>, id: nat)
    requires Numbered(pool) && 1 <= id <= |pool| && id !in ids
    ensures |Places(pool, ids + [id])| == |Places(pool, ids)| + 1
  {
    var before, after, p := Places(pool, ids), Places(pool, ids + [id]), id - 1;
    assert pool[p].id == id && p !in before;
    forall q ensures q in after <==> q in before || q == p {
      if 0 <= q < |pool| { assert pool[q].id == q + 1; }
    }
    assert after == before + {p};
  }

  lemma {:induction false} PlacesCount(pool: seq<Record>, ids: seq<nat>)
    requires Numbered(pool) && NoDup(ids) && forall id :: id in ids ==> 1 <= id <= |pool|
    ensures |Places(pool, ids)| == |ids|
  {
    if ids == [] {
      assert Places(pool, ids) == {};
    } else {
      var rest, last := ids[..|ids| - 1], ids[|ids| - 1];
      assert ids == rest + [last] && last in ids;
      forall id | id in rest ensures 1 <= id <= |pool| { assert id in ids; }
      forall k | 0 <= k < |rest| ensures rest[k] != last { assert rest[k] == ids[k]; }
      PlacesCount(pool, rest);
      PlacesOneMore(pool, rest, last);
    }
  }

  lemma ParentsTakeTheBest(cfg: Config, pool: seq<Record>)
    requires Numbered(pool)
    ensures TakesTheBest(pool, cfg.parentsPerRound, Places(pool, Parents(cfg, pool)))
  {
    var parents := Parents(cfg, pool);
    ParentsByRecord(cfg, pool);
    forall id | id in parents ensures 1 <= id <= |pool| { assert Judgeable(pool, id - 1); }
    PlacesCount(pool, parents);
    forall p | p in Places(pool, parents) ensures p in Complete(pool) { assert Judgeable(pool, pool[p].id - 1); }
    forall p, q | p in Complete(pool) && q in Places(pool, parents) && Precedes(parents, pool[p], pool[q]) ensures p in Places(pool, parents) {
      var j :| 0 <= j < |parents| && parents[j] == pool[q].id;
      assert pool[p].id in parents[..j];
    }
  }

  // ---- both together ------------------------------------------------------------------------------

  /** A complete record of the greatest mean. */
  ghost predicate Greatest(pool: seq<Record>, p: int) {
    Judgeable(pool, p) && forall q :: Judgeable(pool, q) ==> pool[p].verdict.value.mean >= pool[q].verdict.value.mean
  }

  /** The greatest mean is not shared by a NaN self-evaluation and two numbers. */
  ghost predicate TopTold(pool: seq<Record>) {
    || (forall p :: Greatest(pool, p) ==> !pool[p].selfEval.NaN?)
    || (forall p, q :: Greatest(pool, p) && Greatest(pool, q) && p != q ==> pool[p].selfEval.NaN? || pool[q].selfEval.NaN?)
  }

  lemma TopIsGreatest(pool: seq<Record>, x: Ranking.Pooled) returns (p: int)
    requires Ranking.Top(x, Evidence(pool))
    ensures Greatest(pool, p) && PooledOf(pool[p]) == x
  {
    EvidenceMembers(pool);
    p :| 0 <= p < |pool| && IsEvidence(pool[p]) && PooledOf(pool[p]) == x;
    forall q | Judgeable(pool, q) ensures pool[p].verdict.value.mean >= pool[q].verdict.value.mean {
      assert IsEvidence(pool[q]) && PooledOf(pool[q]) in Evidence(pool);
    }
  }

  lemma TopToldIsDecided(pool: seq<Record>)
    requires TopTold(pool)
    ensures Ranking.TopDecided(Evidence(pool))
  {
    forall x, y | Ranking.Top(x, Evidence(pool)) && Ranking.Top(y, Evidence(pool)) && x != y
      ensures (forall p :: Greatest(pool, p) ==> !pool[p].selfEval.NaN?) ==> !x.selfEval.NaN?
      ensures !(forall p :: Greatest(pool, p) ==> !pool[p].selfEval.NaN?) ==> x.selfEval.NaN? || y.selfEval.NaN?
    {
      var p := TopIsGreatest(pool, x);
      var q := TopIsGreatest(pool, y);
    }
    forall x | Ranking.Top(x, Evidence(pool))
      ensures (forall p :: Greatest(pool, p) ==> !pool[p].selfEval.NaN?) ==> !x.selfEval.NaN?
    {
      var p := TopIsGreatest(pool, x);
    }
  }

  /**
   * The fallback is the first parent the next refinement round would have picked, as long as the greatest mean is not
   * shared by a NaN self-evaluation and two numbers.
   */
  lemma {:induction false} BestIsFirstParent(cfg: Config, pool: seq<Record>)
    requires cfg.parentsPerRound > 0 && Numbered(pool)
    ensures Best(pool).Some? <==> Parents(cfg, pool) != []
    ensures Best(pool).Some? && TopTold(pool) ==> Parents(cfg, pool)[0] == pool[Best(pool).value].id
  {
    var evidence := Evidence(pool);
    BestIsMin(pool);
    EvidenceIds(pool);
    Ranking.RankedMembers(evidence);
    if evidence != [] && TopTold(pool) {
      TopToldIsDecided(pool);
      Ranking.MinIsHead(evidence);
    }
  }
}
