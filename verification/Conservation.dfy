/** No sample is lost or counted twice on its way into the pool, and every dependency names a registered proof. */
module Conservation {
  import opened Options
  import opened Search
  import opened Durability
  import Safety
  import Launching
  import Ranking

  // ---- the invariant ------------------------------------------------------------

  function AllOrigins(pool: seq<Record>): seq<Origin> {
    if pool == [] then [] else AllOrigins(pool[..|pool| - 1]) + pool[|pool| - 1].origins
  }

  function OriginIds(origins: seq<Origin>): (r: seq<WorkId>)
    ensures |r| == |origins| && forall k :: 0 <= k < |r| ==> r[k] == origins[k].id
  {
    seq(|origins|, k requires 0 <= k < |origins| => origins[k].id)
  }

  /** Repeat-free, and every element is the id of one of the `n` registered proofs. */
  ghost predicate DepsOk(deps: seq<nat>, n: nat) {
    NoDup(deps) && forall d :: d in deps ==> 1 <= d <= n
  }

  /** The task still has its response to get or to hand in. */
  predicate Waiting(pc: Pc) {
    pc.Idle? || pc.Asking? || pc.Saving? || pc.Saved?
  }

  ghost predicate Conserved(s: State) {
    && multiset(AllOrigins(s.pool)) == multiset(s.admitted)
    && NoDup(OriginIds(s.admitted))
    && (forall o :: o in s.admitted ==> o.id.Refine? ==> o.id.round <= s.round)
    && (forall t :: t in s.tasks ==> (Waiting(t.pc) ==> t.id !in OriginIds(s.admitted)) && DepsOk(t.deps, |s.pool|))
    && (forall p :: 0 <= p < |s.pool| ==> s.pool[p].origins != [] && DepsOk(s.pool[p].deps, |s.pool|))
  }

  // ---- steps ----------------------------------------------------------------------

  /** A task later in its life, or the same. */
  ghost predicate Onward(t: Task, t': Task) {
    t'.id == t.id && t'.deps == t.deps && (Waiting(t'.pc) ==> Waiting(t.pc))
  }

  ghost predicate SameSources(pool: seq<Record>, pool': seq<Record>) {
    |pool'| == |pool| && forall p :: 0 <= p < |pool| ==> pool'[p].origins == pool[p].origins && pool'[p].deps == pool[p].deps
  }

  lemma {:induction false} SameOrigins(pool: seq<Record>, pool': seq<Record>)
    requires SameSources(pool, pool')
    ensures AllOrigins(pool') == AllOrigins(pool)
  {
    if pool != [] { SameOrigins(pool[..|pool| - 1], pool'[..|pool| - 1]); }
  }

  /** Steps that admit nothing. */
  lemma QuietConserved(s: State, s': State)
    requires Conserved(s) && s'.admitted == s.admitted && s'.round == s.round && SameSources(s.pool, s'.pool)
    requires |s'.tasks| == |s.tasks| && forall j :: 0 <= j < |s.tasks| ==> Onward(s.tasks[j], s'.tasks[j])
    ensures Conserved(s')
  {
    SameOrigins(s.pool, s'.pool);
    forall t | t in s'.tasks ensures (Waiting(t.pc) ==> t.id !in OriginIds(s'.admitted)) && DepsOk(t.deps, |s'.pool|) {
      var j :| 0 <= j < |s'.tasks| && s'.tasks[j] == t;
      assert Onward(s.tasks[j], t) && s.tasks[j] in s.tasks;
    }
  }

  lemma MoveConserved(s: State, s': State, i: nat, t: Task)
    requires Conserved(s) && i < |s.tasks| && Onward(s.tasks[i], t)
    requires s' == s.(tasks := s.tasks[i := t], rows := s'.rows, issued := s'.issued, failed := s'.failed)
    ensures Conserved(s')
  {
    QuietConserved(s, s');
  }

  lemma {:induction false} MergeDepsOk(have: seq<nat>, more: seq<nat>, n: nat)
    requires DepsOk(have, n) && forall d :: d in more ==> 1 <= d <= n
    ensures DepsOk(MergeDeps(have, more), n)
    ensures forall d :: d in MergeDeps(have, more) <==> d in have || d in more
    decreases more
  {
    if more != [] {
      var first := if more[0] in have then have else have + [more[0]];
      assert more[0] in more && more == [more[0]] + more[1..];
      assert forall d :: d in more[1..] ==> d in more;
      if more[0] !in have { NoDupAppend(have, more[0]); }
      MergeDepsOk(first, more[1..], n);
    }
  }

  lemma {:induction false} MergeOrigins(pool: seq<Record>, k: nat, rec: Record, o: Origin)
    requires k < |pool| && rec.origins == pool[k].origins + [o]
    ensures multiset(AllOrigins(pool[k := rec])) == multiset(AllOrigins(pool)) + multiset{o}
  {
    var n := |pool| - 1;
    var front := pool[..n];
    if k == n {
      assert pool[k := rec][..n] == front;
      assert AllOrigins(pool[k := rec]) == AllOrigins(front) + (pool[k].origins + [o]);
      assert AllOrigins(front) + (pool[k].origins + [o]) == AllOrigins(pool) + [o];
    } else {
      MergeOrigins(front, k, rec, o);
      assert pool[k := rec][..n] == front[k := rec];
    }
  }

  /** Tasks and admissions after one more response was admitted by task `i`. */
  ghost predicate AdmittedBy(s: State, s': State, i: nat) {
    && i < |s.tasks| && Waiting(s.tasks[i].pc) && s'.round == s.round
    && s'.admitted == s.admitted + [Origin(s.tasks[i].id, s.tasks[i].seed)]
    && (exists pc :: !Waiting(pc) && s'.tasks == s.tasks[i := s.tasks[i].(pc := pc)])
  }

  lemma AdmittedTasks(cfg: Config, base: seq<Entry>, s: State, s': State, i: nat)
    requires Durable(cfg, base, s) && Conserved(s) && AdmittedBy(s, s', i) && |s.pool| <= |s'.pool|
    ensures NoDup(OriginIds(s'.admitted))
    ensures forall o :: o in s'.admitted ==> o.id.Refine? ==> o.id.round <= s'.round
    ensures forall t :: t in s'.tasks ==> (Waiting(t.pc) ==> t.id !in OriginIds(s'.admitted)) && DepsOk(t.deps, |s'.pool|)
  {
    var me := s.tasks[i];
    assert me in s.tasks;
    assert OriginIds(s'.admitted) == OriginIds(s.admitted) + [me.id];
    NoDupAppend(OriginIds(s.admitted), me.id);
    forall t | t in s'.tasks ensures (Waiting(t.pc) ==> t.id !in OriginIds(s'.admitted)) && DepsOk(t.deps, |s'.pool|) {
      var j :| 0 <= j < |s'.tasks| && s'.tasks[j] == t;
      assert s.tasks[j] in s.tasks;
      if j != i { assert s.tasks[j].id != me.id; }
    }
  }

  lemma MergeConserved(cfg: Config, base: seq<Entry>, s: State, s': State, i: nat, k: nat)
    requires Durable(cfg, base, s) && Conserved(s) && AdmittedBy(s, s', i)
    requires k < |s.pool| && s'.pool == s.pool[k := Merge(s.pool[k], s.tasks[i])]
    ensures Conserved(s')
  {
    var t := s.tasks[i];
    assert t in s.tasks;
    AdmittedTasks(cfg, base, s, s', i);
    MergeOrigins(s.pool, k, Merge(s.pool[k], t), Origin(t.id, t.seed));
    MergeDepsOk(s.pool[k].deps, t.deps, |s.pool|);
  }

  lemma RegisterConserved(cfg: Config, base: seq<Entry>, s: State, s': State, i: nat, rec: Record)
    requires Durable(cfg, base, s) && Conserved(s) && AdmittedBy(s, s', i)
    requires s'.pool == s.pool + [rec] && rec.deps == s.tasks[i].deps && rec.origins == [Origin(s.tasks[i].id, s.tasks[i].seed)]
    ensures Conserved(s')
  {
    assert s.tasks[i] in s.tasks;
    AdmittedTasks(cfg, base, s, s', i);
    assert s'.pool[..|s'.pool| - 1] == s.pool;
  }

  lemma AdmitConserved(cfg: Config, base: seq<Entry>, s: State, i: nat, resp: Response)
    requires Durable(cfg, base, s) && Conserved(s) && i < |s.tasks| && Waiting(s.tasks[i].pc)
    ensures Conserved(Admit(cfg, s, i, resp))
  {
    var t, p := s.tasks[i], cfg.parseProof(resp);
    var s' := Admit(cfg, s, i, resp);
    if t.model in s.stopped || !p.valid {
      MoveConserved(s, s', i, t.(pc := Done));
    } else {
      match Find(s.pool, p.proof)
      case Some(k) =>
        assert s'.tasks == s.tasks[i := t.(pc := Done)] && !Waiting(Done);
        MergeConserved(cfg, base, s, s', i, k);
      case None =>
        var pc := Voting(|s.pool|, EmptyPanel(cfg));
        assert s'.tasks == s.tasks[i := t.(pc := pc)] && !Waiting(pc);
        RegisterConserved(cfg, base, s, s', i, NewRecord(p, t, s.nextId));
    }
  }

  lemma BeginConserved(cfg: Config, base: seq<Entry>, s: State, i: nat)
    requires Durable(cfg, base, s) && Conserved(s) && Enabled(cfg, s, Start(i))
    ensures Conserved(Begin(cfg, s, i))
  {
    var t := s.tasks[i];
    if !t.cancelled && t.model !in s.stopped && t.id in s.ledger {
      AdmitConserved(cfg, base, s, i, s.ledger[t.id]);
    } else {
      MoveConserved(s, Begin(cfg, s, i), i, Begin(cfg, s, i).tasks[i]);
    }
  }

  lemma ConcludeConserved(cfg: Config, s: State, i: nat)
    requires Conserved(s) && Enabled(cfg, s, Conclude(i))
    ensures Conserved(Conclusion(cfg, s, i))
  {
    var pc := s.tasks[i].pc;
    MoveConserved(s, SetPc(s, i, Done), i, s.tasks[i].(pc := Done));
    MoveConserved(s, SetPc(s, i, Done).(failed := true), i, s.tasks[i].(pc := Done));
    SettleConserved(s, i, Judged(cfg, s.pool[pc.at], pc.seats));
  }

  lemma SettleConserved(s: State, i: nat, rec: Record)
    requires Conserved(s) && i < |s.tasks| && s.tasks[i].pc.Recording? && s.tasks[i].pc.at < |s.pool| && rec.verdict.Some?
    requires rec.origins == s.pool[s.tasks[i].pc.at].origins && rec.deps == s.pool[s.tasks[i].pc.at].deps
    ensures Conserved(Settle(s, i, rec))
  {
    QuietConserved(s, Settle(s, i, rec));
  }

  /** The parents of a refinement round are registered proofs. */
  lemma ParentsRegistered(cfg: Config, pool: seq<Record>)
    requires forall p :: 0 <= p < |pool| ==> pool[p].id == p + 1
    ensures forall d :: d in Parents(cfg, pool) ==> 1 <= d <= |pool|
  {
    EvidenceMembers(pool);
    Ranking.RankedMembers(Evidence(pool));
    var ranked := Ranking.SelectRefinementParents(Evidence(pool), cfg.parentsPerRound);
    forall k | 0 <= k < |Parents(cfg, pool)| ensures 1 <= Parents(cfg, pool)[k] <= |pool| {
      assert ranked[k] in Ranking.Ranked(Evidence(pool));
      assert ranked[k] in Evidence(pool);
    }
  }

  lemma RoundConserved(cfg: Config, s: State, parents: seq<nat>)
    requires ValidConfig(cfg) && Conserved(s) && forall d :: d in parents ==> 1 <= d <= |s.pool|
    ensures Conserved(BeginRound(cfg, s, parents))
  {
    var s' := BeginRound(cfg, s, parents);
    Launching.RefineTasksFacts(s.round + 1, 0, cfg.checkpoints, 0, parents);
    forall t | t in s'.tasks ensures (Waiting(t.pc) ==> t.id !in OriginIds(s'.admitted)) && DepsOk(t.deps, |s'.pool|) {
      assert Launching.RefinementTask(t, s.round + 1, cfg.checkpoints, parents);
      forall k | 0 <= k < |s.admitted| ensures s.admitted[k].id != t.id {
        assert s.admitted[k] in s.admitted;
      }
    }
  }

  lemma RoundStepConserved(cfg: Config, s: State)
    requires ValidConfig(cfg) && Safety.Sound(cfg, s) && Conserved(s)
    ensures Conserved(BeginRound(cfg, s, Parents(cfg, s.pool)))
  {
    assert forall p :: 0 <= p < |s.pool| ==> Safety.RecordOk(cfg, s.pool[p], p);
    ParentsRegistered(cfg, s.pool);
    RoundConserved(cfg, s, Parents(cfg, s.pool));
  }

  lemma ResumeConserved(cfg: Config, base: seq<Entry>, s: State, i: nat)
    requires Durable(cfg, base, s) && Conserved(s) && Enabled(cfg, s, Resume(i))
    ensures Conserved(Next(cfg, s, Resume(i)))
  {
    MoveConserved(s, SetPc(s, i, Done), i, s.tasks[i].(pc := Done));
    AdmitConserved(cfg, base, s, i, s.tasks[i].pc.resp);
  }

  lemma PcConserved(s: State, s': State, i: nat, pc: Pc)
    requires Conserved(s) && i < |s.tasks| && (Waiting(pc) ==> Waiting(s.tasks[i].pc))
    requires s' == SetPc(s, i, pc).(issued := s'.issued, rows := s'.rows, failed := s'.failed)
    ensures Conserved(s')
  {
    MoveConserved(s, s', i, s.tasks[i].(pc := pc));
  }

  lemma DoneConserved(s: State, i: nat)
    requires Conserved(s) && i < |s.tasks|
    ensures Conserved(SetPc(s, i, Done)) && Conserved(SetPc(s, i, Done).(failed := true))
  {
    PcConserved(s, SetPc(s, i, Done), i, Done);
    PcConserved(s, SetPc(s, i, Done).(failed := true), i, Done);
  }

  lemma DeliverConserved(cfg: Config, s: State, i: nat, resp: Response)
    requires Conserved(s) && Enabled(cfg, s, Deliver(i, resp))
    ensures Conserved(Next(cfg, s, Deliver(i, resp)))
  {
    MoveConserved(s, Next(cfg, s, Deliver(i, resp)), i, s.tasks[i].(pc := Saving(resp), cancelled := false));
  }

  lemma WriteConserved(cfg: Config, s: State, i: nat)
    requires Conserved(s) && Enabled(cfg, s, Write(i))
    ensures Conserved(Next(cfg, s, Write(i)))
  {
    PcConserved(s, Next(cfg, s, Write(i)), i, Saved(s.tasks[i].pc.resp));
  }

  lemma BeginSeatConserved(cfg: Config, s: State, i: nat, a: nat, b: nat)
    requires Conserved(s) && Enabled(cfg, s, SeatStart(i, a, b))
    ensures Conserved(BeginSeat(cfg, s, i, a, b))
  {
    PcConserved(s, BeginSeat(cfg, s, i, a, b), i, BeginSeat(cfg, s, i, a, b).tasks[i].pc);
  }

  lemma SettleSeatConserved(cfg: Config, s: State, i: nat, a: nat, b: nat, was: Seat, seat: Seat)
    requires Conserved(s) && SeatAt(cfg, s, i, a, b, was)
    ensures Conserved(SettleSeat(s, i, a, b, seat))
  {
    PcConserved(s, SettleSeat(s, i, a, b, seat), i, SettleSeat(s, i, a, b, seat).tasks[i].pc);
  }

  lemma GatherConserved(cfg: Config, s: State, i: nat)
    requires Conserved(s) && Enabled(cfg, s, Gather(i))
    ensures Conserved(Gathered(s, i))
  {
    MoveConserved(s, Gathered(s, i), i, Gathered(s, i).tasks[i]);
  }

  lemma WriteVoteConserved(cfg: Config, s: State, i: nat, a: nat, b: nat)
    requires Conserved(s) && Enabled(cfg, s, WriteVote(i, a, b))
    ensures Conserved(Next(cfg, s, WriteVote(i, a, b)))
  {
    PcConserved(s, Next(cfg, s, WriteVote(i, a, b)), i, Next(cfg, s, WriteVote(i, a, b)).tasks[i].pc);
  }

  lemma AbortConserved(cfg: Config, s: State)
    requires Conserved(s)
    ensures Conserved(Next(cfg, s, Abort))
  {
    QuietConserved(s, Next(cfg, s, Abort));
  }

  /** Every step that neither admits a response nor concludes a panel nor begins a round. */
  lemma QuietStepConserved(cfg: Config, s: State, ev: Event)
    requires Conserved(s) && Enabled(cfg, s, ev) && !ev.Start? && !ev.Resume? && !ev.Conclude? && !ev.NextRound?
    ensures Conserved(Next(cfg, s, ev))
  {
    match ev
    case Deliver(i, resp) => DeliverConserved(cfg, s, i, resp);
    case Park(i) => DoneConserved(s, i);
    case Fail(i) => DoneConserved(s, i);
    case Drop(i) => DoneConserved(s, i);
    case Write(i) => WriteConserved(cfg, s, i);
    case LoseWrite(i) => DoneConserved(s, i);
    case SeatStart(i, a, b) => BeginSeatConserved(cfg, s, i, a, b);
    case SeatDeliver(i, a, b, resp) => SettleSeatConserved(cfg, s, i, a, b, Sent, Got(resp, true));
    case SeatPark(i, a, b) => SettleSeatConserved(cfg, s, i, a, b, Sent, Parked);
    case SeatFail(i, a, b) => SettleSeatConserved(cfg, s, i, a, b, Sent, Fatal);
    case SeatDrop(i, a, b) => SettleSeatConserved(cfg, s, i, a, b, s.tasks[i].pc.seats[a][b], Dropped);
    case Gather(i) => GatherConserved(cfg, s, i);
    case WriteVote(i, a, b) => WriteVoteConserved(cfg, s, i, a, b);
    case Leave(i) => DoneConserved(s, i);
    case Abort => AbortConserved(cfg, s);
  }

  lemma AdmitStepConserved(cfg: Config, base: seq<Entry>, s: State, ev: Event)
    requires Durable(cfg, base, s) && Conserved(s) && Enabled(cfg, s, ev) && (ev.Start? || ev.Resume?)
    ensures Conserved(Next(cfg, s, ev))
  {
    match ev
    case Start(i) => BeginConserved(cfg, base, s, i);
    case Resume(i) => ResumeConserved(cfg, base, s, i);
  }

  lemma EndStepConserved(cfg: Config, s: State, ev: Event)
    requires ValidConfig(cfg) && Safety.Sound(cfg, s) && Conserved(s) && Enabled(cfg, s, ev) && (ev.Conclude? || ev.NextRound?)
    ensures Conserved(Next(cfg, s, ev))
  {
    match ev
    case Conclude(i) => ConcludeConserved(cfg, s, i);
    case NextRound => RoundStepConserved(cfg, s);
  }

  lemma StepConserved(cfg: Config, base: seq<Entry>, s: State, ev: Event)
    requires ValidConfig(cfg) && Durable(cfg, base, s) && Safety.Sound(cfg, s) && Conserved(s) && Enabled(cfg, s, ev)
    ensures Conserved(Next(cfg, s, ev))
  {
    if ev.Start? || ev.Resume? {
      AdmitStepConserved(cfg, base, s, ev);
    } else if ev.Conclude? || ev.NextRound? {
      EndStepConserved(cfg, s, ev);
    } else {
      QuietStepConserved(cfg, s, ev);
    }
  }

  lemma InitConserved(cfg: Config, disk: seq<Entry>)
    requires ValidConfig(cfg)
    ensures Conserved(Init(cfg, disk))
  {
    Launching.Round1TasksFacts(cfg.prompts, cfg.checkpoints, 0);
    forall t | t in Init(cfg, disk).tasks ensures t.deps == [] {
      assert Launching.GenerationTask(t, cfg.prompts, cfg.checkpoints);
    }
  }

  lemma {:induction false} RunConserved(cfg: Config, base: seq<Entry>, s: State, run: seq<Event>)
    requires ValidConfig(cfg) && Durable(cfg, base, s) && Safety.Sound(cfg, s) && Conserved(s) && Legal(cfg, s, run)
    ensures Conserved(Exec(cfg, s, run))
    decreases run
  {
    if run != [] {
      StepDurable(cfg, base, s, run[0]);
      Safety.StepSound(cfg, s, run[0]);
      StepConserved(cfg, base, s, run[0]);
      RunConserved(cfg, base, Next(cfg, s, run[0]), run[1..]);
    }
  }

  lemma {:induction false} OriginInAll(pool: seq<Record>, p: nat, k: nat)
    requires p < |pool| && k < |pool[p].origins|
    ensures pool[p].origins[k] in AllOrigins(pool)
  {
    var n := |pool| - 1;
    if p < n { OriginInAll(pool[..n], p, k); }
  }

  lemma OriginIsAdmitted(s: State, p: nat, k: nat)
    requires Conserved(s) && p < |s.pool| && k < |s.pool[p].origins|
    ensures s.pool[p].origins[k] in s.admitted && s.pool[p].origins[k].id in OriginIds(s.admitted)
  {
    OriginInAll(s.pool, p, k);
    var o := s.pool[p].origins[k];
    assert o in multiset(s.admitted);
    var m :| 0 <= m < |s.admitted| && s.admitted[m] == o;
    assert OriginIds(s.admitted)[m] == o.id;
  }

  /**
   * In every reachable state the origin lists of all records together hold each admitted response exactly once,
   * no two admitted responses share an identity, every record has an origin, and dependencies are repeat-free
   * and name registered proofs.
   */
  lemma EverySampleCountedOnce(cfg: Config, disk: seq<Entry>, run: seq<Event>)
    requires ValidConfig(cfg) && Legal(cfg, Init(cfg, disk), run)
    ensures var s := Exec(cfg, Init(cfg, disk), run);
      && multiset(AllOrigins(s.pool)) == multiset(s.admitted) && NoDup(OriginIds(s.admitted))
      && (forall p :: 0 <= p < |s.pool| ==>
            s.pool[p].origins != [] && NoDup(s.pool[p].deps) && forall d :: d in s.pool[p].deps ==> 1 <= d <= |s.pool| && s.pool[d - 1].id == d)
  {
    InitDurable(cfg, disk);
    Safety.InitSound(cfg, disk);
    InitConserved(cfg, disk);
    RunConserved(cfg, disk, Init(cfg, disk), run);
    Safety.RunSound(cfg, Init(cfg, disk), run);
    var s := Exec(cfg, Init(cfg, disk), run);
    forall p | 0 <= p < |s.pool|
      ensures s.pool[p].origins != [] && NoDup(s.pool[p].deps) && forall d :: d in s.pool[p].deps ==> 1 <= d <= |s.pool| && s.pool[d - 1].id == d
    {
      assert DepsOk(s.pool[p].deps, |s.pool|);
      assert forall q :: 0 <= q < |s.pool| ==> Safety.RecordOk(cfg, s.pool[q], q);
    }
  }
}
