/** Where a record comes from: the task that registered it, the tasks merged into it, and the proofs it was refined from. */
module Lineage {
  import opened Options
  import opened Search
  import opened Durability
  import Conservation
  import Launching
  import Outcome
  import Provenance
  import Safety

  // ---- the invariant ------------------------------------------------------------

  /** Origin `k` of the record is the task's sample: its seed stands there, its parents are dependencies; the first gives the record its place. */
  ghost predicate From(rec: Record, k: nat, t: Task)
    requires k < |rec.origins|
  {
    rec.origins[k].id == t.id ==>
      && rec.origins[k].seed == t.seed && (forall d :: d in t.deps ==> d in rec.deps)
      && (k == 0 ==> rec.seed == t.seed && rec.model == t.model && rec.round == t.round)
  }

  /** The dependency was brought by a task of the round whose sample is an origin. */
  ghost predicate Brought(rec: Record, tasks: seq<Task>, d: nat) {
    exists j, k :: 0 <= j < |tasks| && 0 <= k < |rec.origins| && rec.origins[k].id == tasks[j].id && d in tasks[j].deps
  }

  ghost predicate Traced(s: State) {
    && (forall p, k, j :: 0 <= p < |s.pool| && 0 <= k < |s.pool[p].origins| && 0 <= j < |s.tasks| ==> From(s.pool[p], k, s.tasks[j]))
    && (forall p, d :: 0 <= p < |s.pool| && d in s.pool[p].deps && s.pool[p].round == s.round ==> Brought(s.pool[p], s.tasks, d))
  }

  // ---- steps that admit nothing -----------------------------------------------------

  ghost predicate SameOrigin(r: Record, r': Record) {
    r'.origins == r.origins && r'.deps == r.deps && r'.seed == r.seed && r'.model == r.model && r'.round == r.round
  }

  ghost predicate SameJob(t: Task, t': Task) {
    t'.id == t.id && t'.seed == t.seed && t'.deps == t.deps && t'.model == t.model && t'.round == t.round
  }

  lemma QuietTraced(s: State, s': State)
    requires Traced(s) && s'.round == s.round && |s'.pool| == |s.pool| && |s'.tasks| == |s.tasks|
    requires forall p :: 0 <= p < |s.pool| ==> SameOrigin(s.pool[p], s'.pool[p])
    requires forall j :: 0 <= j < |s.tasks| ==> SameJob(s.tasks[j], s'.tasks[j])
    ensures Traced(s')
  {
    forall p, k, j | 0 <= p < |s'.pool| && 0 <= k < |s'.pool[p].origins| && 0 <= j < |s'.tasks| ensures From(s'.pool[p], k, s'.tasks[j]) {
      assert SameOrigin(s.pool[p], s'.pool[p]) && SameJob(s.tasks[j], s'.tasks[j]) && From(s.pool[p], k, s.tasks[j]);
    }
    forall p, d | 0 <= p < |s'.pool| && d in s'.pool[p].deps && s'.pool[p].round == s'.round ensures Brought(s'.pool[p], s'.tasks, d) {
      assert SameOrigin(s.pool[p], s'.pool[p]) && Brought(s.pool[p], s.tasks, d);
      BroughtAlike(s.pool[p], s.tasks, s'.pool[p], s'.tasks, d);
    }
  }

  lemma BroughtAlike(r: Record, tasks: seq<Task>, r': Record, tasks': seq<Task>, d: nat)
    requires Brought(r, tasks, d) && r.origins <= r'.origins && |tasks'| == |tasks|
    requires forall j :: 0 <= j < |tasks| ==> SameJob(tasks[j], tasks'[j])
    ensures Brought(r', tasks', d)
  {
    var j, k :| 0 <= j < |tasks| && 0 <= k < |r.origins| && r.origins[k].id == tasks[j].id && d in tasks[j].deps;
    assert r'.origins[k] == r.origins[k] && SameJob(tasks[j], tasks'[j]);
  }

  // ---- admission ----------------------------------------------------------------------

  lemma MergedRecord(rec: Record, t: Task)
    ensures var r := Merge(rec, t);
      && r.origins == rec.origins + [Origin(t.id, t.seed)] && r.seed == rec.seed && r.model == rec.model && r.round == rec.round
      && forall d :: d in r.deps <==> d in rec.deps || d in t.deps
  {
    MergeHolds(rec.deps, t.deps);
  }

  lemma {:induction false} MergeHolds(have: seq<nat>, more: seq<nat>)
    ensures forall d :: d in MergeDeps(have, more) <==> d in have || d in more
    decreases more
  {
    if more != [] {
      assert more == [more[0]] + more[1..];
      MergeHolds(if more[0] in have then have else have + [more[0]], more[1..]);
    }
  }

  /** One record took in the sample of task `i`: the others are as before. */
  lemma RecordTraced(s: State, s': State, i: nat, q: nat, rec: Record)
    requires Traced(s) && i < |s.tasks| && Launching.DistinctIds(s.tasks) && q < |s'.pool| && s'.round == s.round && |s'.tasks| == |s.tasks|
    requires forall j :: 0 <= j < |s.tasks| ==> SameJob(s.tasks[j], s'.tasks[j])
    requires forall p :: 0 <= p < |s'.pool| && p != q ==> p < |s.pool| && SameOrigin(s.pool[p], s'.pool[p])
    requires q < |s.pool| ==> rec == s.pool[q]
    requires q >= |s.pool| ==> rec.origins == [] && rec.deps == [] && s'.pool[q].seed == s.tasks[i].seed
    requires q >= |s.pool| ==> s'.pool[q].model == s.tasks[i].model && s'.pool[q].round == s.tasks[i].round
    requires s'.pool[q].origins == rec.origins + [Origin(s.tasks[i].id, s.tasks[i].seed)]
    requires forall d :: d in s'.pool[q].deps <==> d in rec.deps || d in s.tasks[i].deps
    requires q < |s.pool| ==> rec.origins != [] && s'.pool[q].seed == rec.seed && s'.pool[q].model == rec.model && s'.pool[q].round == rec.round
    ensures Traced(s')
  {
    forall p, k, j | 0 <= p < |s'.pool| && 0 <= k < |s'.pool[p].origins| && 0 <= j < |s'.tasks| ensures From(s'.pool[p], k, s'.tasks[j]) {
      assert SameJob(s.tasks[j], s'.tasks[j]);
      if p != q {
        assert SameOrigin(s.pool[p], s'.pool[p]) && From(s.pool[p], k, s.tasks[j]);
      } else if k < |rec.origins| {
        assert From(s.pool[q], k, s.tasks[j]) && s'.pool[q].origins[k] == rec.origins[k];
      } else {
        assert s'.pool[q].origins[k].id == s.tasks[j].id ==> j == i;
      }
    }
    forall p, d | 0 <= p < |s'.pool| && d in s'.pool[p].deps && s'.pool[p].round == s'.round ensures Brought(s'.pool[p], s'.tasks, d) {
      if p == q && d in s.tasks[i].deps {
        assert SameJob(s.tasks[i], s'.tasks[i]) && s'.pool[q].origins[|rec.origins|].id == s'.tasks[i].id;
      } else {
        assert Brought(s.pool[p], s.tasks, d);
        BroughtAlike(s.pool[p], s.tasks, s'.pool[p], s'.tasks, d);
      }
    }
  }

  lemma AdmitTraced(cfg: Config, s: State, i: nat, resp: Response)
    requires Traced(s) && i < |s.tasks| && Launching.DistinctIds(s.tasks) && forall p :: 0 <= p < |s.pool| ==> s.pool[p].origins != []
    ensures Traced(Admit(cfg, s, i, resp))
  {
    var t, p := s.tasks[i], cfg.parseProof(resp);
    if t.model in s.stopped || !p.valid {
      QuietTraced(s, SetPc(s, i, Done));
    } else {
      match Find(s.pool, p.proof)
      case Some(k) => AdmitMergeTraced(cfg, s, i, resp, k);
      case None => AdmitRegisterTraced(cfg, s, i, resp);
    }
  }

  lemma AdmitMergeTraced(cfg: Config, s: State, i: nat, resp: Response, k: nat)
    requires Traced(s) && i < |s.tasks| && Launching.DistinctIds(s.tasks) && forall p :: 0 <= p < |s.pool| ==> s.pool[p].origins != []
    requires s.tasks[i].model !in s.stopped && cfg.parseProof(resp).valid && Find(s.pool, cfg.parseProof(resp).proof) == Some(k)
    ensures Traced(Admit(cfg, s, i, resp))
  {
    MergeTraced(s, Admit(cfg, s, i, resp), i, k);
  }

  lemma AdmitRegisterTraced(cfg: Config, s: State, i: nat, resp: Response)
    requires Traced(s) && i < |s.tasks| && Launching.DistinctIds(s.tasks)
    requires s.tasks[i].model !in s.stopped && cfg.parseProof(resp).valid && Find(s.pool, cfg.parseProof(resp).proof).None?
    ensures Traced(Admit(cfg, s, i, resp))
  {
    RegisterTraced(s, Admit(cfg, s, i, resp), i, cfg.parseProof(resp));
  }

  lemma MergeTraced(s: State, s': State, i: nat, k: nat)
    requires Traced(s) && i < |s.tasks| && Launching.DistinctIds(s.tasks) && k < |s.pool| && s.pool[k].origins != []
    requires s'.round == s.round && s'.pool == s.pool[k := Merge(s.pool[k], s.tasks[i])] && s'.tasks == SetPc(s, i, Done).tasks
    ensures Traced(s')
  {
    MergedRecord(s.pool[k], s.tasks[i]);
    RecordTraced(s, s', i, k, s.pool[k]);
  }

  lemma RegisterTraced(s: State, s': State, i: nat, p: Parsed)
    requires Traced(s) && i < |s.tasks| && Launching.DistinctIds(s.tasks) && s'.round == s.round && |s'.tasks| == |s.tasks|
    requires s'.pool == s.pool + [NewRecord(p, s.tasks[i], s.nextId)] && forall j :: 0 <= j < |s.tasks| ==> SameJob(s.tasks[j], s'.tasks[j])
    ensures Traced(s')
  {
    RecordTraced(s, s', i, |s.pool|, NewRecord(p, s.tasks[i], s.nextId).(origins := [], deps := []));
  }

  lemma BeginTraced(cfg: Config, s: State, i: nat)
    requires Traced(s) && Enabled(cfg, s, Start(i)) && Launching.DistinctIds(s.tasks) && forall p :: 0 <= p < |s.pool| ==> s.pool[p].origins != []
    ensures Traced(Begin(cfg, s, i))
  {
    var t := s.tasks[i];
    if t.cancelled || t.model in s.stopped || t.id !in s.ledger {
      QuietTraced(s, Begin(cfg, s, i));
    } else {
      AdmitTraced(cfg, s, i, s.ledger[t.id]);
    }
  }

  lemma ResumeTraced(cfg: Config, s: State, i: nat)
    requires Traced(s) && Enabled(cfg, s, Resume(i)) && Launching.DistinctIds(s.tasks) && forall p :: 0 <= p < |s.pool| ==> s.pool[p].origins != []
    ensures Traced(Next(cfg, s, Resume(i)))
  {
    if s.tasks[i].cancelled {
      QuietTraced(s, SetPc(s, i, Done));
    } else {
      AdmitTraced(cfg, s, i, s.tasks[i].pc.resp);
    }
  }

  lemma SettleTraced(s: State, i: nat, rec: Record)
    requires Traced(s) && i < |s.tasks| && s.tasks[i].pc.Recording? && s.tasks[i].pc.at < |s.pool|
    requires rec.verdict.Some? && SameOrigin(s.pool[s.tasks[i].pc.at], rec)
    ensures Traced(Settle(s, i, rec))
  {
    var s' := Settle(s, i, rec);
    assert forall j :: 0 <= j < |s.tasks| ==> SameJob(s.tasks[j], s'.tasks[j]);
    QuietTraced(s, s');
  }

  lemma ConcludeTraced(cfg: Config, s: State, i: nat)
    requires Traced(s) && Enabled(cfg, s, Conclude(i))
    ensures Traced(Conclusion(cfg, s, i))
  {
    var pc := s.tasks[i].pc;
    if SomeSeat(pc.seats, Fatal) || pc.interrupted {
      QuietTraced(s, Conclusion(cfg, s, i));
    } else {
      SettleTraced(s, i, Judged(cfg, s.pool[pc.at], pc.seats));
    }
  }

  /** A new round's identities are in no record yet, and every record is of an earlier round. */
  lemma RoundTraced(cfg: Config, s: State, s': State)
    requires Conservation.Conserved(s) && s'.pool == s.pool && s'.round == s.round + 1
    requires forall j :: 0 <= j < |s'.tasks| ==> s'.tasks[j].id.Refine? && s'.tasks[j].id.round == s'.round
    requires forall p :: 0 <= p < |s.pool| ==> s.pool[p].round <= s.round
    ensures Traced(s')
  {
    forall p, k, j | 0 <= p < |s'.pool| && 0 <= k < |s'.pool[p].origins| && 0 <= j < |s'.tasks| ensures From(s'.pool[p], k, s'.tasks[j]) {
      Conservation.OriginIsAdmitted(s, p, k);
    }
  }

  lemma StepTraced(cfg: Config, base: seq<Entry>, s: State, ev: Event)
    requires ValidConfig(cfg) && Outcome.Reached(cfg, base, s) && Conservation.Conserved(s) && Traced(s) && Enabled(cfg, s, ev)
    ensures Traced(Next(cfg, s, ev))
  {
    if ev.Start? {
      BeginTraced(cfg, s, ev.i);
    } else if ev.Resume? {
      ResumeTraced(cfg, s, ev.i);
    } else if ev.Conclude? {
      ConcludeTraced(cfg, s, ev.i);
    } else if ev.NextRound? {
      NextRoundTraced(cfg, s);
    } else {
      OtherTraced(cfg, s, ev);
    }
  }

  lemma NextRoundTraced(cfg: Config, s: State)
    requires ValidConfig(cfg) && Provenance.Backed(cfg, s) && Conservation.Conserved(s) && Enabled(cfg, s, NextRound)
    ensures Traced(Next(cfg, s, NextRound))
  {
    var s' := Next(cfg, s, NextRound);
    Launching.NextTasks(cfg, s);
    assert forall p :: 0 <= p < |s.pool| ==> Provenance.RecordOnDisk(cfg, s, s.pool[p]);
    RoundTraced(cfg, s, s');
  }

  lemma SeatTraced(cfg: Config, s: State, ev: Event)
    requires Traced(s) && Enabled(cfg, s, ev) && (ev.SeatDeliver? || ev.SeatPark? || ev.SeatFail? || ev.SeatDrop?)
    ensures Traced(Next(cfg, s, ev))
  {
    QuietTraced(s, Next(cfg, s, ev));
  }

  lemma SeatStartTraced(cfg: Config, s: State, i: nat, a: nat, b: nat)
    requires Traced(s) && Enabled(cfg, s, SeatStart(i, a, b))
    ensures Traced(BeginSeat(cfg, s, i, a, b))
  {
    QuietTraced(s, BeginSeat(cfg, s, i, a, b));
  }

  lemma PlainTraced(cfg: Config, s: State, ev: Event)
    requires Traced(s) && Enabled(cfg, s, ev)
    requires ev.Deliver? || ev.Park? || ev.Fail? || ev.Drop? || ev.Write? || ev.LoseWrite? || ev.Leave? || ev.Gather? || ev.WriteVote?
    ensures Traced(Next(cfg, s, ev))
  {
    QuietTraced(s, Next(cfg, s, ev));
  }

  lemma OtherTraced(cfg: Config, s: State, ev: Event)
    requires Traced(s) && Enabled(cfg, s, ev) && !ev.Start? && !ev.Resume? && !ev.Conclude? && !ev.NextRound?
    ensures Traced(Next(cfg, s, ev))
  {
    if ev.Abort? {
      QuietTraced(s, Next(cfg, s, ev));
    } else if ev.SeatStart? {
      SeatStartTraced(cfg, s, ev.i, ev.a, ev.b);
    } else if ev.SeatDeliver? || ev.SeatPark? || ev.SeatFail? || ev.SeatDrop? {
      SeatTraced(cfg, s, ev);
    } else {
      PlainTraced(cfg, s, ev);
    }
  }

  lemma {:induction false} RunTraced(cfg: Config, base: seq<Entry>, s: State, run: seq<Event>)
    requires ValidConfig(cfg) && Outcome.Reached(cfg, base, s) && Conservation.Conserved(s) && Traced(s) && Legal(cfg, s, run)
    ensures Traced(Exec(cfg, s, run))
    decreases run
  {
    if run != [] {
      StepTraced(cfg, base, s, run[0]);
      Outcome.StepReached(cfg, base, s, run[0]);
      Conservation.StepConserved(cfg, base, s, run[0]);
      RunTraced(cfg, base, Next(cfg, s, run[0]), run[1..]);
    }
  }

  /**
   * In every reachable state a record that lists a task's sample holds the task's seed there and all its parents among the
   * dependencies; the record is of the checkpoint, round and seed of its first origin; and the dependencies of a record
   * registered this round are those its origins brought, and no other.
   */
  lemma RecordsFollowTheirTasks(cfg: Config, disk: seq<Entry>, run: seq<Event>)
    requires ValidConfig(cfg) && Legal(cfg, Init(cfg, disk), run)
    ensures var s := Exec(cfg, Init(cfg, disk), run);
      && (forall p, k, j :: 0 <= p < |s.pool| && 0 <= k < |s.pool[p].origins| && 0 <= j < |s.tasks| ==> From(s.pool[p], k, s.tasks[j]))
      && (forall p, d :: 0 <= p < |s.pool| && d in s.pool[p].deps && s.pool[p].round == s.round ==> Brought(s.pool[p], s.tasks, d))
  {
    Outcome.InitReached(cfg, disk);
    Conservation.InitConserved(cfg, disk);
    RunTraced(cfg, disk, Init(cfg, disk), run);
  }
}
