/** Which samples the pool counts: exactly the answered ones whose row on disk is a valid proof, under its own text. */
module Admission {
  import opened Search
  import opened Durability
  import opened Steps
  import Conservation
  import Launching
  import Provenance
  import Safety

  // ---- the invariant ------------------------------------------------------------

  /** The row of this identity on disk is a valid sample with this proof text. */
  ghost predicate Gives(cfg: Config, s: State, id: WorkId, proof: string) {
    exists resp :: Provenance.OnDisk(s, id, resp) && cfg.parseProof(resp).valid && cfg.parseProof(resp).proof == proof
  }

  /** The record of this text lists the sample among its origins. */
  ghost predicate Counted(s: State, id: WorkId, proof: string) {
    exists p, k :: 0 <= p < |s.pool| && 0 <= k < |s.pool[p].origins| && s.pool[p].proof == proof && s.pool[p].origins[k].id == id
  }

  ghost predicate OriginsOnDisk(cfg: Config, s: State) {
    forall p, k :: 0 <= p < |s.pool| && 0 <= k < |s.pool[p].origins| ==> Gives(cfg, s, s.pool[p].origins[k].id, s.pool[p].proof)
  }

  /** The sample's checkpoint still counts samples. */
  predicate Live(s: State, id: WorkId) {
    !s.aborting && !id.Vote? && id.model !in s.stopped
  }

  ghost predicate AnswerCounted(cfg: Config, s: State, id: WorkId) {
    forall proof :: Gives(cfg, s, id, proof) ==> Counted(s, id, proof)
  }

  /** A task past its answer, of a checkpoint that was not stopped, is counted if its row gives a proof. */
  ghost predicate Accounted(cfg: Config, s: State) {
    && OriginsOnDisk(cfg, s)
    && forall j :: 0 <= j < |s.tasks| && !Conservation.Waiting(s.tasks[j].pc) && Live(s, s.tasks[j].id) ==> AnswerCounted(cfg, s, s.tasks[j].id)
  }

  // ---- steps ----------------------------------------------------------------------

  /** Rows added by a step of task `i` belong to its sample or are votes. */
  ghost predicate OwnRows(s: State, s': State, i: nat) {
    i < |s.tasks| && forall e :: e in s'.rows ==> e in s.rows || e.id.Vote? || e.id == s.tasks[i].id
  }

  /** New origins have their rows. */
  ghost predicate NewOriginsOnDisk(cfg: Config, s: State, s': State) {
    forall p, k :: 0 <= p < |s'.pool| && 0 <= k < |s'.pool[p].origins| ==>
      (p < |s.pool| && k < |s.pool[p].origins|) || Gives(cfg, s', s'.pool[p].origins[k].id, s'.pool[p].proof)
  }

  lemma GivesKept(cfg: Config, s: State, s': State, id: WorkId, proof: string)
    requires Provenance.DiskGrows(s, s') && Gives(cfg, s, id, proof)
    ensures Gives(cfg, s', id, proof)
  {
    var resp :| Provenance.OnDisk(s, id, resp) && cfg.parseProof(resp).valid && cfg.parseProof(resp).proof == proof;
    Provenance.OnDiskKept(s, s', id, resp);
  }

  lemma CountedKept(s: State, s': State, id: WorkId, proof: string)
    requires Safety.After(s, s') && Counted(s, id, proof)
    ensures Counted(s', id, proof)
  {
    var p, k :| 0 <= p < |s.pool| && 0 <= k < |s.pool[p].origins| && s.pool[p].proof == proof && s.pool[p].origins[k].id == id;
    assert Safety.RecordGrows(s.pool[p], s'.pool[p]);
  }

  lemma OriginsKept(cfg: Config, s: State, s': State)
    requires OriginsOnDisk(cfg, s) && Safety.After(s, s') && Provenance.DiskGrows(s, s') && NewOriginsOnDisk(cfg, s, s')
    ensures OriginsOnDisk(cfg, s')
  {
    forall p, k | 0 <= p < |s'.pool| && 0 <= k < |s'.pool[p].origins|
      ensures Gives(cfg, s', s'.pool[p].origins[k].id, s'.pool[p].proof)
    {
      if p < |s.pool| && k < |s.pool[p].origins| {
        assert Safety.RecordGrows(s.pool[p], s'.pool[p]);
        GivesKept(cfg, s, s', s.pool[p].origins[k].id, s.pool[p].proof);
      }
    }
  }

  /** A row of another sample does not touch this one. */
  lemma AnswerKept(cfg: Config, s: State, s': State, i: nat, id: WorkId)
    requires Safety.After(s, s') && s'.ledger == s.ledger && OwnRows(s, s', i) && AnswerCounted(cfg, s, id)
    requires !id.Vote? && (id == s.tasks[i].id ==> s'.rows == s.rows || forall e :: e in s'.rows ==> e in s.rows || e.id.Vote?)
    ensures AnswerCounted(cfg, s', id)
  {
    forall proof | Gives(cfg, s', id, proof) ensures Counted(s', id, proof) {
      var resp :| Provenance.OnDisk(s', id, resp) && cfg.parseProof(resp).valid && cfg.parseProof(resp).proof == proof;
      assert Provenance.OnDisk(s, id, resp);
      assert Gives(cfg, s, id, proof);
      CountedKept(s, s', id, proof);
    }
  }

  /** Task `i` moved; the caller accounts for it. */
  lemma MoveAccounted(cfg: Config, base: seq<Entry>, s: State, s': State, i: nat)
    requires Accounted(cfg, s) && Durable(cfg, base, s) && Moved(s, s', i) && Safety.After(s, s') && OwnRows(s, s', i)
    requires NewOriginsOnDisk(cfg, s, s')
    requires !Conservation.Waiting(s'.tasks[i].pc) && Live(s', s.tasks[i].id) ==> AnswerCounted(cfg, s', s.tasks[i].id)
    ensures Accounted(cfg, s')
  {
    OriginsKept(cfg, s, s');
    forall j | 0 <= j < |s'.tasks| && !Conservation.Waiting(s'.tasks[j].pc) && Live(s', s'.tasks[j].id)
      ensures AnswerCounted(cfg, s', s'.tasks[j].id)
    {
      if j != i {
        assert s.tasks[j].id != s.tasks[i].id;
        AnswerKept(cfg, s, s', i, s.tasks[j].id);
      }
    }
  }

  /** A task that still waits, or waited no longer before the step and wrote at most a vote. */
  lemma PlainAccounted(cfg: Config, base: seq<Entry>, s: State, s': State, i: nat)
    requires Accounted(cfg, s) && Durable(cfg, base, s) && Moved(s, s', i) && Safety.After(s, s') && OwnRows(s, s', i)
    requires NewOriginsOnDisk(cfg, s, s')
    requires Conservation.Waiting(s'.tasks[i].pc) ||
      (!Conservation.Waiting(s.tasks[i].pc) && forall e :: e in s'.rows ==> e in s.rows || e.id.Vote?)
    ensures Accounted(cfg, s')
  {
    if !Conservation.Waiting(s'.tasks[i].pc) && Live(s', s.tasks[i].id) {
      AnswerKept(cfg, s, s', i, s.tasks[i].id);
    }
    MoveAccounted(cfg, base, s, s', i);
  }

  lemma RowsListed(rows: seq<Entry>)
    ensures forall e :: e in rows ==> e.id in Ids(rows)
  {
    forall e | e in rows ensures e.id in Ids(rows) {
      var k :| 0 <= k < |rows| && rows[k] == e;
      assert Ids(rows)[k] == e.id;
    }
  }

  /** A task ends without an answer: its checkpoint is stopped, the search aborts, or nothing is on disk. */
  lemma EndAccounted(cfg: Config, base: seq<Entry>, s: State, s': State, i: nat)
    requires Accounted(cfg, s) && Durable(cfg, base, s) && i < |s.tasks| && Safety.After(s, s')
    requires s' == SetPc(s, i, Done).(failed := s'.failed)
    requires !Live(s, s.tasks[i].id) || s.tasks[i].pc.Asking?
    ensures Accounted(cfg, s')
  {
    var id := s.tasks[i].id;
    if s.tasks[i].pc.Asking? {
      assert TaskOk(cfg, s.pool, s.issued, Ids(s.rows), s.tasks[i]);
      RowsListed(s.rows);
    }
    MoveAccounted(cfg, base, s, s', i);
  }

  // ---- admitting a response --------------------------------------------------------------

  /** Exactly this answer of the sample is on disk. */
  ghost predicate OnlyAnswer(s: State, id: WorkId, resp: Response) {
    Provenance.OnDisk(s, id, resp) && forall other :: Provenance.OnDisk(s, id, other) ==> other == resp
  }

  lemma OneAnswer(cfg: Config, base: seq<Entry>, s: State, id: WorkId, resp: Response)
    requires Durable(cfg, base, s) && Provenance.OnDisk(s, id, resp)
    ensures OnlyAnswer(s, id, resp)
  {
    forall other | Provenance.OnDisk(s, id, other) ensures other == resp {
      Provenance.DiskIsReplayed(cfg, base, s, id, resp);
      Provenance.DiskIsReplayed(cfg, base, s, id, other);
    }
  }

  lemma MergedCounted(s: State, s': State, i: nat, k: nat)
    requires i < |s.tasks| && k < |s.pool| && s'.pool == s.pool[k := Merge(s.pool[k], s.tasks[i])]
    ensures Counted(s', s.tasks[i].id, s.pool[k].proof)
  {
    var n := |s.pool[k].origins|;
    assert s'.pool[k].origins[n].id == s.tasks[i].id;
  }

  lemma RegisteredCounted(s: State, s': State, i: nat, rec: Record)
    requires i < |s.tasks| && s'.pool == s.pool + [rec] && rec.origins != [] && rec.origins[0].id == s.tasks[i].id
    ensures Counted(s', s.tasks[i].id, rec.proof)
  {
    assert s'.pool[|s.pool|].origins[0].id == s.tasks[i].id;
  }

  lemma OnlyAnswerCounted(cfg: Config, s: State, s': State, id: WorkId, resp: Response)
    requires OnlyAnswer(s, id, resp) && s'.ledger == s.ledger && s'.rows == s.rows
    requires cfg.parseProof(resp).valid ==> Counted(s', id, cfg.parseProof(resp).proof)
    ensures AnswerCounted(cfg, s', id)
    ensures cfg.parseProof(resp).valid ==> Gives(cfg, s', id, cfg.parseProof(resp).proof)
  {
    assert Provenance.OnDisk(s', id, resp);
    forall proof | Gives(cfg, s', id, proof) ensures Counted(s', id, proof) {
      var other :| Provenance.OnDisk(s', id, other) && cfg.parseProof(other).valid && cfg.parseProof(other).proof == proof;
      assert Provenance.OnDisk(s, id, other);
    }
  }

  lemma MergedSources(cfg: Config, s: State, s': State, i: nat, k: nat)
    requires i < |s.tasks| && k < |s.pool| && s'.pool == s.pool[k := Merge(s.pool[k], s.tasks[i])]
    requires Gives(cfg, s', s.tasks[i].id, s.pool[k].proof)
    ensures NewOriginsOnDisk(cfg, s, s')
  {
  }

  lemma RegisteredSources(cfg: Config, s: State, s': State, rec: Record)
    requires s'.pool == s.pool + [rec] && |rec.origins| == 1 && Gives(cfg, s', rec.origins[0].id, rec.proof)
    ensures NewOriginsOnDisk(cfg, s, s')
  {
  }

  lemma AdmitCounts(cfg: Config, s: State, i: nat, resp: Response)
    requires i < |s.tasks| && s.tasks[i].model !in s.stopped && OnlyAnswer(s, s.tasks[i].id, resp)
    ensures AnswerCounted(cfg, Admit(cfg, s, i, resp), s.tasks[i].id)
    ensures NewOriginsOnDisk(cfg, s, Admit(cfg, s, i, resp))
  {
    var s', id, p := Admit(cfg, s, i, resp), s.tasks[i].id, cfg.parseProof(resp);
    if !p.valid {
      OnlyAnswerCounted(cfg, s, s', id, resp);
    } else {
      match Find(s.pool, p.proof)
      case Some(k) =>
        MergedCounted(s, s', i, k);
        OnlyAnswerCounted(cfg, s, s', id, resp);
        MergedSources(cfg, s, s', i, k);
      case None =>
        var rec := NewRecord(p, s.tasks[i], s.nextId);
        RegisteredCounted(s, s', i, rec);
        OnlyAnswerCounted(cfg, s, s', id, resp);
        RegisteredSources(cfg, s, s', rec);
    }
  }

  lemma AdmitAccounted(cfg: Config, base: seq<Entry>, s: State, i: nat, resp: Response)
    requires Accounted(cfg, s) && Durable(cfg, base, s) && Safety.Sound(cfg, s) && i < |s.tasks|
    requires Provenance.OnDisk(s, s.tasks[i].id, resp) && Safety.After(s, Admit(cfg, s, i, resp))
    ensures Accounted(cfg, Admit(cfg, s, i, resp))
  {
    assert Safety.TaskSafe(s, s.tasks[i]);
    OneAnswer(cfg, base, s, s.tasks[i].id, resp);
    AdmitStep(cfg, s, i, resp);
    if s.tasks[i].model in s.stopped {
      EndAccounted(cfg, base, s, Admit(cfg, s, i, resp), i);
    } else {
      AdmitCounts(cfg, s, i, resp);
      MoveAccounted(cfg, base, s, Admit(cfg, s, i, resp), i);
    }
  }

  lemma BeginAccounted(cfg: Config, base: seq<Entry>, s: State, i: nat)
    requires Accounted(cfg, s) && Durable(cfg, base, s) && Safety.Sound(cfg, s) && Enabled(cfg, s, Start(i))
    ensures Accounted(cfg, Begin(cfg, s, i))
  {
    var t := s.tasks[i];
    assert Safety.TaskSafe(s, t);
    Safety.StepAfter(cfg, s, Start(i));
    BeginStep(cfg, s, i);
    if t.cancelled || t.model in s.stopped {
      EndAccounted(cfg, base, s, Begin(cfg, s, i), i);
    } else if t.id in s.ledger {
      AdmitAccounted(cfg, base, s, i, s.ledger[t.id]);
    } else {
      PlainAccounted(cfg, base, s, Begin(cfg, s, i), i);
    }
  }

  lemma ResumeAccounted(cfg: Config, base: seq<Entry>, s: State, i: nat)
    requires Accounted(cfg, s) && Durable(cfg, base, s) && Safety.Sound(cfg, s) && Provenance.Backed(cfg, s) && Enabled(cfg, s, Resume(i))
    ensures Accounted(cfg, Next(cfg, s, Resume(i)))
  {
    assert Safety.TaskSafe(s, s.tasks[i]) && Provenance.TaskOnDisk(cfg, s, s.tasks[i]);
    Safety.StepAfter(cfg, s, Resume(i));
    if s.tasks[i].cancelled {
      EndAccounted(cfg, base, s, Next(cfg, s, Resume(i)), i);
    } else {
      AdmitAccounted(cfg, base, s, i, s.tasks[i].pc.resp);
    }
  }

  /** A task ends while its answer is still to come, or for good reason drops it. */
  lemma StopAccounted(cfg: Config, base: seq<Entry>, s: State, ev: Event)
    requires Accounted(cfg, s) && Durable(cfg, base, s) && Safety.Sound(cfg, s) && Enabled(cfg, s, ev)
    requires ev.Park? || ev.Fail? || ev.Drop? || ev.LoseWrite?
    ensures Accounted(cfg, Next(cfg, s, ev))
  {
    assert Safety.TaskSafe(s, s.tasks[ev.i]);
    Safety.StepAfter(cfg, s, ev);
    EndAccounted(cfg, base, s, Next(cfg, s, ev), ev.i);
  }

  lemma WaitAccounted(cfg: Config, base: seq<Entry>, s: State, ev: Event)
    requires Accounted(cfg, s) && Durable(cfg, base, s) && Safety.Sound(cfg, s) && Enabled(cfg, s, ev)
    requires ev.Deliver? || ev.Write?
    ensures Accounted(cfg, Next(cfg, s, ev))
  {
    Safety.StepAfter(cfg, s, ev);
    TaskStep(cfg, s, ev);
    PlainAccounted(cfg, base, s, Next(cfg, s, ev), ev.i);
  }

  /** Sources of the records, and sample rows, stand still while a panel works. */
  lemma PanelSources(cfg: Config, s: State, ev: Event)
    requires Enabled(cfg, s, ev)
    requires ev.SeatStart? || ev.SeatDeliver? || ev.SeatPark? || ev.SeatFail? || ev.SeatDrop? || ev.Gather? || ev.WriteVote? || ev.Leave?
    ensures Next(cfg, s, ev).pool == s.pool && !Conservation.Waiting(s.tasks[ev.i].pc)
    ensures forall e :: e in Next(cfg, s, ev).rows ==> e in s.rows || e.id.Vote?
  {
  }

  lemma SettleSources(s: State, i: nat, rec: Record)
    requires i < |s.tasks| && s.tasks[i].pc.Recording? && s.tasks[i].pc.at < |s.pool| && rec.verdict.Some?
    requires rec.origins == s.pool[s.tasks[i].pc.at].origins
    ensures var s' := Settle(s, i, rec);
      && s'.rows == s.rows && |s'.pool| == |s.pool|
      && forall p :: 0 <= p < |s.pool| ==> s'.pool[p].origins == s.pool[p].origins
  {
    var at := s.tasks[i].pc.at;
    assert Settle(s, i, rec).pool == s.pool[at := rec] || Settle(s, i, rec).pool == s.pool[at := rec.(accepted := true)];
  }

  lemma ConcludeSources(cfg: Config, s: State, i: nat)
    requires Enabled(cfg, s, Conclude(i))
    ensures var s' := Conclusion(cfg, s, i);
      && s'.rows == s.rows && |s'.pool| == |s.pool| && !Conservation.Waiting(s.tasks[i].pc)
      && forall p :: 0 <= p < |s.pool| ==> s'.pool[p].origins == s.pool[p].origins
  {
    var pc := s.tasks[i].pc;
    SettleSources(s, i, Judged(cfg, s.pool[pc.at], pc.seats));
  }

  lemma PanelAccounted(cfg: Config, base: seq<Entry>, s: State, ev: Event)
    requires Accounted(cfg, s) && Durable(cfg, base, s) && Safety.Sound(cfg, s) && Enabled(cfg, s, ev)
    requires ev.SeatStart? || ev.SeatDeliver? || ev.SeatPark? || ev.SeatFail? || ev.SeatDrop? || ev.Gather? || ev.WriteVote? || ev.Leave?
    ensures Accounted(cfg, Next(cfg, s, ev))
  {
    Safety.StepAfter(cfg, s, ev);
    TaskStep(cfg, s, ev);
    PanelSources(cfg, s, ev);
    PlainAccounted(cfg, base, s, Next(cfg, s, ev), ev.i);
  }

  lemma ConcludeAccounted(cfg: Config, base: seq<Entry>, s: State, i: nat)
    requires Accounted(cfg, s) && Durable(cfg, base, s) && Safety.Sound(cfg, s) && Enabled(cfg, s, Conclude(i))
    ensures Accounted(cfg, Conclusion(cfg, s, i))
  {
    Safety.StepAfter(cfg, s, Conclude(i));
    ConcludeStep(cfg, s, i);
    ConcludeSources(cfg, s, i);
    PlainAccounted(cfg, base, s, Conclusion(cfg, s, i), i);
  }

  lemma RoundAccounted(cfg: Config, s: State, parents: seq<nat>)
    requires ValidConfig(cfg) && Accounted(cfg, s)
    ensures Accounted(cfg, BeginRound(cfg, s, parents))
  {
    var s' := BeginRound(cfg, s, parents);
    Launching.FreshTasks(s.round + 1, cfg.checkpoints, parents);
    forall j | 0 <= j < |s'.tasks| ensures s'.tasks[j].pc == Idle {
      assert s'.tasks[j] in s'.tasks;
    }
    forall p, k | 0 <= p < |s'.pool| && 0 <= k < |s'.pool[p].origins|
      ensures Gives(cfg, s', s'.pool[p].origins[k].id, s'.pool[p].proof)
    {
      GivesKept(cfg, s, s', s.pool[p].origins[k].id, s.pool[p].proof);
    }
  }

  lemma AbortAccounted(cfg: Config, s: State)
    requires Accounted(cfg, s)
    ensures Accounted(cfg, Next(cfg, s, Abort))
  {
    var s' := Next(cfg, s, Abort);
    forall p, k | 0 <= p < |s'.pool| && 0 <= k < |s'.pool[p].origins|
      ensures Gives(cfg, s', s'.pool[p].origins[k].id, s'.pool[p].proof)
    {
      GivesKept(cfg, s, s', s.pool[p].origins[k].id, s.pool[p].proof);
    }
  }

  lemma StepAccounted(cfg: Config, base: seq<Entry>, s: State, ev: Event)
    requires ValidConfig(cfg) && Accounted(cfg, s) && Durable(cfg, base, s) && Safety.Sound(cfg, s) && Provenance.Backed(cfg, s)
    requires Enabled(cfg, s, ev)
    ensures Accounted(cfg, Next(cfg, s, ev))
  {
    if ev.Start? { BeginAccounted(cfg, base, s, ev.i); }
    else if ev.Resume? { ResumeAccounted(cfg, base, s, ev.i); }
    else if ev.Conclude? { ConcludeAccounted(cfg, base, s, ev.i); }
    else if ev.NextRound? { RoundAccounted(cfg, s, Parents(cfg, s.pool)); }
    else if ev.Abort? { AbortAccounted(cfg, s); }
    else if ev.Deliver? || ev.Write? { WaitAccounted(cfg, base, s, ev); }
    else if ev.Park? || ev.Fail? || ev.Drop? || ev.LoseWrite? { StopAccounted(cfg, base, s, ev); }
    else { PanelAccounted(cfg, base, s, ev); }
  }

  lemma {:induction false} RunAccounted(cfg: Config, base: seq<Entry>, s: State, run: seq<Event>)
    requires ValidConfig(cfg) && Accounted(cfg, s) && Durable(cfg, base, s) && Safety.Sound(cfg, s) && Provenance.Backed(cfg, s)
    requires Legal(cfg, s, run)
    ensures Accounted(cfg, Exec(cfg, s, run))
    decreases run
  {
    if run != [] {
      StepAccounted(cfg, base, s, run[0]);
      StepDurable(cfg, base, s, run[0]);
      Safety.StepSound(cfg, s, run[0]);
      Provenance.StepBacked(cfg, s, run[0]);
      RunAccounted(cfg, base, Next(cfg, s, run[0]), run[1..]);
    }
  }

  /**
   * In every reachable state, every origin of every record is a sample whose row on disk is valid and holds the record's
   * text; and every sample past its answer whose checkpoint was not stopped, in a search that was not aborted, is an
   * origin of the record with the text its row gives.
   */
  lemma PoolCountsTheValidSamples(cfg: Config, disk: seq<Entry>, run: seq<Event>)
    requires ValidConfig(cfg) && Legal(cfg, Init(cfg, disk), run)
    ensures var s := Exec(cfg, Init(cfg, disk), run);
      && OriginsOnDisk(cfg, s)
      && (forall j :: 0 <= j < |s.tasks| && !Conservation.Waiting(s.tasks[j].pc) && Live(s, s.tasks[j].id) ==>
            forall proof :: Gives(cfg, s, s.tasks[j].id, proof) ==> Counted(s, s.tasks[j].id, proof))
  {
    var s0 := Init(cfg, disk);
    InitDurable(cfg, disk);
    Safety.InitSound(cfg, disk);
    Provenance.InitBacked(cfg, disk);
    Launching.Round1TasksFacts(cfg.prompts, cfg.checkpoints, 0);
    forall j | 0 <= j < |s0.tasks| ensures s0.tasks[j].pc == Idle {
      assert s0.tasks[j] in s0.tasks && Launching.GenerationTask(s0.tasks[j], cfg.prompts, cfg.checkpoints);
    }
    RunAccounted(cfg, disk, s0, run);
    var s := Exec(cfg, s0, run);
    forall j | 0 <= j < |s.tasks| && !Conservation.Waiting(s.tasks[j].pc) && Live(s, s.tasks[j].id)
      ensures forall proof :: Gives(cfg, s, s.tasks[j].id, proof) ==> Counted(s, s.tasks[j].id, proof)
    {
      assert AnswerCounted(cfg, s, s.tasks[j].id);
    }
  }
}
