/**
 * Acceptance and stopping: what every reachable state of a search satisfies, whatever the schedule,
 * the responses, the cancellations and the disk it was launched from.
 */
module Safety {
  import opened Options
  import opened Search
  import opened Durability
  import Panels
  import Launching

  // ---- the invariant ----------------------------------------------------------

  /** A record carries its place as its id, and its verdict says what its scores say. */
  ghost predicate RecordOk(cfg: Config, rec: Record, p: nat) {
    && rec.id == p + 1
    && (rec.verdict.None? ==> !rec.accepted && rec.scores == [] && rec.critiques == [])
    && (rec.verdict.Some? ==>
          && |rec.scores| == |cfg.verifiers|
          && (rec.verdict.value.complete <==> Panels.FullScores(rec.scores, cfg.judgments))
          && (rec.verdict.value.accepted <==> Panels.AllOnes(rec.scores, cfg.judgments))
          && (rec.accepted <==> rec.verdict.value.accepted))
  }

  ghost predicate PoolOk(cfg: Config, pool: seq<Record>) {
    forall p :: 0 <= p < |pool| ==> RecordOk(cfg, pool[p], p)
  }

  /** A checkpoint is stopped exactly when it has a finalist, and its finalist is its one accepted proof. */
  ghost predicate FinalistsOk(s: State) {
    && s.stopped == s.finalists.Keys
    && (forall m :: m in s.finalists ==> s.finalists[m] < |s.pool| && s.pool[s.finalists[m]].model == m && s.pool[s.finalists[m]].accepted)
    && (forall p :: 0 <= p < |s.pool| && s.pool[p].accepted ==> s.pool[p].model in s.finalists && s.finalists[s.pool[p].model] == p)
  }

  /** A task works under an identity of its own checkpoint. */
  predicate OwnId(t: Task) {
    (t.id.Generate? && t.id.model == t.model) || (t.id.Refine? && t.id.model == t.model)
  }

  /** A task is cancelled only by a stop of its checkpoint or by an abort; a stopped checkpoint's panel cannot conclude. */
  ghost predicate TaskSafe(s: State, t: Task) {
    && OwnId(t)
    && (t.pc != Done && t.cancelled ==> s.aborting || t.model in s.stopped)
    && (t.pc.Voting? && t.model in s.stopped ==> t.cancelled)
    && (t.pc.Recording? && t.model in s.stopped ==> t.cancelled || t.pc.interrupted)
    && (HasPanel(t.pc) ==> t.pc.at < |s.pool| && s.pool[t.pc.at].model == t.model && s.pool[t.pc.at].verdict.None?)
  }

  ghost predicate Sound(cfg: Config, s: State) {
    && s.nextId == |s.pool| + 1 && PoolOk(cfg, s.pool) && FinalistsOk(s) && SeparatePanels(s.tasks)
    && forall j :: 0 <= j < |s.tasks| ==> TaskSafe(s, s.tasks[j])
  }

  // ---- steps that accept nothing --------------------------------------------------

  /** Task `i` moved; records may be added, and the record of its panel may have been judged without acceptance. */
  ghost predicate Quiet(cfg: Config, s: State, s': State, i: nat) {
    && Moved(s, s', i) && s'.finalists == s.finalists && s'.stopped == s.stopped && s'.aborting == s.aborting
    && (forall j :: 0 <= j < |s.tasks| && j != i ==> s'.tasks[j] == s.tasks[j])
    && s'.nextId == |s'.pool| + 1 && PoolOk(cfg, s'.pool)
    && (forall p :: 0 <= p < |s.pool| ==> s'.pool[p].model == s.pool[p].model && s'.pool[p].accepted == s.pool[p].accepted)
    && (forall p :: 0 <= p < |s.pool| && !(s.tasks[i].pc.Recording? && s.tasks[i].pc.at == p) ==> s'.pool[p].verdict == s.pool[p].verdict)
    && (forall p :: |s.pool| <= p < |s'.pool| ==> !s'.pool[p].accepted)
  }

  lemma QuietFinalists(cfg: Config, s: State, s': State, i: nat)
    requires Sound(cfg, s) && Quiet(cfg, s, s', i)
    ensures FinalistsOk(s')
  {
  }

  lemma QuietPanels(cfg: Config, s: State, s': State, i: nat)
    requires Sound(cfg, s) && Quiet(cfg, s, s', i)
    ensures SeparatePanels(s'.tasks)
  {
    forall x, y | 0 <= x < y < |s'.tasks| && HasPanel(s'.tasks[x].pc) && HasPanel(s'.tasks[y].pc)
      ensures s'.tasks[x].pc.at != s'.tasks[y].pc.at
    {
      assert TaskSafe(s, s.tasks[x]) && TaskSafe(s, s.tasks[y]);
    }
  }

  lemma QuietSound(cfg: Config, s: State, s': State, i: nat)
    requires Sound(cfg, s) && Quiet(cfg, s, s', i) && TaskSafe(s', s'.tasks[i])
    ensures Sound(cfg, s')
  {
    QuietFinalists(cfg, s, s', i);
    QuietPanels(cfg, s, s', i);
    forall j | 0 <= j < |s'.tasks| ensures TaskSafe(s', s'.tasks[j]) {
      if j != i {
        assert TaskSafe(s, s.tasks[j]);
        if HasPanel(s.tasks[i].pc) && HasPanel(s.tasks[j].pc) {
          assert s.tasks[i].pc.at != s.tasks[j].pc.at;
        }
      }
    }
  }

  /** Only the task moved: nothing is registered or judged. */
  lemma TaskOnlySound(cfg: Config, s: State, s': State, i: nat, t: Task)
    requires Sound(cfg, s) && i < |s.tasks| && t.id == s.tasks[i].id
    requires t.model == s.tasks[i].model
    requires s' == s.(tasks := s.tasks[i := t], issued := s'.issued, rows := s'.rows, admitted := s'.admitted, failed := s'.failed)
    requires HasPanel(t.pc) ==> HasPanel(s.tasks[i].pc) && t.pc.at == s.tasks[i].pc.at
    requires TaskSafe(s', t)
    ensures Sound(cfg, s')
  {
    assert Moved(s, s', i);
    QuietSound(cfg, s, s', i);
  }

  lemma DoneSound(cfg: Config, s: State, i: nat)
    requires Sound(cfg, s) && i < |s.tasks|
    ensures Sound(cfg, SetPc(s, i, Done)) && Sound(cfg, SetPc(s, i, Done).(failed := true))
  {
    assert TaskSafe(s, s.tasks[i]);
    TaskOnlySound(cfg, s, SetPc(s, i, Done), i, s.tasks[i].(pc := Done));
    TaskOnlySound(cfg, s, SetPc(s, i, Done).(failed := true), i, s.tasks[i].(pc := Done));
  }

  lemma MergeSound(cfg: Config, s: State, s': State, i: nat, k: nat)
    requires Sound(cfg, s) && i < |s.tasks| && k < |s.pool|
    requires s' == SetPc(s.(pool := s.pool[k := Merge(s.pool[k], s.tasks[i])], admitted := s'.admitted), i, Done)
    ensures Sound(cfg, s')
  {
    assert RecordOk(cfg, s.pool[k], k);
    assert forall p :: 0 <= p < |s.pool| ==> RecordOk(cfg, s'.pool[p], p);
    assert TaskSafe(s, s.tasks[i]);
    QuietSound(cfg, s, s', i);
  }

  lemma RegisterSound(cfg: Config, s: State, s': State, i: nat, rec: Record, seats: seq<seq<Seat>>)
    requires Sound(cfg, s) && i < |s.tasks| && s.tasks[i].model !in s.stopped && s.tasks[i].pc != Done
    requires rec.model == s.tasks[i].model && rec.id == s.nextId && rec.verdict.None? && !rec.accepted && rec.scores == [] && rec.critiques == []
    requires s' == SetPc(s.(pool := s.pool + [rec], nextId := s.nextId + 1, admitted := s'.admitted), i, Voting(|s.pool|, seats))
    ensures Sound(cfg, s')
  {
    assert RecordOk(cfg, rec, |s.pool|);
    assert forall p :: 0 <= p < |s.pool| ==> RecordOk(cfg, s'.pool[p], p);
    assert TaskSafe(s, s.tasks[i]);
    assert Moved(s, s', i);
    QuietSound(cfg, s, s', i);
  }

  lemma AdmitSound(cfg: Config, s: State, i: nat, resp: Response)
    requires Sound(cfg, s) && i < |s.tasks| && s.tasks[i].pc != Done
    ensures Sound(cfg, Admit(cfg, s, i, resp))
  {
    var t, p := s.tasks[i], cfg.parseProof(resp);
    if t.model in s.stopped || !p.valid {
      DoneSound(cfg, s, i);
    } else {
      match Find(s.pool, p.proof)
      case Some(k) => MergeSound(cfg, s, Admit(cfg, s, i, resp), i, k);
      case None => RegisterSound(cfg, s, Admit(cfg, s, i, resp), i, NewRecord(p, t, s.nextId), EmptyPanel(cfg));
    }
  }

  lemma BeginSound(cfg: Config, s: State, i: nat)
    requires Sound(cfg, s) && Enabled(cfg, s, Start(i))
    ensures Sound(cfg, Begin(cfg, s, i))
  {
    var t := s.tasks[i];
    if t.cancelled || t.model in s.stopped {
      DoneSound(cfg, s, i);
    } else if t.id in s.ledger {
      AdmitSound(cfg, s, i, s.ledger[t.id]);
    } else {
      assert TaskSafe(s, t);
      TaskOnlySound(cfg, s, Begin(cfg, s, i), i, t.(pc := Asking));
    }
  }

  /** Seats settle and votes are written; the panel stays the task's own. */
  lemma PanelSound(cfg: Config, s: State, s': State, i: nat, pc: Pc)
    requires Sound(cfg, s) && i < |s.tasks| && HasPanel(s.tasks[i].pc) && HasPanel(pc)
    requires pc.at == s.tasks[i].pc.at && pc.Voting? == s.tasks[i].pc.Voting? && pc.Recording? == s.tasks[i].pc.Recording?
    requires pc.Recording? ==> pc.interrupted == s.tasks[i].pc.interrupted
    requires s' == SetPc(s, i, pc).(issued := s'.issued, rows := s'.rows)
    ensures Sound(cfg, s')
  {
    assert TaskSafe(s, s.tasks[i]);
    TaskOnlySound(cfg, s, s', i, s.tasks[i].(pc := pc));
  }

  lemma BeginSeatSound(cfg: Config, s: State, i: nat, a: nat, b: nat)
    requires Sound(cfg, s) && Enabled(cfg, s, SeatStart(i, a, b))
    ensures Sound(cfg, BeginSeat(cfg, s, i, a, b))
  {
    PanelSound(cfg, s, BeginSeat(cfg, s, i, a, b), i, BeginSeat(cfg, s, i, a, b).tasks[i].pc);
  }

  lemma SettleSeatSound(cfg: Config, s: State, i: nat, a: nat, b: nat, was: Seat, seat: Seat)
    requires Sound(cfg, s) && SeatAt(cfg, s, i, a, b, was)
    ensures Sound(cfg, SettleSeat(s, i, a, b, seat))
  {
    PanelSound(cfg, s, SettleSeat(s, i, a, b, seat), i, SettleSeat(s, i, a, b, seat).tasks[i].pc);
  }

  lemma WriteVoteSound(cfg: Config, s: State, i: nat, a: nat, b: nat)
    requires Sound(cfg, s) && Enabled(cfg, s, WriteVote(i, a, b))
    ensures Sound(cfg, Next(cfg, s, WriteVote(i, a, b)))
  {
    PanelSound(cfg, s, Next(cfg, s, WriteVote(i, a, b)), i, Next(cfg, s, WriteVote(i, a, b)).tasks[i].pc);
  }

  lemma DeliverSound(cfg: Config, s: State, i: nat, resp: Response)
    requires Sound(cfg, s) && Enabled(cfg, s, Deliver(i, resp))
    ensures Sound(cfg, Next(cfg, s, Deliver(i, resp)))
  {
    assert TaskSafe(s, s.tasks[i]);
    TaskOnlySound(cfg, s, Next(cfg, s, Deliver(i, resp)), i, s.tasks[i].(pc := Saving(resp), cancelled := false));
  }

  lemma WriteSound(cfg: Config, s: State, i: nat)
    requires Sound(cfg, s) && Enabled(cfg, s, Write(i))
    ensures Sound(cfg, Next(cfg, s, Write(i)))
  {
    assert TaskSafe(s, s.tasks[i]);
    TaskOnlySound(cfg, s, Next(cfg, s, Write(i)), i, s.tasks[i].(pc := Saved(s.tasks[i].pc.resp)));
  }

  lemma GatherSound(cfg: Config, s: State, i: nat)
    requires Sound(cfg, s) && Enabled(cfg, s, Gather(i))
    ensures Sound(cfg, Gathered(s, i))
  {
    var s' := Gathered(s, i);
    assert TaskSafe(s, s.tasks[i]);
    TaskOnlySound(cfg, s, s', i, s'.tasks[i]);
  }

  // ---- verdicts ---------------------------------------------------------------------

  /** The checkpoint of a panel about to conclude is not stopped: the completion race of `_on_accepted` cannot happen. */
  lemma ConcludingIsNotStopped(cfg: Config, s: State, i: nat)
    requires Sound(cfg, s) && Enabled(cfg, s, Conclude(i)) && !s.tasks[i].pc.interrupted
    ensures s.tasks[i].model !in s.stopped && s.tasks[i].model !in s.finalists && s.pool[s.tasks[i].pc.at].model == s.tasks[i].model
  {
    assert TaskSafe(s, s.tasks[i]);
  }

  lemma RejectSound(cfg: Config, s: State, i: nat, rec: Record)
    requires Sound(cfg, s) && i < |s.tasks| && s.tasks[i].pc.Recording? && s.tasks[i].pc.at < |s.pool|
    requires RecordOk(cfg, rec, s.tasks[i].pc.at) && rec.verdict.Some? && !rec.accepted
    requires rec.model == s.pool[s.tasks[i].pc.at].model && rec.proof == s.pool[s.tasks[i].pc.at].proof
    requires rec.round == s.pool[s.tasks[i].pc.at].round && !s.pool[s.tasks[i].pc.at].accepted
    ensures Sound(cfg, Settle(s, i, rec))
  {
    var s' := Settle(s, i, rec);
    assert forall p :: 0 <= p < |s.pool| && p != s.tasks[i].pc.at ==> RecordOk(cfg, s.pool[p], p);
    assert TaskSafe(s, s.tasks[i]);
    QuietSound(cfg, s, s', i);
  }

  /** The first acceptance of a checkpoint: it becomes the finalist, and every other live task of the checkpoint is flagged. */
  lemma AcceptFinalists(cfg: Config, s: State, s': State, at: nat)
    requires FinalistsOk(s) && at < |s.pool| == |s'.pool| && s.pool[at].model !in s.finalists
    requires s'.stopped == s.stopped + {s.pool[at].model} && s'.finalists == s.finalists[s.pool[at].model := at]
    requires s'.pool == s.pool[at := s'.pool[at]] && s'.pool[at].model == s.pool[at].model && s'.pool[at].accepted
    ensures FinalistsOk(s')
  {
  }

  lemma AcceptTasks(cfg: Config, s: State, s': State, i: nat, at: nat)
    requires Sound(cfg, s) && i < |s.tasks| && s.tasks[i].pc.Recording? && s.tasks[i].pc.at == at < |s.pool| == |s'.pool|
    requires s'.stopped == s.stopped + {s.pool[at].model} && s'.aborting == s.aborting
    requires s'.pool == s.pool[at := s'.pool[at]] && s'.pool[at].model == s.pool[at].model
    requires s'.tasks == FlagModel(s.tasks[i := s.tasks[i].(pc := Done)], s.pool[at].model, i)
    ensures SeparatePanels(s'.tasks)
    ensures forall j :: 0 <= j < |s'.tasks| ==> TaskSafe(s', s'.tasks[j])
  {
    forall j | 0 <= j < |s'.tasks| ensures TaskSafe(s', s'.tasks[j]) {
      assert TaskSafe(s, s.tasks[j]);
      if j != i && HasPanel(s.tasks[j].pc) {
        assert s.tasks[i].pc.at != s.tasks[j].pc.at;
      }
    }
    forall x, y | 0 <= x < y < |s'.tasks| && HasPanel(s'.tasks[x].pc) && HasPanel(s'.tasks[y].pc)
      ensures s'.tasks[x].pc.at != s'.tasks[y].pc.at
    {
      assert s'.tasks[x].pc == s.tasks[x].pc && s'.tasks[y].pc == s.tasks[y].pc;
    }
  }

  lemma AcceptSound(cfg: Config, s: State, i: nat, rec: Record)
    requires Sound(cfg, s) && i < |s.tasks| && s.tasks[i].pc.Recording? && s.tasks[i].pc.at < |s.pool|
    requires rec.verdict.Some? && rec.verdict.value.accepted && RecordOk(cfg, rec.(accepted := true), s.tasks[i].pc.at)
    requires rec.model == s.pool[s.tasks[i].pc.at].model && rec.model !in s.finalists
    ensures Sound(cfg, Settle(s, i, rec))
  {
    var s', at := Settle(s, i, rec), s.tasks[i].pc.at;
    assert s'.pool == s.pool[at := rec.(accepted := true)];
    AcceptFinalists(cfg, s, s', at);
    AcceptTasks(cfg, s, s', i, at);
    assert forall p :: 0 <= p < |s.pool| && p != at ==> RecordOk(cfg, s.pool[p], p);
  }

  lemma ConcludeSound(cfg: Config, s: State, i: nat)
    requires Sound(cfg, s) && Enabled(cfg, s, Conclude(i))
    ensures Sound(cfg, Conclusion(cfg, s, i))
  {
    var pc := s.tasks[i].pc;
    DoneSound(cfg, s, i);
    if !SomeSeat(pc.seats, Fatal) && !pc.interrupted {
      ConcludingIsNotStopped(cfg, s, i);
      assert RecordOk(cfg, s.pool[pc.at], pc.at) && TaskSafe(s, s.tasks[i]);
      Panels.JudgedMeaning(cfg, s.pool[pc.at], pc.seats);
      var rec := Judged(cfg, s.pool[pc.at], pc.seats);
      if rec.verdict.value.accepted {
        AcceptSound(cfg, s, i, rec);
      } else {
        RejectSound(cfg, s, i, rec);
      }
    }
  }

  // ---- rounds, aborts, runs ------------------------------------------------------------

  lemma RoundSound(cfg: Config, s: State, parents: seq<nat>)
    requires Sound(cfg, s) && ValidConfig(cfg)
    ensures Sound(cfg, BeginRound(cfg, s, parents))
  {
    var s' := BeginRound(cfg, s, parents);
    Launching.RefineTasksFacts(s.round + 1, 0, cfg.checkpoints, 0, parents);
    forall j | 0 <= j < |s'.tasks| ensures s'.tasks[j].pc == Idle && !s'.tasks[j].cancelled && OwnId(s'.tasks[j]) {
      assert s'.tasks[j] in s'.tasks && Launching.RefinementTask(s'.tasks[j], s.round + 1, cfg.checkpoints, parents);
    }
  }

  lemma AbortSound(cfg: Config, s: State)
    requires Sound(cfg, s)
    ensures Sound(cfg, Next(cfg, s, Abort))
  {
    var s' := Next(cfg, s, Abort);
    forall j | 0 <= j < |s'.tasks| ensures TaskSafe(s', s'.tasks[j]) {
      assert TaskSafe(s, s.tasks[j]);
    }
  }

  /** Every step keeps the invariant. */
  lemma StepSound(cfg: Config, s: State, ev: Event)
    requires ValidConfig(cfg) && Sound(cfg, s) && Enabled(cfg, s, ev)
    ensures Sound(cfg, Next(cfg, s, ev))
  {
    match ev
    case Start(i) => BeginSound(cfg, s, i);
    case Deliver(i, resp) => DeliverSound(cfg, s, i, resp);
    case Park(i) => DoneSound(cfg, s, i);
    case Fail(i) => DoneSound(cfg, s, i);
    case Drop(i) => DoneSound(cfg, s, i);
    case Write(i) => WriteSound(cfg, s, i);
    case LoseWrite(i) => DoneSound(cfg, s, i);
    case Resume(i) => DoneSound(cfg, s, i); AdmitSound(cfg, s, i, s.tasks[i].pc.resp);
    case SeatStart(i, a, b) => BeginSeatSound(cfg, s, i, a, b);
    case SeatDeliver(i, a, b, resp) => SettleSeatSound(cfg, s, i, a, b, Sent, Got(resp, true));
    case SeatPark(i, a, b) => SettleSeatSound(cfg, s, i, a, b, Sent, Parked);
    case SeatFail(i, a, b) => SettleSeatSound(cfg, s, i, a, b, Sent, Fatal);
    case SeatDrop(i, a, b) => SettleSeatSound(cfg, s, i, a, b, s.tasks[i].pc.seats[a][b], Dropped);
    case Gather(i) => GatherSound(cfg, s, i);
    case WriteVote(i, a, b) => WriteVoteSound(cfg, s, i, a, b);
    case Leave(i) => DoneSound(cfg, s, i);
    case Conclude(i) => ConcludeSound(cfg, s, i);
    case NextRound => RoundSound(cfg, s, Parents(cfg, s.pool));
    case Abort => AbortSound(cfg, s);
  }

  lemma InitSound(cfg: Config, disk: seq<Entry>)
    requires ValidConfig(cfg)
    ensures Sound(cfg, Init(cfg, disk))
  {
    var s := Init(cfg, disk);
    Launching.Round1TasksFacts(cfg.prompts, cfg.checkpoints, 0);
    forall j | 0 <= j < |s.tasks| ensures s.tasks[j].pc == Idle && !s.tasks[j].cancelled && OwnId(s.tasks[j]) {
      assert s.tasks[j] in s.tasks && Launching.GenerationTask(s.tasks[j], cfg.prompts, cfg.checkpoints);
    }
  }

  lemma {:induction false} RunSound(cfg: Config, s: State, run: seq<Event>)
    requires ValidConfig(cfg) && Sound(cfg, s) && Legal(cfg, s, run)
    ensures Sound(cfg, Exec(cfg, s, run))
    decreases run
  {
    if run != [] {
      StepSound(cfg, s, run[0]);
      RunSound(cfg, Next(cfg, s, run[0]), run[1..]);
    }
  }

  /**
   * Acceptance and stopping in every reachable state: the stopped checkpoints are those with a finalist; a finalist
   * is its own checkpoint's proof and has a complete panel of ones; and an accepted proof is its checkpoint's finalist.
   */
  lemma AcceptedMeansFinalist(cfg: Config, disk: seq<Entry>, run: seq<Event>)
    requires ValidConfig(cfg) && Legal(cfg, Init(cfg, disk), run)
    ensures var s := Exec(cfg, Init(cfg, disk), run);
      && s.stopped == s.finalists.Keys
      && (forall m :: m in s.finalists ==>
            && s.finalists[m] < |s.pool| && s.pool[s.finalists[m]].model == m && s.pool[s.finalists[m]].verdict.Some?
            && s.pool[s.finalists[m]].verdict.value.complete
            && |s.pool[s.finalists[m]].scores| == |cfg.verifiers| && Panels.AllOnes(s.pool[s.finalists[m]].scores, cfg.judgments))
      && (forall p :: 0 <= p < |s.pool| && s.pool[p].verdict.Some? && Panels.AllOnes(s.pool[p].scores, cfg.judgments) ==>
            s.pool[p].model in s.finalists && s.finalists[s.pool[p].model] == p)
      && (forall p :: 0 <= p < |s.pool| ==> s.pool[p].id == p + 1) && s.nextId == |s.pool| + 1
  {
    InitSound(cfg, disk);
    RunSound(cfg, Init(cfg, disk), run);
    var s := Exec(cfg, Init(cfg, disk), run);
    forall m | m in s.finalists
      ensures
        && s.finalists[m] < |s.pool| && s.pool[s.finalists[m]].verdict.Some? && s.pool[s.finalists[m]].verdict.value.complete
        && |s.pool[s.finalists[m]].scores| == |cfg.verifiers| && Panels.AllOnes(s.pool[s.finalists[m]].scores, cfg.judgments)
    {
      assert RecordOk(cfg, s.pool[s.finalists[m]], s.finalists[m]);
    }
    forall p | 0 <= p < |s.pool| && s.pool[p].verdict.Some? && Panels.AllOnes(s.pool[p].scores, cfg.judgments)
      ensures s.pool[p].accepted
    {
      assert RecordOk(cfg, s.pool[p], p);
    }
  }

  // ---- what can never be undone -----------------------------------------------------------

  /** Only origins and dependencies of a record grow; a verdict, once given, stays. */
  ghost predicate RecordGrows(r: Record, r': Record) {
    && r' == r.(deps := r'.deps, origins := r'.origins, scores := r'.scores, verdict := r'.verdict,
                critiques := r'.critiques, accepted := r'.accepted)
    && r.origins <= r'.origins && r.deps <= r'.deps
    && (r.verdict.Some? ==> r'.verdict == r.verdict && r'.scores == r.scores && r'.critiques == r.critiques && r'.accepted == r.accepted)
  }

  ghost predicate LiveProof(pool: seq<Record>, stopped: set<string>, proof: string) {
    exists p :: 0 <= p < |pool| && pool[p].proof == proof && pool[p].model !in stopped
  }

  /** A request made for a checkpoint outside `stopped`: its own sample, or a vote on a proof registered under it. */
  ghost predicate ForLive(pool: seq<Record>, stopped: set<string>, id: WorkId) {
    match id
    case Generate(_, model, _) => model !in stopped
    case Refine(_, _, model, _) => model !in stopped
    case Vote(_, proof, _, _) => LiveProof(pool, stopped, proof)
  }

  /**
   * `s'` comes after `s`: stops, finalists and verdicts are final, and since a checkpoint stopped no proof was
   * registered under it and no request was made for it.
   */
  ghost predicate After(s: State, s': State) {
    && s.stopped <= s'.stopped && (forall m :: m in s.finalists ==> m in s'.finalists && s'.finalists[m] == s.finalists[m])
    && |s.pool| <= |s'.pool| && (forall p :: 0 <= p < |s.pool| ==> RecordGrows(s.pool[p], s'.pool[p]))
    && (forall p :: |s.pool| <= p < |s'.pool| ==> s'.pool[p].model !in s.stopped)
    && s.issued <= s'.issued && (forall k :: |s.issued| <= k < |s'.issued| ==> ForLive(s'.pool, s.stopped, s'.issued[k]))
    && s.rows <= s'.rows && (s.aborting ==> s'.aborting)
  }

  lemma LiveKept(pool: seq<Record>, pool': seq<Record>, stopped: set<string>, stopped': set<string>, id: WorkId)
    requires |pool| <= |pool'| && forall p :: 0 <= p < |pool| ==> RecordGrows(pool[p], pool'[p])
    requires ForLive(pool, stopped', id) && stopped <= stopped'
    ensures ForLive(pool', stopped, id)
  {
    if id.Vote? {
      var p :| 0 <= p < |pool| && pool[p].proof == id.proof && pool[p].model !in stopped';
      assert pool'[p].proof == id.proof;
    }
  }

  lemma AfterTransitive(a: State, b: State, c: State)
    requires After(a, b) && After(b, c)
    ensures After(a, c)
  {
    forall p | 0 <= p < |a.pool| ensures RecordGrows(a.pool[p], c.pool[p]) {
      assert RecordGrows(a.pool[p], b.pool[p]) && RecordGrows(b.pool[p], c.pool[p]);
    }
    forall p | |a.pool| <= p < |c.pool| ensures c.pool[p].model !in a.stopped {
      if p < |b.pool| { assert RecordGrows(b.pool[p], c.pool[p]); }
    }
    forall k | |a.issued| <= k < |c.issued| ensures ForLive(c.pool, a.stopped, c.issued[k]) {
      if k < |b.issued| {
        assert c.issued[k] == b.issued[k];
        LiveKept(b.pool, c.pool, a.stopped, a.stopped, b.issued[k]);
      } else {
        LiveKept(c.pool, c.pool, a.stopped, b.stopped, c.issued[k]);
      }
    }
  }

  lemma {:induction false} MergeDepsExtends(have: seq<nat>, more: seq<nat>)
    ensures have <= MergeDeps(have, more)
    decreases more
  {
    if more != [] {
      MergeDepsExtends(if more[0] in have then have else have + [more[0]], more[1..]);
    }
  }

  /** The pool stands still; at most one request goes out, for a checkpoint that is not stopped. */
  lemma StillAfter(s: State, s': State)
    requires s'.pool == s.pool && s'.stopped == s.stopped && s'.finalists == s.finalists && (s.aborting ==> s'.aborting)
    requires s.rows <= s'.rows && s.issued <= s'.issued && |s'.issued| <= |s.issued| + 1
    requires |s'.issued| > |s.issued| ==> ForLive(s.pool, s.stopped, s'.issued[|s.issued|])
    ensures After(s, s')
  {
  }

  lemma MergeAfter(s: State, s': State, k: nat, t: Task)
    requires k < |s.pool| && s'.pool == s.pool[k := Merge(s.pool[k], t)]
    requires s'.stopped == s.stopped && s'.finalists == s.finalists && s'.rows == s.rows && s'.issued == s.issued && s'.aborting == s.aborting
    ensures After(s, s')
  {
    MergeDepsExtends(s.pool[k].deps, t.deps);
  }

  lemma RegisterAfter(s: State, s': State, rec: Record)
    requires s'.pool == s.pool + [rec] && rec.model !in s.stopped
    requires s'.stopped == s.stopped && s'.finalists == s.finalists && s'.rows == s.rows && s'.issued == s.issued && s'.aborting == s.aborting
    ensures After(s, s')
  {
  }

  lemma AdmitAfter(cfg: Config, s: State, i: nat, resp: Response)
    requires i < |s.tasks|
    ensures After(s, Admit(cfg, s, i, resp))
  {
    var t, p := s.tasks[i], cfg.parseProof(resp);
    if t.model in s.stopped || !p.valid {
      StillAfter(s, Admit(cfg, s, i, resp));
    } else {
      match Find(s.pool, p.proof)
      case Some(k) => MergeAfter(s, Admit(cfg, s, i, resp), k, t);
      case None => RegisterAfter(s, Admit(cfg, s, i, resp), NewRecord(p, t, s.nextId));
    }
  }

  /** Only a record without a verdict changes, and a checkpoint without a finalist gains one. */
  lemma SettleAfter(s: State, i: nat, rec: Record)
    requires i < |s.tasks| && s.tasks[i].pc.Recording? && s.tasks[i].pc.at < |s.pool| && rec.verdict.Some?
    requires s.pool[s.tasks[i].pc.at].verdict.None?
    requires rec == s.pool[s.tasks[i].pc.at].(scores := rec.scores, verdict := rec.verdict, critiques := rec.critiques)
    ensures After(s, Settle(s, i, rec))
  {
    var s', at := Settle(s, i, rec), s.tasks[i].pc.at;
    assert s'.pool == s.pool[at := s'.pool[at]];
    assert RecordGrows(s.pool[at], s'.pool[at]);
  }

  lemma ConcludeAfter(cfg: Config, s: State, i: nat)
    requires Sound(cfg, s) && Enabled(cfg, s, Conclude(i))
    ensures After(s, Conclusion(cfg, s, i))
  {
    var pc := s.tasks[i].pc;
    assert TaskSafe(s, s.tasks[i]);
    if SomeSeat(pc.seats, Fatal) || pc.interrupted {
      StillAfter(s, Conclusion(cfg, s, i));
    } else {
      SettleAfter(s, i, Judged(cfg, s.pool[pc.at], pc.seats));
    }
  }

  lemma BeginAfter(cfg: Config, s: State, i: nat)
    requires Sound(cfg, s) && Enabled(cfg, s, Start(i))
    ensures After(s, Begin(cfg, s, i))
  {
    var t := s.tasks[i];
    assert TaskSafe(s, t);
    if !t.cancelled && t.model !in s.stopped && t.id in s.ledger {
      AdmitAfter(cfg, s, i, s.ledger[t.id]);
    } else {
      StillAfter(s, Begin(cfg, s, i));
    }
  }

  lemma BeginSeatAfter(cfg: Config, s: State, i: nat, a: nat, b: nat)
    requires Sound(cfg, s) && Enabled(cfg, s, SeatStart(i, a, b))
    ensures After(s, BeginSeat(cfg, s, i, a, b))
  {
    assert TaskSafe(s, s.tasks[i]);
    assert LiveProof(s.pool, s.stopped, s.pool[s.tasks[i].pc.at].proof);
    StillAfter(s, BeginSeat(cfg, s, i, a, b));
  }

  lemma SettleSeatAfter(cfg: Config, s: State, i: nat, a: nat, b: nat, was: Seat, seat: Seat)
    requires SeatAt(cfg, s, i, a, b, was)
    ensures After(s, SettleSeat(s, i, a, b, seat))
  {
    StillAfter(s, SettleSeat(s, i, a, b, seat));
  }

  lemma DoneAfter(s: State, i: nat)
    requires i < |s.tasks|
    ensures After(s, SetPc(s, i, Done)) && After(s, SetPc(s, i, Done).(failed := true))
  {
    StillAfter(s, SetPc(s, i, Done));
    StillAfter(s, SetPc(s, i, Done).(failed := true));
  }

  /** Steps that only save or flag. */
  lemma SaveAfter(cfg: Config, s: State, ev: Event)
    requires Enabled(cfg, s, ev) && (ev.Deliver? || ev.Write? || ev.WriteVote? || ev.Abort?)
    ensures After(s, Next(cfg, s, ev))
  {
    StillAfter(s, Next(cfg, s, ev));
  }

  lemma ResumeAfter(cfg: Config, s: State, i: nat)
    requires Enabled(cfg, s, Resume(i))
    ensures After(s, Next(cfg, s, Resume(i)))
  {
    AdmitAfter(cfg, s, i, s.tasks[i].pc.resp);
    DoneAfter(s, i);
  }

  lemma RoundAfter(cfg: Config, s: State, parents: seq<nat>)
    ensures After(s, BeginRound(cfg, s, parents))
  {
    StillAfter(s, BeginRound(cfg, s, parents));
  }

  lemma GatherAfter(s: State, i: nat)
    requires i < |s.tasks| && s.tasks[i].pc.Voting?
    ensures After(s, Gathered(s, i))
  {
    StillAfter(s, Gathered(s, i));
  }

  lemma SeatStepAfter(cfg: Config, s: State, ev: Event)
    requires Sound(cfg, s) && Enabled(cfg, s, ev)
    requires ev.SeatStart? || ev.SeatDeliver? || ev.SeatPark? || ev.SeatFail? || ev.SeatDrop?
    ensures After(s, Next(cfg, s, ev))
  {
    match ev
    case SeatStart(i, a, b) => BeginSeatAfter(cfg, s, i, a, b);
    case SeatDeliver(i, a, b, resp) => SettleSeatAfter(cfg, s, i, a, b, Sent, Got(resp, true));
    case SeatPark(i, a, b) => SettleSeatAfter(cfg, s, i, a, b, Sent, Parked);
    case SeatFail(i, a, b) => SettleSeatAfter(cfg, s, i, a, b, Sent, Fatal);
    case SeatDrop(i, a, b) => SettleSeatAfter(cfg, s, i, a, b, s.tasks[i].pc.seats[a][b], Dropped);
  }

  lemma StepAfter(cfg: Config, s: State, ev: Event)
    requires Sound(cfg, s) && Enabled(cfg, s, ev)
    ensures After(s, Next(cfg, s, ev))
  {
    match ev
    case Start(i) => BeginAfter(cfg, s, i);
    case Park(i) => DoneAfter(s, i);
    case Fail(i) => DoneAfter(s, i);
    case Drop(i) => DoneAfter(s, i);
    case LoseWrite(i) => DoneAfter(s, i);
    case Resume(i) => ResumeAfter(cfg, s, i);
    case Gather(i) => GatherAfter(s, i);
    case Leave(i) => DoneAfter(s, i);
    case Conclude(i) => ConcludeAfter(cfg, s, i);
    case NextRound => RoundAfter(cfg, s, Parents(cfg, s.pool));
    case Deliver(_, _) => SaveAfter(cfg, s, ev);
    case Write(_) => SaveAfter(cfg, s, ev);
    case WriteVote(_, _, _) => SaveAfter(cfg, s, ev);
    case Abort => SaveAfter(cfg, s, ev);
    case _ => SeatStepAfter(cfg, s, ev);
  }

  /** Between any two moments of a run. */
  lemma {:induction false} NothingIsUndone(cfg: Config, s: State, run: seq<Event>)
    requires ValidConfig(cfg) && Sound(cfg, s) && Legal(cfg, s, run)
    ensures After(s, Exec(cfg, s, run))
    decreases run
  {
    if run != [] {
      StepSound(cfg, s, run[0]);
      StepAfter(cfg, s, run[0]);
      NothingIsUndone(cfg, Next(cfg, s, run[0]), run[1..]);
      AfterTransitive(s, Next(cfg, s, run[0]), Exec(cfg, s, run));
    }
  }

  /** So in any launch: whatever ran before, once a checkpoint has stopped nothing is registered or requested for it. */
  lemma StoppedCheckpointsDoNoWork(cfg: Config, disk: seq<Entry>, before: seq<Event>, later: seq<Event>)
    requires ValidConfig(cfg) && Legal(cfg, Init(cfg, disk), before) && Legal(cfg, Exec(cfg, Init(cfg, disk), before), later)
    ensures var s := Exec(cfg, Init(cfg, disk), before); After(s, Exec(cfg, s, later))
  {
    InitSound(cfg, disk);
    RunSound(cfg, Init(cfg, disk), before);
    NothingIsUndone(cfg, Exec(cfg, Init(cfg, disk), before), later);
  }
}
