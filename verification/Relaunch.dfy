/**
 * An acceptance of round 1 survives crashes and relaunches: once the rows of a winning proof and its full panel
 * of ones are on disk, every launch that is left to finish ends round 1 with a finalist.
 */
module Relaunch {
  import opened Options
  import opened Search
  import opened Durability
  import Panels
  import Safety
  import Launching
  import Outcome
  import Provenance
  import opened Steps

  // ---- a promise on disk ------------------------------------------------------------

  /** Scanned rows hold a valid round-1 sample with this proof, and a round-1 vote of 1 on it for every seat of the panel. */
  ghost predicate Wins(cfg: Config, found: map<WorkId, Response>, g: WorkId, proof: string) {
    && g in Provenance.Round1Ids(cfg) && g in found
    && cfg.parseProof(found[g]).valid && cfg.parseProof(found[g]).proof == proof
    && forall a: nat, b: nat :: InPanel(cfg, a, b) ==> VotedOne(cfg, found, Vote(1, proof, cfg.verifiers[a], b))
  }

  ghost predicate VotedOne(cfg: Config, found: map<WorkId, Response>, id: WorkId) {
    id in found && cfg.parseVote(found[id]).Some? && cfg.parseVote(found[id]).value == 1.0
  }

  /** No seat of the panel can spoil it: each is still to be replayed, or holds a vote of 1. */
  ghost predicate Promising(cfg: Config, seats: seq<seq<Seat>>) {
    && Shaped(cfg, seats)
    && forall a: nat, b: nat :: InPanel(cfg, a, b) ==> seats[a][b] == Unsent || Panels.Votes(cfg, seats[a][b], 1.0)
  }

  /** Task `j` runs the panel of the proof, and the panel is promising. */
  ghost predicate Owns(cfg: Config, s: State, j: nat, proof: string) {
    && j < |s.tasks| && HasPanel(s.tasks[j].pc) && s.tasks[j].pc.at < |s.pool|
    && s.pool[s.tasks[j].pc.at].proof == proof && s.pool[s.tasks[j].pc.at].round == 1
    && Promising(cfg, s.tasks[j].pc.seats)
    && (s.tasks[j].pc.Recording? ==> !s.tasks[j].pc.interrupted && AllSettled(s.tasks[j].pc.seats))
  }

  ghost predicate Sleeps(s: State, j: nat, g: WorkId) {
    j < |s.tasks| && s.tasks[j].id == g && s.tasks[j].pc == Idle
  }

  /** Round 1 has a finalist, or the winning sample has yet to start, or some task runs the winning panel. */
  ghost predicate Pending(cfg: Config, s: State, g: WorkId, proof: string) {
    && s.round == 1
    && (s.finalists != map[] || (exists j: nat :: Owns(cfg, s, j, proof)) || (!Named(s.pool, proof) && exists j: nat :: Sleeps(s, j, g)))
  }

  // ---- steps keep the promise -------------------------------------------------------------

  /** Without an abort and without a finalist nobody is cancelled. */
  lemma NobodyCancelled(cfg: Config, s: State, i: nat)
    requires Safety.Sound(cfg, s) && s.finalists == map[] && !s.aborting && i < |s.tasks| && s.tasks[i].pc != Done
    ensures !s.tasks[i].cancelled && s.tasks[i].model !in s.stopped
  {
    assert Safety.TaskSafe(s, s.tasks[i]);
  }

  /** Another task's step leaves the winning panel where it is. */
  lemma OwnerWaits(cfg: Config, s: State, s': State, i: nat, j: nat, proof: string)
    requires Owns(cfg, s, j, proof) && Moved(s, s', i) && i != j
    ensures Owns(cfg, s', j, proof)
  {
  }

  /** The owner replays a vote, gathers, writes, concludes: its panel stays promising until it brings a finalist. */
  lemma OwnerReplays(cfg: Config, s: State, j: nat, a: nat, b: nat, g: WorkId, proof: string)
    requires Owns(cfg, s, j, proof) && Enabled(cfg, s, SeatStart(j, a, b)) && Wins(cfg, s.ledger, g, proof)
    ensures Owns(cfg, BeginSeat(cfg, s, j, a, b), j, proof)
  {
    assert VotedOne(cfg, s.ledger, VoteId(cfg, s.pool[s.tasks[j].pc.at], a, b));
  }

  lemma OwnerGathers(cfg: Config, s: State, j: nat, proof: string)
    requires Owns(cfg, s, j, proof) && Enabled(cfg, s, Gather(j)) && !s.tasks[j].cancelled
    ensures Owns(cfg, Gathered(s, j), j, proof)
  {
    var seats := s.tasks[j].pc.seats;
    forall a, b | 0 <= a < |seats| && 0 <= b < |seats[a]| ensures seats[a][b] != Dropped {
      assert InPanel(cfg, a, b) && (seats[a][b] == Unsent || Panels.Votes(cfg, seats[a][b], 1.0));
    }
    assert !SomeSeat(seats, Dropped);
  }

  lemma OwnerWrites(cfg: Config, s: State, j: nat, a: nat, b: nat, proof: string)
    requires Owns(cfg, s, j, proof) && Enabled(cfg, s, WriteVote(j, a, b))
    ensures Owns(cfg, Next(cfg, s, WriteVote(j, a, b)), j, proof)
  {
    var s' := Next(cfg, s, WriteVote(j, a, b));
    var seats: seq<seq<Seat>> := s.tasks[j].pc.seats;
    assert Got(seats[a][b].resp, true) == seats[a][b];
    forall x: nat, y: nat | InPanel(cfg, x, y)
      ensures s'.tasks[j].pc.seats[x][y] == Unsent || Panels.Votes(cfg, s'.tasks[j].pc.seats[x][y], 1.0)
    {
      assert seats[x][y] == Unsent || Panels.Votes(cfg, seats[x][y], 1.0);
    }
  }

  /** Every seat settled: the panel is full of ones, and concluding it makes a finalist. */
  lemma OwnerWins(cfg: Config, s: State, j: nat, proof: string)
    requires Safety.Sound(cfg, s) && Owns(cfg, s, j, proof) && Enabled(cfg, s, Conclude(j))
    ensures Conclusion(cfg, s, j).finalists != map[]
  {
    var pc := s.tasks[j].pc;
    var rec := Judged(cfg, s.pool[pc.at], pc.seats);
    forall a, b | 0 <= a < |pc.seats| && 0 <= b < |pc.seats[a]|
      ensures pc.seats[a][b] != Fatal && Panels.Votes(cfg, pc.seats[a][b], 1.0)
    {
      assert InPanel(cfg, a, b) && Settled(pc.seats[a][b]);
    }
    Panels.JudgedMeaning(cfg, s.pool[pc.at], pc.seats);
    Safety.ConcludingIsNotStopped(cfg, s, j);
    assert rec.model in Settle(s, j, rec).finalists;
  }

  /** The steps of the owner itself. */
  lemma OwnerStep(cfg: Config, s: State, ev: Event, j: nat, g: WorkId, proof: string)
    requires Safety.Sound(cfg, s) && Wins(cfg, s.ledger, g, proof) && s.finalists == map[] && !s.aborting
    requires Owns(cfg, s, j, proof) && Enabled(cfg, s, ev) && !ev.NextRound? && !ev.Abort? && ev.i == j
    ensures Next(cfg, s, ev).finalists != map[] || Owns(cfg, Next(cfg, s, ev), j, proof)
  {
    NobodyCancelled(cfg, s, j);
    match ev
    case SeatStart(_, a, b) => OwnerReplays(cfg, s, j, a, b, g, proof);
    case Gather(_) => OwnerGathers(cfg, s, j, proof);
    case WriteVote(_, a, b) => OwnerWrites(cfg, s, j, a, b, proof);
    case Conclude(_) => OwnerWins(cfg, s, j, proof);
    case _ =>
  }

  /** The winning sample starts: its proof is registered, and its panel opened, unless another sample did so before. */
  lemma WinnerStarts(cfg: Config, s: State, j: nat, g: WorkId, proof: string)
    requires Safety.Sound(cfg, s) && Provenance.Backed(cfg, s) && Wins(cfg, s.ledger, g, proof)
    requires s.finalists == map[] && !s.aborting && s.round == 1 && Sleeps(s, j, g) && !Named(s.pool, proof)
    ensures Owns(cfg, Begin(cfg, s, j), j, proof)
  {
    NobodyCancelled(cfg, s, j);
    assert Provenance.TaskOnDisk(cfg, s, s.tasks[j]);
    var s' := Begin(cfg, s, j);
    assert s' == Admit(cfg, s, j, s.ledger[g]);
    assert Find(s.pool, proof).None?;
    assert s'.pool == s.pool + [NewRecord(cfg.parseProof(s.ledger[g]), s.tasks[j], s.nextId)];
  }

  /** Any other step while the winning sample sleeps: it sleeps on, or somebody opened the panel of its proof. */
  lemma WinnerSleeps(cfg: Config, s: State, s': State, i: nat, j: nat, g: WorkId, proof: string)
    requires Provenance.Backed(cfg, s) && s.round == 1 && Step(cfg, s, s', i) && i != j && Sleeps(s, j, g) && !Named(s.pool, proof)
    ensures (Sleeps(s', j, g) && !Named(s'.pool, proof)) || Owns(cfg, s', i, proof)
  {
    assert Provenance.TaskOnDisk(cfg, s, s.tasks[i]);
    if Named(s'.pool, proof) {
      var p :| 0 <= p < |s'.pool| && s'.pool[p].proof == proof;
      assert p == |s.pool|;
    }
  }

  lemma QuietStep(cfg: Config, s: State, ev: Event, g: WorkId, proof: string)
    requires Safety.Sound(cfg, s) && Provenance.Backed(cfg, s) && Wins(cfg, s.ledger, g, proof)
    requires Pending(cfg, s, g, proof) && s.finalists == map[] && !s.aborting
    requires Enabled(cfg, s, ev) && !ev.NextRound? && !ev.Abort?
    ensures Pending(cfg, Next(cfg, s, ev), g, proof)
  {
    var s', i := Next(cfg, s, ev), ev.i;
    TaskStep(cfg, s, ev);
    if j: nat :| Owns(cfg, s, j, proof) {
      if i == j { OwnerStep(cfg, s, ev, j, g, proof); } else { OwnerWaits(cfg, s, s', i, j, proof); }
    } else {
      var j: nat :| Sleeps(s, j, g);
      if i == j { WinnerStarts(cfg, s, j, g, proof); } else { WinnerSleeps(cfg, s, s', i, j, g, proof); }
    }
  }

  /** While the promise is pending without a finalist, some task is not done, so no next round begins. */
  lemma StepPending(cfg: Config, s: State, ev: Event, g: WorkId, proof: string)
    requires Safety.Sound(cfg, s) && Provenance.Backed(cfg, s) && Wins(cfg, s.ledger, g, proof) && Pending(cfg, s, g, proof)
    requires Enabled(cfg, s, ev) && !Next(cfg, s, ev).aborting && !s.aborting
    ensures Pending(cfg, Next(cfg, s, ev), g, proof)
  {
    if s.finalists != map[] {
      Outcome.FinalistsStay(cfg, s, ev);
    } else if ev.NextRound? {
      PendingIsBusy(cfg, s, g, proof);
    } else {
      QuietStep(cfg, s, ev, g, proof);
    }
  }

  lemma PendingIsBusy(cfg: Config, s: State, g: WorkId, proof: string)
    requires Pending(cfg, s, g, proof) && s.finalists == map[]
    ensures !AllDone(s)
  {
    if j: nat :| Owns(cfg, s, j, proof) {
      assert s.tasks[j].pc != Done;
    } else {
      var j: nat :| Sleeps(s, j, g);
      assert s.tasks[j].pc != Done;
    }
  }

  // ---- whole launches -----------------------------------------------------------------------------

  lemma {:induction false} RunPending(cfg: Config, base: seq<Entry>, s: State, run: seq<Event>, g: WorkId, proof: string)
    requires ValidConfig(cfg) && Durable(cfg, base, s) && Safety.Sound(cfg, s) && Provenance.Backed(cfg, s)
    requires Wins(cfg, s.ledger, g, proof) && Pending(cfg, s, g, proof) && Legal(cfg, s, run) && !Exec(cfg, s, run).aborting
    ensures Pending(cfg, Exec(cfg, s, run), g, proof)
    decreases run
  {
    if run != [] {
      var s' := Next(cfg, s, run[0]);
      StepDurable(cfg, base, s, run[0]);
      Safety.StepSound(cfg, s, run[0]);
      Safety.NothingIsUndone(cfg, s, run);
      Safety.NothingIsUndone(cfg, s', run[1..]);
      Provenance.StepBacked(cfg, s, run[0]);
      StepPending(cfg, s, run[0], g, proof);
      RunPending(cfg, base, s', run[1..], g, proof);
    }
  }

  lemma InitPending(cfg: Config, disk: seq<Entry>, g: WorkId, proof: string)
    requires ValidConfig(cfg) && Wins(cfg, Scan(disk), g, proof)
    ensures Pending(cfg, Init(cfg, disk), g, proof)
  {
    var s := Init(cfg, disk);
    Launching.Round1TasksFacts(cfg.prompts, cfg.checkpoints, 0);
    var t :| t in s.tasks && t.id == g;
    var j: nat :| j < |s.tasks| && s.tasks[j] == t;
    assert Launching.GenerationTask(t, cfg.prompts, cfg.checkpoints);
    assert Sleeps(s, j, g);
  }

  /**
   * The disk holds a valid round-1 sample and a full round-1 panel of ones for its proof. Then every launch that is
   * not aborted and has no task left to run is still in round 1 and has a finalist: whatever the schedule, whichever
   * checkpoint registered the proof, and whatever other requests were answered, parked or refused.
   */
  lemma WinningRowsWin(cfg: Config, disk: seq<Entry>, run: seq<Event>, g: WorkId, proof: string)
    requires ValidConfig(cfg) && Wins(cfg, Scan(disk), g, proof) && Legal(cfg, Init(cfg, disk), run)
    requires var s := Exec(cfg, Init(cfg, disk), run); AllDone(s) && !s.aborting
    ensures var s := Exec(cfg, Init(cfg, disk), run); s.finalists != map[] && s.round == 1
  {
    InitDurable(cfg, disk);
    Safety.InitSound(cfg, disk);
    Provenance.InitBacked(cfg, disk);
    InitPending(cfg, disk, g, proof);
    RunPending(cfg, disk, Init(cfg, disk), run, g, proof);
    var s := Exec(cfg, Init(cfg, disk), run);
    if s.finalists == map[] { PendingIsBusy(cfg, s, g, proof); }
  }

  // ---- end to end -----------------------------------------------------------------------------------

  /** A launch that reached an acceptance in round 1, at any moment after it, has the winning rows on disk. */
  lemma AcceptanceIsOnDisk(cfg: Config, disk: seq<Entry>, run: seq<Event>)
    requires ValidConfig(cfg) && Legal(cfg, Init(cfg, disk), run)
    requires var s := Exec(cfg, Init(cfg, disk), run); s.finalists != map[] && s.round == 1
    ensures var s := Exec(cfg, Init(cfg, disk), run);
      exists g, proof :: Wins(cfg, Scan(disk + s.rows), g, proof)
  {
    var s := Exec(cfg, Init(cfg, disk), run);
    InitDurable(cfg, disk);
    RunDurable(cfg, disk, Init(cfg, disk), run);
    Safety.AcceptedMeansFinalist(cfg, disk, run);
    Provenance.InitBacked(cfg, disk);
    Provenance.RunBacked(cfg, Init(cfg, disk), run);
    var m :| m in s.finalists;
    var rec := s.pool[s.finalists[m]];
    assert Provenance.RecordOnDisk(cfg, s, rec);
    WinnerFound(cfg, disk, s, rec);
  }

  lemma WinnerFound(cfg: Config, disk: seq<Entry>, s: State, rec: Record)
    requires Durable(cfg, disk, s) && Provenance.RecordOnDisk(cfg, s, rec) && IsEvidence(rec) && rec.round == 1
    requires |rec.scores| == |cfg.verifiers| && Panels.AllOnes(rec.scores, cfg.judgments)
    ensures Wins(cfg, Scan(disk + s.rows), rec.origins[0].id, rec.proof)
  {
    Provenance.RecordFound(cfg, disk, s, rec);
    forall a: nat, b: nat | InPanel(cfg, a, b)
      ensures VotedOne(cfg, Scan(disk + s.rows), Vote(1, rec.proof, cfg.verifiers[a], b))
    {
      assert VoteId(cfg, rec, a, b) == Vote(1, rec.proof, cfg.verifiers[a], b);
    }
  }

  /**
   * Acceptance survives: a launch that accepted a proof in round 1 may die at any later moment, and any launches may
   * follow and die too; the next launch that is left to finish ends in round 1 with a finalist.
   */
  lemma AcceptanceSurvives(cfg: Config, disk: seq<Entry>, first: seq<Event>, between: seq<seq<Event>>, last: seq<Event>)
    requires ValidConfig(cfg) && Legal(cfg, Init(cfg, disk), first)
    requires var s := Exec(cfg, Init(cfg, disk), first); s.finalists != map[] && s.round == 1
    requires LegalHistory(cfg, disk + Exec(cfg, Init(cfg, disk), first).rows, between)
    requires var d := DiskAfter(cfg, disk + Exec(cfg, Init(cfg, disk), first).rows, between);
      Legal(cfg, Init(cfg, d), last) && AllDone(Exec(cfg, Init(cfg, d), last)) && !Exec(cfg, Init(cfg, d), last).aborting
    ensures var d := DiskAfter(cfg, disk + Exec(cfg, Init(cfg, disk), first).rows, between);
      var s := Exec(cfg, Init(cfg, d), last); s.finalists != map[] && s.round == 1
  {
    var d1 := disk + Exec(cfg, Init(cfg, disk), first).rows;
    var d := DiskAfter(cfg, d1, between);
    AcceptanceIsOnDisk(cfg, disk, first);
    var g, proof :| Wins(cfg, Scan(d1), g, proof);
    WinsKept(cfg, d1, between, g, proof);
    WinningRowsWin(cfg, d, last, g, proof);
  }

  /** Later launches never take a winning row's answer away. */
  lemma WinsKept(cfg: Config, disk: seq<Entry>, launches: seq<seq<Event>>, g: WorkId, proof: string)
    requires ValidConfig(cfg) && LegalHistory(cfg, disk, launches) && Wins(cfg, Scan(disk), g, proof)
    ensures Wins(cfg, Scan(DiskAfter(cfg, disk, launches)), g, proof)
  {
    ScanKeys(disk);
    AnswersNeverChange(cfg, disk, launches, g);
    forall a: nat, b: nat | InPanel(cfg, a, b)
      ensures VotedOne(cfg, Scan(DiskAfter(cfg, disk, launches)), Vote(1, proof, cfg.verifiers[a], b))
    {
      assert VotedOne(cfg, Scan(disk), Vote(1, proof, cfg.verifiers[a], b));
      AnswersNeverChange(cfg, disk, launches, Vote(1, proof, cfg.verifiers[a], b));
    }
  }
}
