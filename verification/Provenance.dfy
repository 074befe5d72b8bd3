/** Everything the search concluded can be read back from disk: proofs from sample rows, verdicts from vote rows. */
module Provenance {
  import opened Options
  import opened Search
  import opened Durability
  import Panels
  import Launching

  // ---- the invariant ------------------------------------------------------------

  /** The answer of this identity is on disk: found at launch, or written since. */
  ghost predicate OnDisk(s: State, id: WorkId, resp: Response) {
    (id in s.ledger && s.ledger[id] == resp) || Entry(id, resp) in s.rows
  }

  /** The identities of round 1. */
  ghost function Round1Ids(cfg: Config): set<WorkId> {
    set t | t in Round1Tasks(cfg.prompts, cfg.checkpoints, 0) :: t.id
  }

  /** The row of the record's first origin gives its proof and self-evaluation. */
  ghost predicate ProofOnDisk(cfg: Config, s: State, rec: Record) {
    && rec.origins != [] && (rec.round == 1 ==> rec.origins[0].id in Round1Ids(cfg))
    && exists resp :: OnDisk(s, rec.origins[0].id, resp) && cfg.parseProof(resp) == Parsed(rec.proof, rec.selfEval, true)
  }

  ghost predicate VoteOnDisk(cfg: Config, s: State, id: WorkId, score: Option<real>) {
    exists resp :: OnDisk(s, id, resp) && cfg.parseVote(resp) == score
  }

  /** The rows of its panel give the scores of a complete verdict. */
  ghost predicate VerdictOnDisk(cfg: Config, s: State, rec: Record) {
    rec.verdict.Some? && rec.verdict.value.complete ==>
      forall a: nat, b: nat :: InPanel(cfg, a, b) ==>
        a < |rec.scores| && b < |rec.scores[a]| && VoteOnDisk(cfg, s, VoteId(cfg, rec, a, b), rec.scores[a][b])
  }

  ghost predicate SeatsOnDisk(cfg: Config, s: State, rec: Record, seats: seq<seq<Seat>>) {
    && Shaped(cfg, seats)
    && forall a: nat, b: nat :: InPanel(cfg, a, b) && seats[a][b].Got? && !seats[a][b].unsaved ==>
         OnDisk(s, VoteId(cfg, rec, a, b), seats[a][b].resp)
  }

  ghost predicate TaskOnDisk(cfg: Config, s: State, t: Task) {
    && t.round == s.round && (t.round == 1 ==> t.id in Round1Ids(cfg))
    && (t.pc.Saved? ==> OnDisk(s, t.id, t.pc.resp))
    && (HasPanel(t.pc) ==> t.pc.at < |s.pool| && SeatsOnDisk(cfg, s, s.pool[t.pc.at], t.pc.seats))
  }

  ghost predicate RecordOnDisk(cfg: Config, s: State, rec: Record) {
    1 <= rec.round <= s.round && ProofOnDisk(cfg, s, rec) && VerdictOnDisk(cfg, s, rec)
  }

  ghost predicate Backed(cfg: Config, s: State) {
    && s.round >= 1
    && (forall p :: 0 <= p < |s.pool| ==> RecordOnDisk(cfg, s, s.pool[p]))
    && (forall j :: 0 <= j < |s.tasks| ==> TaskOnDisk(cfg, s, s.tasks[j]))
  }

  // ---- rows are only added ----------------------------------------------------------

  ghost predicate DiskGrows(s: State, s': State) {
    s'.ledger == s.ledger && s.rows <= s'.rows && s.round <= s'.round
  }

  lemma OnDiskKept(s: State, s': State, id: WorkId, resp: Response)
    requires DiskGrows(s, s') && OnDisk(s, id, resp)
    ensures OnDisk(s', id, resp)
  {
  }

  lemma ProofKept(cfg: Config, s: State, s': State, rec: Record, rec': Record)
    requires DiskGrows(s, s') && ProofOnDisk(cfg, s, rec)
    requires rec'.proof == rec.proof && rec'.selfEval == rec.selfEval && rec'.round == rec.round && rec.origins <= rec'.origins
    ensures ProofOnDisk(cfg, s', rec')
  {
    var resp :| OnDisk(s, rec.origins[0].id, resp) && cfg.parseProof(resp) == Parsed(rec.proof, rec.selfEval, true);
    OnDiskKept(s, s', rec.origins[0].id, resp);
  }

  lemma VoteKept(cfg: Config, s: State, s': State, id: WorkId, score: Option<real>)
    requires DiskGrows(s, s') && VoteOnDisk(cfg, s, id, score)
    ensures VoteOnDisk(cfg, s', id, score)
  {
    var resp :| OnDisk(s, id, resp) && cfg.parseVote(resp) == score;
    OnDiskKept(s, s', id, resp);
  }

  lemma RecordKept(cfg: Config, s: State, s': State, rec: Record, rec': Record)
    requires DiskGrows(s, s') && RecordOnDisk(cfg, s, rec)
    requires rec' == rec.(origins := rec'.origins, deps := rec'.deps, accepted := rec'.accepted) && rec.origins <= rec'.origins
    ensures RecordOnDisk(cfg, s', rec')
  {
    ProofKept(cfg, s, s', rec, rec');
    if rec.verdict.Some? && rec.verdict.value.complete {
      forall a: nat, b: nat | InPanel(cfg, a, b)
        ensures a < |rec.scores| && b < |rec.scores[a]| && VoteOnDisk(cfg, s', VoteId(cfg, rec', a, b), rec.scores[a][b])
      {
        VoteKept(cfg, s, s', VoteId(cfg, rec, a, b), rec.scores[a][b]);
      }
    }
  }

  lemma SeatsKept(cfg: Config, s: State, s': State, rec: Record, rec': Record, seats: seq<seq<Seat>>)
    requires DiskGrows(s, s') && SeatsOnDisk(cfg, s, rec, seats) && rec'.proof == rec.proof && rec'.round == rec.round
    ensures SeatsOnDisk(cfg, s', rec', seats)
  {
    forall a: nat, b: nat | InPanel(cfg, a, b) && seats[a][b].Got? && !seats[a][b].unsaved
      ensures OnDisk(s', VoteId(cfg, rec', a, b), seats[a][b].resp)
    {
      assert VoteId(cfg, rec', a, b) == VoteId(cfg, rec, a, b);
      OnDiskKept(s, s', VoteId(cfg, rec, a, b), seats[a][b].resp);
    }
  }

  // ---- one task moves ------------------------------------------------------------------

  ghost predicate SameJob(t: Task, t': Task) {
    t'.id == t.id && t'.round == t.round
  }

  lemma OtherTask(cfg: Config, s: State, s': State, t: Task, t': Task)
    requires DiskGrows(s, s') && TaskOnDisk(cfg, s, t) && SameJob(t, t') && t'.pc == t.pc && s'.round == s.round && Extends(s.pool, s'.pool)
    ensures TaskOnDisk(cfg, s', t')
  {
    if t.pc.Saved? { OnDiskKept(s, s', t.id, t.pc.resp); }
    if HasPanel(t.pc) { SeatsKept(cfg, s, s', s.pool[t.pc.at], s'.pool[t.pc.at], t.pc.seats); }
  }

  /** The task moved, the pool stands still. */
  lemma MoveBacked(cfg: Config, s: State, s': State, i: nat, t: Task)
    requires Backed(cfg, s) && i < |s.tasks| && DiskGrows(s, s') && SameJob(s.tasks[i], t) && TaskOnDisk(cfg, s', t)
    requires s' == s.(tasks := s.tasks[i := t], rows := s'.rows, issued := s'.issued, failed := s'.failed)
    ensures Backed(cfg, s')
  {
    forall p | 0 <= p < |s.pool| ensures RecordOnDisk(cfg, s', s'.pool[p]) {
      RecordKept(cfg, s, s', s.pool[p], s.pool[p]);
    }
    forall j | 0 <= j < |s.tasks| ensures TaskOnDisk(cfg, s', s'.tasks[j]) {
      if j != i { OtherTask(cfg, s, s', s.tasks[j], s'.tasks[j]); }
    }
  }

  /** The pool changed: the records named by the caller are on disk, the tasks keep their places. */
  lemma PoolBacked(cfg: Config, s: State, s': State, i: nat)
    requires Backed(cfg, s) && i < |s.tasks| == |s'.tasks| && DiskGrows(s, s') && s'.round == s.round && Extends(s.pool, s'.pool)
    requires forall p :: 0 <= p < |s'.pool| ==> RecordOnDisk(cfg, s', s'.pool[p])
    requires forall j :: 0 <= j < |s.tasks| ==> SameJob(s.tasks[j], s'.tasks[j]) && (j != i ==> s'.tasks[j].pc == s.tasks[j].pc)
    requires TaskOnDisk(cfg, s', s'.tasks[i])
    ensures Backed(cfg, s')
  {
    forall j | 0 <= j < |s.tasks| ensures TaskOnDisk(cfg, s', s'.tasks[j]) {
      if j != i { OtherTask(cfg, s, s', s.tasks[j], s'.tasks[j]); }
    }
  }

  lemma DoneBacked(cfg: Config, s: State, i: nat)
    requires Backed(cfg, s) && i < |s.tasks|
    ensures Backed(cfg, SetPc(s, i, Done)) && Backed(cfg, SetPc(s, i, Done).(failed := true))
  {
    assert TaskOnDisk(cfg, s, s.tasks[i]);
    MoveBacked(cfg, s, SetPc(s, i, Done), i, s.tasks[i].(pc := Done));
    MoveBacked(cfg, s, SetPc(s, i, Done).(failed := true), i, s.tasks[i].(pc := Done));
  }

  lemma MergeBacked(cfg: Config, s: State, s': State, i: nat, k: nat)
    requires Backed(cfg, s) && i < |s.tasks| && k < |s.pool|
    requires s' == SetPc(s.(pool := s.pool[k := Merge(s.pool[k], s.tasks[i])], admitted := s'.admitted), i, Done)
    ensures Backed(cfg, s')
  {
    assert TaskOnDisk(cfg, s, s.tasks[i]);
    forall p | 0 <= p < |s'.pool| ensures RecordOnDisk(cfg, s', s'.pool[p]) {
      RecordKept(cfg, s, s', s.pool[p], s'.pool[p]);
    }
    PoolBacked(cfg, s, s', i);
  }

  lemma RegisterBacked(cfg: Config, s: State, s': State, i: nat, resp: Response)
    requires Backed(cfg, s) && i < |s.tasks| && OnDisk(s, s.tasks[i].id, resp) && cfg.parseProof(resp).valid
    requires s'.pool == s.pool + [NewRecord(cfg.parseProof(resp), s.tasks[i], s.nextId)] && DiskGrows(s, s') && s'.round == s.round
    requires s'.tasks == s.tasks[i := s.tasks[i].(pc := Voting(|s.pool|, EmptyPanel(cfg)))]
    ensures Backed(cfg, s')
  {
    assert TaskOnDisk(cfg, s, s.tasks[i]);
    OnDiskKept(s, s', s.tasks[i].id, resp);
    forall p | 0 <= p < |s'.pool| ensures RecordOnDisk(cfg, s', s'.pool[p]) {
      if p < |s.pool| { RecordKept(cfg, s, s', s.pool[p], s'.pool[p]); }
    }
    PoolBacked(cfg, s, s', i);
  }

  lemma AdmitBacked(cfg: Config, s: State, i: nat, resp: Response)
    requires Backed(cfg, s) && i < |s.tasks| && OnDisk(s, s.tasks[i].id, resp)
    ensures Backed(cfg, Admit(cfg, s, i, resp))
  {
    var t, p := s.tasks[i], cfg.parseProof(resp);
    if t.model in s.stopped || !p.valid {
      DoneBacked(cfg, s, i);
    } else {
      match Find(s.pool, p.proof)
      case Some(k) => MergeBacked(cfg, s, Admit(cfg, s, i, resp), i, k);
      case None => RegisterBacked(cfg, s, Admit(cfg, s, i, resp), i, resp);
    }
  }

  lemma BeginBacked(cfg: Config, s: State, i: nat)
    requires Backed(cfg, s) && Enabled(cfg, s, Start(i))
    ensures Backed(cfg, Begin(cfg, s, i))
  {
    var t := s.tasks[i];
    assert TaskOnDisk(cfg, s, t);
    if !t.cancelled && t.model !in s.stopped && t.id in s.ledger {
      AdmitBacked(cfg, s, i, s.ledger[t.id]);
    } else {
      MoveBacked(cfg, s, Begin(cfg, s, i), i, Begin(cfg, s, i).tasks[i]);
    }
  }

  lemma ResumeBacked(cfg: Config, s: State, i: nat)
    requires Backed(cfg, s) && Enabled(cfg, s, Resume(i))
    ensures Backed(cfg, Next(cfg, s, Resume(i)))
  {
    assert TaskOnDisk(cfg, s, s.tasks[i]);
    DoneBacked(cfg, s, i);
    AdmitBacked(cfg, s, i, s.tasks[i].pc.resp);
  }

  lemma WriteBacked(cfg: Config, s: State, i: nat)
    requires Backed(cfg, s) && Enabled(cfg, s, Write(i))
    ensures Backed(cfg, Next(cfg, s, Write(i)))
  {
    var s' := Next(cfg, s, Write(i));
    assert TaskOnDisk(cfg, s, s.tasks[i]);
    assert s'.rows[|s.rows|] == Entry(s.tasks[i].id, s.tasks[i].pc.resp);
    MoveBacked(cfg, s, s', i, s'.tasks[i]);
  }

  // ---- panels -----------------------------------------------------------------------------

  /** One seat changes; if it now counts as saved, its row is on disk. */
  lemma SeatBacked(cfg: Config, s: State, s': State, i: nat, a: nat, b: nat, seat: Seat, pc: Pc)
    requires Backed(cfg, s) && i < |s.tasks| && HasPanel(s.tasks[i].pc) && InPanel(cfg, a, b) && DiskGrows(s, s')
    requires s.tasks[i].pc.at < |s.pool| && Shaped(cfg, s.tasks[i].pc.seats)
    requires HasPanel(pc) && pc.at == s.tasks[i].pc.at && pc.seats == SetSeat(s.tasks[i].pc.seats, a, b, seat)
    requires s' == SetPc(s, i, pc).(issued := s'.issued, rows := s'.rows)
    requires seat.Got? && !seat.unsaved ==> OnDisk(s', VoteId(cfg, s.pool[pc.at], a, b), seat.resp)
    ensures Backed(cfg, s')
  {
    var t := s.tasks[i];
    assert TaskOnDisk(cfg, s, t);
    SeatsKept(cfg, s, s', s.pool[pc.at], s.pool[pc.at], t.pc.seats);
    MoveBacked(cfg, s, s', i, t.(pc := pc));
  }

  lemma BeginSeatBacked(cfg: Config, s: State, i: nat, a: nat, b: nat)
    requires Backed(cfg, s) && Enabled(cfg, s, SeatStart(i, a, b))
    ensures Backed(cfg, BeginSeat(cfg, s, i, a, b))
  {
    var s' := BeginSeat(cfg, s, i, a, b);
    SeatBacked(cfg, s, s', i, a, b, s'.tasks[i].pc.seats[a][b], s'.tasks[i].pc);
  }

  lemma SettleSeatBacked(cfg: Config, s: State, i: nat, a: nat, b: nat, was: Seat, seat: Seat)
    requires Backed(cfg, s) && SeatAt(cfg, s, i, a, b, was) && (seat.Got? ==> seat.unsaved)
    ensures Backed(cfg, SettleSeat(s, i, a, b, seat))
  {
    SeatBacked(cfg, s, SettleSeat(s, i, a, b, seat), i, a, b, seat, SettleSeat(s, i, a, b, seat).tasks[i].pc);
  }

  lemma WriteVoteBacked(cfg: Config, s: State, i: nat, a: nat, b: nat)
    requires Backed(cfg, s) && Enabled(cfg, s, WriteVote(i, a, b))
    ensures Backed(cfg, Next(cfg, s, WriteVote(i, a, b)))
  {
    var s', pc := Next(cfg, s, WriteVote(i, a, b)), s.tasks[i].pc;
    assert s'.rows[|s.rows|] == Entry(VoteId(cfg, s.pool[pc.at], a, b), pc.seats[a][b].resp);
    SeatBacked(cfg, s, s', i, a, b, Got(pc.seats[a][b].resp, false), s'.tasks[i].pc);
  }

  lemma GatherBacked(cfg: Config, s: State, i: nat)
    requires Backed(cfg, s) && Enabled(cfg, s, Gather(i))
    ensures Backed(cfg, Gathered(s, i))
  {
    var s', t := Gathered(s, i), s.tasks[i];
    assert TaskOnDisk(cfg, s, t);
    SeatsKept(cfg, s, s', s.pool[t.pc.at], s.pool[t.pc.at], t.pc.seats);
    MoveBacked(cfg, s, s', i, s'.tasks[i]);
  }

  /** A verdict is given when every vote row is on disk, so a complete one can be read back. */
  lemma JudgedOnDisk(cfg: Config, s: State, rec: Record, seats: seq<seq<Seat>>)
    requires RecordOnDisk(cfg, s, rec) && SeatsOnDisk(cfg, s, rec, seats) && NothingUnsaved(seats)
    requires |cfg.verifiers| > 0 && cfg.judgments > 0
    ensures RecordOnDisk(cfg, s, Judged(cfg, rec, seats))
  {
    var r := Judged(cfg, rec, seats);
    ProofKept(cfg, s, s, rec, r);
    Panels.JudgedMeaning(cfg, rec, seats);
    Panels.RowsMeaning(cfg, seats);
    if r.verdict.value.complete {
      forall a: nat, b: nat | InPanel(cfg, a, b)
        ensures a < |r.scores| && b < |r.scores[a]| && VoteOnDisk(cfg, s, VoteId(cfg, r, a, b), r.scores[a][b])
      {
        assert Panels.Scored(cfg, seats[a][b]);
        assert VoteId(cfg, r, a, b) == VoteId(cfg, rec, a, b);
        assert OnDisk(s, VoteId(cfg, rec, a, b), seats[a][b].resp);
      }
    }
  }

  lemma SettlePool(s: State, i: nat, rec: Record)
    requires i < |s.tasks| && s.tasks[i].pc.Recording? && s.tasks[i].pc.at < |s.pool| && rec.verdict.Some?
    ensures var s', at := Settle(s, i, rec), s.tasks[i].pc.at;
      s'.pool == s.pool[at := rec] || s'.pool == s.pool[at := rec.(accepted := true)]
  {
  }

  lemma SettleBacked(cfg: Config, s: State, i: nat, rec: Record)
    requires Backed(cfg, s) && i < |s.tasks| && s.tasks[i].pc.Recording? && s.tasks[i].pc.at < |s.pool| && rec.verdict.Some?
    requires RecordOnDisk(cfg, s, rec) && rec.proof == s.pool[s.tasks[i].pc.at].proof && rec.round == s.pool[s.tasks[i].pc.at].round
    ensures Backed(cfg, Settle(s, i, rec))
  {
    var s', at := Settle(s, i, rec), s.tasks[i].pc.at;
    assert TaskOnDisk(cfg, s, s.tasks[i]);
    SettleMoves(s, i, rec);
    SettlePool(s, i, rec);
    forall p | 0 <= p < |s'.pool| ensures RecordOnDisk(cfg, s', s'.pool[p]) {
      RecordKept(cfg, s, s', if p == at then rec else s.pool[p], s'.pool[p]);
    }
    PoolBacked(cfg, s, s', i);
  }

  lemma ConcludeBacked(cfg: Config, s: State, i: nat)
    requires Backed(cfg, s) && Enabled(cfg, s, Conclude(i))
    ensures Backed(cfg, Conclusion(cfg, s, i))
  {
    var pc := s.tasks[i].pc;
    assert TaskOnDisk(cfg, s, s.tasks[i]);
    DoneBacked(cfg, s, i);
    JudgedOnDisk(cfg, s, s.pool[pc.at], pc.seats);
    SettleBacked(cfg, s, i, Judged(cfg, s.pool[pc.at], pc.seats));
  }

  // ---- rounds and runs ----------------------------------------------------------------------

  lemma RoundBacked(cfg: Config, s: State, parents: seq<nat>)
    requires ValidConfig(cfg) && Backed(cfg, s)
    ensures Backed(cfg, BeginRound(cfg, s, parents))
  {
    var s' := BeginRound(cfg, s, parents);
    Launching.FreshTasks(s.round + 1, cfg.checkpoints, parents);
    forall j | 0 <= j < |s'.tasks| ensures TaskOnDisk(cfg, s', s'.tasks[j]) {
      assert s'.tasks[j] in s'.tasks;
    }
    forall p | 0 <= p < |s'.pool| ensures RecordOnDisk(cfg, s', s'.pool[p]) {
      RecordKept(cfg, s, s', s.pool[p], s.pool[p]);
    }
  }

  lemma AbortBacked(cfg: Config, s: State)
    requires Backed(cfg, s)
    ensures Backed(cfg, Next(cfg, s, Abort))
  {
    var s' := Next(cfg, s, Abort);
    forall p | 0 <= p < |s'.pool| ensures RecordOnDisk(cfg, s', s'.pool[p]) {
      RecordKept(cfg, s, s', s.pool[p], s.pool[p]);
    }
    forall j | 0 <= j < |s'.tasks| ensures TaskOnDisk(cfg, s', s'.tasks[j]) {
      OtherTask(cfg, s, s', s.tasks[j], s'.tasks[j]);
    }
  }

  lemma DeliverBacked(cfg: Config, s: State, i: nat, resp: Response)
    requires Backed(cfg, s) && Enabled(cfg, s, Deliver(i, resp))
    ensures Backed(cfg, Next(cfg, s, Deliver(i, resp)))
  {
    assert TaskOnDisk(cfg, s, s.tasks[i]);
    MoveBacked(cfg, s, Next(cfg, s, Deliver(i, resp)), i, s.tasks[i].(pc := Saving(resp), cancelled := false));
  }

  lemma StepBacked(cfg: Config, s: State, ev: Event)
    requires ValidConfig(cfg) && Backed(cfg, s) && Enabled(cfg, s, ev)
    ensures Backed(cfg, Next(cfg, s, ev))
  {
    match ev
    case Start(i) => BeginBacked(cfg, s, i);
    case Deliver(i, resp) => DeliverBacked(cfg, s, i, resp);
    case Park(i) => DoneBacked(cfg, s, i);
    case Fail(i) => DoneBacked(cfg, s, i);
    case Drop(i) => DoneBacked(cfg, s, i);
    case Write(i) => WriteBacked(cfg, s, i);
    case LoseWrite(i) => DoneBacked(cfg, s, i);
    case Resume(i) => ResumeBacked(cfg, s, i);
    case SeatStart(i, a, b) => BeginSeatBacked(cfg, s, i, a, b);
    case SeatDeliver(i, a, b, resp) => SettleSeatBacked(cfg, s, i, a, b, Sent, Got(resp, true));
    case SeatPark(i, a, b) => SettleSeatBacked(cfg, s, i, a, b, Sent, Parked);
    case SeatFail(i, a, b) => SettleSeatBacked(cfg, s, i, a, b, Sent, Fatal);
    case SeatDrop(i, a, b) => SettleSeatBacked(cfg, s, i, a, b, s.tasks[i].pc.seats[a][b], Dropped);
    case Gather(i) => GatherBacked(cfg, s, i);
    case WriteVote(i, a, b) => WriteVoteBacked(cfg, s, i, a, b);
    case Leave(i) => DoneBacked(cfg, s, i);
    case Conclude(i) => ConcludeBacked(cfg, s, i);
    case NextRound => RoundBacked(cfg, s, Parents(cfg, s.pool));
    case Abort => AbortBacked(cfg, s);
  }

  lemma InitBacked(cfg: Config, disk: seq<Entry>)
    requires ValidConfig(cfg)
    ensures Backed(cfg, Init(cfg, disk))
  {
    var s := Init(cfg, disk);
    Launching.Round1TasksFacts(cfg.prompts, cfg.checkpoints, 0);
    forall j | 0 <= j < |s.tasks| ensures TaskOnDisk(cfg, s, s.tasks[j]) {
      assert s.tasks[j] in s.tasks && Launching.GenerationTask(s.tasks[j], cfg.prompts, cfg.checkpoints);
    }
  }

  lemma {:induction false} RunBacked(cfg: Config, s: State, run: seq<Event>)
    requires ValidConfig(cfg) && Backed(cfg, s) && Legal(cfg, s, run)
    ensures Backed(cfg, Exec(cfg, s, run))
    decreases run
  {
    if run != [] {
      StepBacked(cfg, s, run[0]);
      RunBacked(cfg, Next(cfg, s, run[0]), run[1..]);
    }
  }

  // ---- what a later scan finds ------------------------------------------------------------------

  lemma {:induction false} ScanFinds(disk: seq<Entry>, rows: seq<Entry>, e: Entry)
    requires NoDup(Ids(rows)) && e in rows && forall id :: id in Ids(rows) ==> id !in Ids(disk)
    ensures e.id in Scan(disk + rows) && Scan(disk + rows)[e.id] == e.resp
    decreases rows
  {
    var n := |rows| - 1;
    var front, last := rows[..n], rows[n];
    assert Ids(rows) == Ids(front) + [last.id];
    assert (disk + rows)[..|disk + rows| - 1] == disk + front;
    ScanKeys(disk + front);
    IdsConcat(disk, front);
    if e in front {
      assert forall i, j :: 0 <= i < j < |front| ==> Ids(front)[i] == Ids(rows)[i] && Ids(front)[j] == Ids(rows)[j];
      ScanFinds(disk, front, e);
      var k :| 0 <= k < |front| && front[k] == e;
      assert Ids(rows)[k] != Ids(rows)[n];
    } else {
      assert e == last && last.id == Ids(rows)[n];
      assert last.id !in Ids(front);
    }
  }

  /** What is on disk during a launch is what a later launch replays. */
  lemma DiskIsReplayed(cfg: Config, disk: seq<Entry>, s: State, id: WorkId, resp: Response)
    requires Durable(cfg, disk, s) && OnDisk(s, id, resp)
    ensures id in Ids(disk + s.rows) && id in Scan(disk + s.rows) && Scan(disk + s.rows)[id] == resp
  {
    ScanKeys(disk + s.rows);
    IdsConcat(disk, s.rows);
    if Entry(id, resp) in s.rows {
      ScanFinds(disk, s.rows, Entry(id, resp));
    } else {
      assert id in Ids(disk);
      ScanExtends(disk, s.rows, id);
    }
  }

  /**
   * Nothing a launch concluded needs the launch: at any moment the directory, scanned afresh, gives every
   * registered proof back from its first origin, and every score of every complete panel from its vote.
   */
  lemma PoolIsReadableFromDisk(cfg: Config, disk: seq<Entry>, run: seq<Event>)
    requires ValidConfig(cfg) && Legal(cfg, Init(cfg, disk), run)
    ensures var s := Exec(cfg, Init(cfg, disk), run);
      var found := Scan(disk + s.rows);
      forall p :: 0 <= p < |s.pool| ==>
        && s.pool[p].origins != [] && s.pool[p].origins[0].id in found
        && cfg.parseProof(found[s.pool[p].origins[0].id]) == Parsed(s.pool[p].proof, s.pool[p].selfEval, true)
        && (IsEvidence(s.pool[p]) ==> forall a: nat, b: nat :: InPanel(cfg, a, b) ==>
             a < |s.pool[p].scores| && b < |s.pool[p].scores[a]| && VoteId(cfg, s.pool[p], a, b) in found &&
             cfg.parseVote(found[VoteId(cfg, s.pool[p], a, b)]) == s.pool[p].scores[a][b])
  {
    var s := Exec(cfg, Init(cfg, disk), run);
    InitDurable(cfg, disk);
    RunDurable(cfg, disk, Init(cfg, disk), run);
    InitBacked(cfg, disk);
    RunBacked(cfg, Init(cfg, disk), run);
    forall p | 0 <= p < |s.pool|
      ensures ProofFound(cfg, Scan(disk + s.rows), s.pool[p]) && (IsEvidence(s.pool[p]) ==> VotesFound(cfg, Scan(disk + s.rows), s.pool[p]))
    {
      RecordFound(cfg, disk, s, s.pool[p]);
    }
  }

  ghost predicate ProofFound(cfg: Config, found: map<WorkId, Response>, rec: Record) {
    rec.origins != [] && rec.origins[0].id in found && cfg.parseProof(found[rec.origins[0].id]) == Parsed(rec.proof, rec.selfEval, true)
  }

  ghost predicate VotesFound(cfg: Config, found: map<WorkId, Response>, rec: Record) {
    forall a: nat, b: nat :: InPanel(cfg, a, b) ==>
      a < |rec.scores| && b < |rec.scores[a]| && VoteId(cfg, rec, a, b) in found &&
      cfg.parseVote(found[VoteId(cfg, rec, a, b)]) == rec.scores[a][b]
  }

  lemma RecordFound(cfg: Config, disk: seq<Entry>, s: State, rec: Record)
    requires Durable(cfg, disk, s) && RecordOnDisk(cfg, s, rec)
    ensures ProofFound(cfg, Scan(disk + s.rows), rec)
    ensures IsEvidence(rec) ==> VotesFound(cfg, Scan(disk + s.rows), rec)
  {
    var resp :| OnDisk(s, rec.origins[0].id, resp) && cfg.parseProof(resp) == Parsed(rec.proof, rec.selfEval, true);
    DiskIsReplayed(cfg, disk, s, rec.origins[0].id, resp);
    if IsEvidence(rec) {
      forall a: nat, b: nat | InPanel(cfg, a, b)
        ensures a < |rec.scores| && b < |rec.scores[a]| && VoteId(cfg, rec, a, b) in Scan(disk + s.rows)
        ensures cfg.parseVote(Scan(disk + s.rows)[VoteId(cfg, rec, a, b)]) == rec.scores[a][b]
      {
        assert VoteOnDisk(cfg, s, VoteId(cfg, rec, a, b), rec.scores[a][b]);
        var vote :| OnDisk(s, VoteId(cfg, rec, a, b), vote) && cfg.parseVote(vote) == rec.scores[a][b];
        DiskIsReplayed(cfg, disk, s, VoteId(cfg, rec, a, b), vote);
      }
    }
  }
}
