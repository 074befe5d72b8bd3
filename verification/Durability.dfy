/**
 * One request and one row per work identity: what every step of the search keeps, then what every launch
 * and every history of launches, crashes and relaunches gives.
 */
module Durability {
  import opened Options
  import opened Search
  import opened Text
  import Launching

  // ---- the invariant ---------------------------------------------------------

  /** An unsent seat was never requested; a response on its way or not yet saved was, and has no row. */
  ghost predicate SeatOk(seat: Seat, id: WorkId, issued: seq<WorkId>, written: seq<WorkId>) {
    match seat
    case Unsent => id !in issued
    case Sent => id in issued && id !in written
    case Got(_, unsaved) => unsaved ==> id in issued && id !in written
    case _ => true
  }

  ghost predicate PanelOk(cfg: Config, rec: Record, seats: seq<seq<Seat>>, issued: seq<WorkId>, written: seq<WorkId>) {
    && Shaped(cfg, seats)
    && forall a: nat, b: nat :: InPanel(cfg, a, b) ==> SeatOk(seats[a][b], VoteId(cfg, rec, a, b), issued, written)
  }

  predicate HasPanel(pc: Pc) {
    pc.Voting? || pc.Recording?
  }

  ghost predicate TaskOk(cfg: Config, pool: seq<Record>, issued: seq<WorkId>, written: seq<WorkId>, t: Task) {
    match t.pc
    case Idle => t.id !in issued
    case Asking => t.id in issued && t.id !in written
    case Saving(_) => t.id in issued && t.id !in written
    case Voting(at, seats) => at < |pool| && PanelOk(cfg, pool[at], seats, issued, written)
    case Recording(at, seats, _) => at < |pool| && PanelOk(cfg, pool[at], seats, issued, written)
    case _ => true
  }

  /** A task works under a sample identity of the current round. */
  predicate OfRound(prompts: seq<string>, id: WorkId, round: nat) {
    (id.Generate? && round == 1 && id.prompt in prompts) || (id.Refine? && id.round == round)
  }

  ghost predicate DistinctProofs(pool: seq<Record>) {
    forall p, q :: 0 <= p < q < |pool| ==> pool[p].proof != pool[q].proof
  }

  ghost predicate SeparatePanels(tasks: seq<Task>) {
    forall i, j :: 0 <= i < j < |tasks| && HasPanel(tasks[i].pc) && HasPanel(tasks[j].pc) ==> tasks[i].pc.at != tasks[j].pc.at
  }

  ghost predicate Named(pool: seq<Record>, proof: string) {
    exists p :: 0 <= p < |pool| && pool[p].proof == proof
  }

  /** Votes were requested for registered proofs only, refinements for rounds begun only. */
  ghost predicate IssuedOk(prompts: seq<string>, pool: seq<Record>, round: nat, issued: seq<WorkId>) {
    forall id :: id in issued ==> (id.Vote? ==> Named(pool, id.proof)) && (id.Refine? ==> id.round <= round) && (id.Generate? ==> id.prompt in prompts)
  }

  ghost predicate Books(base: seq<Entry>, s: State) {
    && s.ledger == Scan(base) && (forall id :: id in s.ledger <==> id in Ids(base))
    && NoDup(s.issued) && (forall id :: id in s.issued ==> id !in Ids(base))
    && NoDup(Ids(s.rows)) && (forall id :: id in Ids(s.rows) ==> id in s.issued)
  }

  ghost predicate Durable(cfg: Config, base: seq<Entry>, s: State) {
    && Books(base, s) && IssuedOk(cfg.prompts, s.pool, s.round, s.issued)
    && DistinctProofs(s.pool) && SeparatePanels(s.tasks) && Launching.DistinctIds(s.tasks)
    && (forall t :: t in s.tasks ==> OfRound(cfg.prompts, t.id, s.round))
    && (forall j :: 0 <= j < |s.tasks| ==> TaskOk(cfg, s.pool, s.issued, Ids(s.rows), s.tasks[j]))
  }

  // ---- one task moves, the others keep their place ------------------------------

  /** The identities a task may request: its own sample, and the votes of the panel it runs. */
  ghost predicate Claims(pool: seq<Record>, t: Task, id: WorkId) {
    id == t.id || (HasPanel(t.pc) && t.pc.at < |pool| && id.Vote? && id.proof == pool[t.pc.at].proof)
  }

  /** Records are only added; a record keeps its proof and round. */
  ghost predicate Extends(pool: seq<Record>, more: seq<Record>) {
    |pool| <= |more| && forall p :: 0 <= p < |pool| ==> more[p].proof == pool[p].proof && more[p].round == pool[p].round
  }

  lemma PanelKept(cfg: Config, rec: Record, rec': Record, seats: seq<seq<Seat>>,
                  issued: seq<WorkId>, written: seq<WorkId>, issued': seq<WorkId>, written': seq<WorkId>)
    requires PanelOk(cfg, rec, seats, issued, written) && rec'.proof == rec.proof && rec'.round == rec.round
    requires forall id: WorkId :: id.Vote? && id.proof == rec.proof ==> (id in issued' <==> id in issued) && (id in written' <==> id in written)
    ensures PanelOk(cfg, rec', seats, issued', written')
  {
  }

  /** A task keeps its place when no identity it claims is requested or written by another. */
  lemma TaskKept(cfg: Config, pool: seq<Record>, pool': seq<Record>, t: Task, t': Task,
                 issued: seq<WorkId>, written: seq<WorkId>, issued': seq<WorkId>, written': seq<WorkId>)
    requires TaskOk(cfg, pool, issued, written, t) && t'.id == t.id && t'.pc == t.pc && Extends(pool, pool')
    requires forall id :: Claims(pool, t, id) ==> (id in issued' <==> id in issued) && (id in written' <==> id in written)
    ensures TaskOk(cfg, pool', issued', written', t')
  {
    assert Claims(pool, t, t.id);
    if HasPanel(t.pc) {
      PanelKept(cfg, pool[t.pc.at], pool'[t.pc.at], t.pc.seats, issued, written, issued', written');
    }
  }

  lemma ClaimsApart(cfg: Config, base: seq<Entry>, s: State, i: nat, j: nat, id: WorkId)
    requires Durable(cfg, base, s) && i < |s.tasks| && j < |s.tasks| && i != j
    requires Claims(s.pool, s.tasks[i], id)
    ensures !Claims(s.pool, s.tasks[j], id)
  {
    var t, u := s.tasks[i], s.tasks[j];
    assert t.id != u.id && t in s.tasks && u in s.tasks;
    if HasPanel(t.pc) && HasPanel(u.pc) {
      assert t.pc.at != u.pc.at;
    }
  }

  /** `s'` differs from `s` by a move of task `i`; other tasks may be flagged, nothing else. */
  ghost predicate Moved(s: State, s': State, i: nat) {
    && i < |s.tasks| == |s'.tasks| && s'.round == s.round && s'.ledger == s.ledger
    && s'.tasks[i].id == s.tasks[i].id
    && (forall j :: 0 <= j < |s.tasks| && j != i ==> s'.tasks[j].id == s.tasks[j].id && s'.tasks[j].pc == s.tasks[j].pc)
    && Extends(s.pool, s'.pool)
    && (HasPanel(s'.tasks[i].pc) ==>
          (HasPanel(s.tasks[i].pc) && s'.tasks[i].pc.at == s.tasks[i].pc.at) || s'.tasks[i].pc.at == |s.pool|)
  }

  /** The request, if any, that the move sends. */
  ghost predicate Sends(s: State, s': State, i: nat) {
    s'.issued == s.issued ||
    (i < |s.tasks| && |s'.issued| == |s.issued| + 1 && s'.issued[..|s.issued|] == s.issued &&
     Claims(s.pool, s.tasks[i], s'.issued[|s.issued|]) && s'.issued[|s.issued|] !in s.issued && s'.issued[|s.issued|] !in s.ledger)
  }

  /** The row, if any, that the move writes. */
  ghost predicate Writes(s: State, s': State, i: nat) {
    s'.rows == s.rows ||
    (i < |s.tasks| && |s'.rows| == |s.rows| + 1 && s'.rows[..|s.rows|] == s.rows &&
     Claims(s.pool, s.tasks[i], s'.rows[|s.rows|].id) && s'.rows[|s.rows|].id in s.issued && s'.rows[|s.rows|].id !in Ids(s.rows))
  }

  lemma Push<T>(a: seq<T>, b: seq<T>)
    requires |b| == |a| + 1 && b[..|a|] == a
    ensures b == a + [b[|a|]]
  {
  }

  lemma PushRows(a: seq<Entry>, b: seq<Entry>)
    requires |b| == |a| + 1 && b[..|a|] == a
    ensures Ids(b) == Ids(a) + [b[|a|].id]
  {
    assert forall k :: 0 <= k < |a| ==> b[k] == b[..|a|][k];
  }

  /** The requests and rows after the move: at most one identity more, claimed by the task that moved. */
  lemma MoveBooks(cfg: Config, base: seq<Entry>, s: State, s': State, i: nat)
    requires Durable(cfg, base, s) && Moved(s, s', i) && Sends(s, s', i) && Writes(s, s', i)
    ensures Books(base, s')
    ensures forall id :: id in s'.issued && id !in s.issued ==> Claims(s.pool, s.tasks[i], id)
    ensures forall id :: id in s.issued ==> id in s'.issued
    ensures forall id :: id in Ids(s'.rows) && id !in Ids(s.rows) ==> Claims(s.pool, s.tasks[i], id)
    ensures forall id :: id in Ids(s.rows) ==> id in Ids(s'.rows)
  {
    if s'.issued != s.issued {
      Push(s.issued, s'.issued);
      NoDupAppend(s.issued, s'.issued[|s.issued|]);
    }
    if s'.rows != s.rows {
      PushRows(s.rows, s'.rows);
      NoDupAppend(Ids(s.rows), s'.rows[|s.rows|].id);
    }
  }

  lemma NamedKept(pool: seq<Record>, pool': seq<Record>, proof: string)
    requires Extends(pool, pool') && Named(pool, proof)
    ensures Named(pool', proof)
  {
    var p :| 0 <= p < |pool| && pool[p].proof == proof;
    assert pool'[p].proof == proof;
  }

  lemma MoveIssued(cfg: Config, base: seq<Entry>, s: State, s': State, i: nat)
    requires Durable(cfg, base, s) && Moved(s, s', i) && Sends(s, s', i) && Writes(s, s', i)
    ensures IssuedOk(cfg.prompts, s'.pool, s'.round, s'.issued)
  {
    MoveBooks(cfg, base, s, s', i);
    assert s.tasks[i] in s.tasks;
    forall id | id in s'.issued
      ensures (id.Vote? ==> Named(s'.pool, id.proof)) && (id.Refine? ==> id.round <= s'.round) && (id.Generate? ==> id.prompt in cfg.prompts)
    {
      if id.Vote? {
        if id !in s.issued {
          assert Claims(s.pool, s.tasks[i], id) && OfRound(cfg.prompts, s.tasks[i].id, s.round);
          assert s.pool[s.tasks[i].pc.at].proof == id.proof;
        }
        NamedKept(s.pool, s'.pool, id.proof);
      }
    }
  }

  lemma MovePanels(cfg: Config, base: seq<Entry>, s: State, s': State, i: nat)
    requires Durable(cfg, base, s) && Moved(s, s', i)
    ensures SeparatePanels(s'.tasks) && Launching.DistinctIds(s'.tasks)
    ensures forall t :: t in s'.tasks ==> OfRound(cfg.prompts, t.id, s'.round)
  {
    forall t | t in s'.tasks ensures OfRound(cfg.prompts, t.id, s'.round) {
      var j :| 0 <= j < |s'.tasks| && s'.tasks[j] == t;
      assert s.tasks[j] in s.tasks;
    }
    forall x, y | 0 <= x < y < |s'.tasks| ensures s'.tasks[x].id != s'.tasks[y].id {
      assert s.tasks[x].id != s.tasks[y].id;
    }
    forall x, y | 0 <= x < y < |s'.tasks| && HasPanel(s'.tasks[x].pc) && HasPanel(s'.tasks[y].pc)
      ensures s'.tasks[x].pc.at != s'.tasks[y].pc.at
    {
      assert TaskOk(cfg, s.pool, s.issued, Ids(s.rows), s.tasks[x]) && TaskOk(cfg, s.pool, s.issued, Ids(s.rows), s.tasks[y]);
    }
  }

  /** A move keeps the invariant when the task that moved ends in good order and no proof is registered twice. */
  lemma MoveDurable(cfg: Config, base: seq<Entry>, s: State, s': State, i: nat)
    requires Durable(cfg, base, s) && Moved(s, s', i) && Sends(s, s', i) && Writes(s, s', i)
    requires DistinctProofs(s'.pool) && TaskOk(cfg, s'.pool, s'.issued, Ids(s'.rows), s'.tasks[i])
    ensures Durable(cfg, base, s')
  {
    MoveBooks(cfg, base, s, s', i);
    MoveIssued(cfg, base, s, s', i);
    MovePanels(cfg, base, s, s', i);
    forall j | 0 <= j < |s'.tasks| ensures TaskOk(cfg, s'.pool, s'.issued, Ids(s'.rows), s'.tasks[j]) {
      if j != i {
        forall id | Claims(s.pool, s.tasks[j], id)
          ensures (id in s'.issued <==> id in s.issued) && (id in Ids(s'.rows) <==> id in Ids(s.rows))
        {
          if Claims(s.pool, s.tasks[i], id) { ClaimsApart(cfg, base, s, i, j, id); }
        }
        TaskKept(cfg, s.pool, s'.pool, s.tasks[j], s'.tasks[j], s.issued, Ids(s.rows), s'.issued, Ids(s'.rows));
      }
    }
  }

  // ---- one lemma per kind of step -------------------------------------------------

  lemma DoneDurable(cfg: Config, base: seq<Entry>, s: State, i: nat)
    requires Durable(cfg, base, s) && i < |s.tasks|
    ensures Durable(cfg, base, SetPc(s, i, Done))
    ensures Durable(cfg, base, SetPc(s, i, Done).(failed := true))
  {
    MoveDurable(cfg, base, s, SetPc(s, i, Done), i);
    MoveDurable(cfg, base, s, SetPc(s, i, Done).(failed := true), i);
  }

  /** The panel of a proof nobody has registered starts with every vote unrequested. */
  lemma OpenPanel(cfg: Config, base: seq<Entry>, s: State, rec: Record)
    requires Durable(cfg, base, s) && !Named(s.pool, rec.proof)
    ensures PanelOk(cfg, rec, EmptyPanel(cfg), s.issued, Ids(s.rows))
  {
  }

  /** Only the records of the pool may change, and only in what they say of their verification and origins. */
  lemma RewriteDurable(cfg: Config, base: seq<Entry>, s: State, s': State, i: nat)
    requires Durable(cfg, base, s) && Moved(s, s', i) && |s'.pool| == |s.pool|
    requires s'.issued == s.issued && s'.rows == s.rows && s'.tasks[i].pc == Done
    ensures Durable(cfg, base, s')
  {
    forall p, q | 0 <= p < q < |s'.pool| ensures s'.pool[p].proof != s'.pool[q].proof {
      assert s.pool[p].proof != s.pool[q].proof;
    }
    MoveDurable(cfg, base, s, s', i);
  }

  lemma RegisterDurable(cfg: Config, base: seq<Entry>, s: State, s': State, i: nat, rec: Record)
    requires Durable(cfg, base, s) && i < |s.tasks| && Find(s.pool, rec.proof).None?
    requires Moved(s, s', i) && s'.issued == s.issued && s'.rows == s.rows && s'.pool == s.pool + [rec]
    requires s'.tasks[i].pc == Voting(|s.pool|, EmptyPanel(cfg))
    ensures Durable(cfg, base, s')
  {
    OpenPanel(cfg, base, s, rec);
    MoveDurable(cfg, base, s, s', i);
  }

  lemma AdmitDurable(cfg: Config, base: seq<Entry>, s: State, i: nat, resp: Response)
    requires Durable(cfg, base, s) && i < |s.tasks|
    ensures Durable(cfg, base, Admit(cfg, s, i, resp))
  {
    var t, p := s.tasks[i], cfg.parseProof(resp);
    if t.model in s.stopped || !p.valid {
      DoneDurable(cfg, base, s, i);
    } else {
      match Find(s.pool, p.proof)
      case Some(k) => RewriteDurable(cfg, base, s, Admit(cfg, s, i, resp), i);
      case None => RegisterDurable(cfg, base, s, Admit(cfg, s, i, resp), i, NewRecord(p, t, s.nextId));
    }
  }

  lemma BeginDurable(cfg: Config, base: seq<Entry>, s: State, i: nat)
    requires Durable(cfg, base, s) && Enabled(cfg, s, Start(i))
    ensures Durable(cfg, base, Begin(cfg, s, i))
  {
    var t := s.tasks[i];
    if t.cancelled || t.model in s.stopped {
      DoneDurable(cfg, base, s, i);
    } else if t.id in s.ledger {
      AdmitDurable(cfg, base, s, i, s.ledger[t.id]);
    } else {
      assert TaskOk(cfg, s.pool, s.issued, Ids(s.rows), t);
      assert Claims(s.pool, t, t.id);
      MoveDurable(cfg, base, s, Begin(cfg, s, i), i);
    }
  }

  lemma WriteDurable(cfg: Config, base: seq<Entry>, s: State, i: nat)
    requires Durable(cfg, base, s) && Enabled(cfg, s, Write(i))
    ensures Durable(cfg, base, Next(cfg, s, Write(i)))
  {
    var t := s.tasks[i];
    assert TaskOk(cfg, s.pool, s.issued, Ids(s.rows), t);
    assert Claims(s.pool, t, t.id);
    MoveDurable(cfg, base, s, Next(cfg, s, Write(i)), i);
  }

  lemma DeliverDurable(cfg: Config, base: seq<Entry>, s: State, i: nat, resp: Response)
    requires Durable(cfg, base, s) && Enabled(cfg, s, Deliver(i, resp))
    ensures Durable(cfg, base, Next(cfg, s, Deliver(i, resp)))
  {
    assert TaskOk(cfg, s.pool, s.issued, Ids(s.rows), s.tasks[i]);
    MoveDurable(cfg, base, s, Next(cfg, s, Deliver(i, resp)), i);
  }

  /** One seat settles with what the ledger or a request gave; the rest of the panel is as it was. */
  lemma SeatPanel(cfg: Config, rec: Record, seats: seq<seq<Seat>>, a: nat, b: nat, seat: Seat,
                  issued: seq<WorkId>, written: seq<WorkId>, issued': seq<WorkId>, written': seq<WorkId>)
    requires PanelOk(cfg, rec, seats, issued, written) && InPanel(cfg, a, b) && NoDup(cfg.verifiers)
    requires forall id :: id != VoteId(cfg, rec, a, b) ==> (id in issued' <==> id in issued) && (id in written' <==> id in written)
    requires SeatOk(seat, VoteId(cfg, rec, a, b), issued', written')
    ensures PanelOk(cfg, rec, SetSeat(seats, a, b, seat), issued', written')
  {
    forall x: nat, y: nat | InPanel(cfg, x, y)
      ensures SeatOk(SetSeat(seats, a, b, seat)[x][y], VoteId(cfg, rec, x, y), issued', written')
    {
      if x != a || y != b {
        assert VoteId(cfg, rec, x, y) != VoteId(cfg, rec, a, b);
        assert SeatOk(seats[x][y], VoteId(cfg, rec, x, y), issued, written);
      }
    }
  }

  lemma BeginSeatDurable(cfg: Config, base: seq<Entry>, s: State, i: nat, a: nat, b: nat)
    requires Durable(cfg, base, s) && Enabled(cfg, s, SeatStart(i, a, b)) && NoDup(cfg.verifiers)
    ensures Durable(cfg, base, BeginSeat(cfg, s, i, a, b))
  {
    var s', t := BeginSeat(cfg, s, i, a, b), s.tasks[i];
    var rec := s.pool[t.pc.at];
    var id := VoteId(cfg, rec, a, b);
    assert TaskOk(cfg, s.pool, s.issued, Ids(s.rows), t);
    assert SeatOk(t.pc.seats[a][b], id, s.issued, Ids(s.rows));
    assert Claims(s.pool, t, id);
    SeatPanel(cfg, rec, t.pc.seats, a, b, s'.tasks[i].pc.seats[a][b], s.issued, Ids(s.rows), s'.issued, Ids(s'.rows));
    MoveDurable(cfg, base, s, s', i);
  }

  lemma SettleSeatDurable(cfg: Config, base: seq<Entry>, s: State, i: nat, a: nat, b: nat, old': Seat, seat: Seat)
    requires Durable(cfg, base, s) && SeatAt(cfg, s, i, a, b, old') && NoDup(cfg.verifiers)
    requires seat.Parked? || seat.Fatal? || seat.Dropped? || (old' == Sent && seat.Got?)
    ensures Durable(cfg, base, SettleSeat(s, i, a, b, seat))
  {
    var t := s.tasks[i];
    var rec := s.pool[t.pc.at];
    assert TaskOk(cfg, s.pool, s.issued, Ids(s.rows), t);
    assert SeatOk(t.pc.seats[a][b], VoteId(cfg, rec, a, b), s.issued, Ids(s.rows));
    SeatPanel(cfg, rec, t.pc.seats, a, b, seat, s.issued, Ids(s.rows), s.issued, Ids(s.rows));
    MoveDurable(cfg, base, s, SettleSeat(s, i, a, b, seat), i);
  }

  lemma GatherDurable(cfg: Config, base: seq<Entry>, s: State, i: nat)
    requires Durable(cfg, base, s) && Enabled(cfg, s, Gather(i))
    ensures Durable(cfg, base, Gathered(s, i))
  {
    var s', t := Gathered(s, i), s.tasks[i];
    assert TaskOk(cfg, s.pool, s.issued, Ids(s.rows), t);
    var rec := s.pool[t.pc.at];
    forall x: nat, y: nat | InPanel(cfg, x, y)
      ensures SeatOk(s'.tasks[i].pc.seats[x][y], VoteId(cfg, rec, x, y), s.issued, Ids(s.rows))
    {
      assert SeatOk(t.pc.seats[x][y], VoteId(cfg, rec, x, y), s.issued, Ids(s.rows));
    }
    MoveDurable(cfg, base, s, s', i);
  }

  lemma WriteVoteDurable(cfg: Config, base: seq<Entry>, s: State, i: nat, a: nat, b: nat)
    requires Durable(cfg, base, s) && Enabled(cfg, s, WriteVote(i, a, b)) && NoDup(cfg.verifiers)
    ensures Durable(cfg, base, Next(cfg, s, WriteVote(i, a, b)))
  {
    var s', t := Next(cfg, s, WriteVote(i, a, b)), s.tasks[i];
    var rec := s.pool[t.pc.at];
    var id := VoteId(cfg, rec, a, b);
    assert TaskOk(cfg, s.pool, s.issued, Ids(s.rows), t);
    assert SeatOk(t.pc.seats[a][b], id, s.issued, Ids(s.rows));
    assert Claims(s.pool, t, id);
    PushRows(s.rows, s'.rows);
    SeatPanel(cfg, rec, t.pc.seats, a, b, Got(t.pc.seats[a][b].resp, false), s.issued, Ids(s.rows), s'.issued, Ids(s'.rows));
    MoveDurable(cfg, base, s, s', i);
  }

  /** Flags and finalists do not matter for the shape of a move. */
  lemma FlagsKeepMoved(s: State, s1: State, s2: State, i: nat)
    requires Moved(s, s1, i) && s2.round == s1.round && s2.ledger == s1.ledger && |s2.tasks| == |s1.tasks| && |s2.pool| == |s1.pool|
    requires forall j :: 0 <= j < |s1.tasks| ==> s2.tasks[j].id == s1.tasks[j].id && s2.tasks[j].pc == s1.tasks[j].pc
    requires forall p :: 0 <= p < |s1.pool| ==> s2.pool[p].proof == s1.pool[p].proof && s2.pool[p].round == s1.pool[p].round
    ensures Moved(s, s2, i)
  {
  }

  lemma JudgedMoves(s: State, s1: State, i: nat, at: nat, rec: Record)
    requires i < |s.tasks| && at < |s.pool| && s1 == SetPc(s, i, Done).(pool := s.pool[at := rec])
    requires rec.proof == s.pool[at].proof && rec.round == s.pool[at].round
    ensures Moved(s, s1, i)
  {
  }

  /** What a verdict changes: its record, the finalists, the flags of other tasks. */
  lemma SettleMoves(s: State, i: nat, rec: Record)
    requires i < |s.tasks| && s.tasks[i].pc.Recording? && s.tasks[i].pc.at < |s.pool| && rec.verdict.Some?
    requires rec.proof == s.pool[s.tasks[i].pc.at].proof && rec.round == s.pool[s.tasks[i].pc.at].round
    ensures var s' := Settle(s, i, rec);
      Moved(s, s', i) && |s'.pool| == |s.pool| && s'.issued == s.issued && s'.rows == s.rows && s'.tasks[i].pc == Done
  {
    var at := s.tasks[i].pc.at;
    var s1 := SetPc(s, i, Done).(pool := s.pool[at := rec]);
    JudgedMoves(s, s1, i, at, rec);
    FlagsKeepMoved(s, s1, Settle(s, i, rec), i);
  }

  lemma SettleDurable(cfg: Config, base: seq<Entry>, s: State, i: nat, rec: Record)
    requires Durable(cfg, base, s)
    requires i < |s.tasks| && s.tasks[i].pc.Recording? && s.tasks[i].pc.at < |s.pool| && rec.verdict.Some?
    requires rec.proof == s.pool[s.tasks[i].pc.at].proof && rec.round == s.pool[s.tasks[i].pc.at].round
    ensures Durable(cfg, base, Settle(s, i, rec))
  {
    SettleMoves(s, i, rec);
    RewriteDurable(cfg, base, s, Settle(s, i, rec), i);
  }

  lemma ConcludeDurable(cfg: Config, base: seq<Entry>, s: State, i: nat)
    requires Durable(cfg, base, s) && Enabled(cfg, s, Conclude(i))
    ensures Durable(cfg, base, Conclusion(cfg, s, i))
  {
    DoneDurable(cfg, base, s, i);
    SettleDurable(cfg, base, s, i, Judged(cfg, s.pool[s.tasks[i].pc.at], s.tasks[i].pc.seats));
  }

  /** A round starts with no panel and with samples of its own number, none of them requested yet. */
  lemma RoundDurable(cfg: Config, base: seq<Entry>, s: State, parents: seq<nat>)
    requires Durable(cfg, base, s) && ValidConfig(cfg)
    ensures Durable(cfg, base, BeginRound(cfg, s, parents))
  {
    var s' := BeginRound(cfg, s, parents);
    Launching.RefineTasksFacts(s.round + 1, 0, cfg.checkpoints, 0, parents);
    forall t | t in s'.tasks ensures OfRound(cfg.prompts, t.id, s'.round) && t.pc == Idle && t.id !in s'.issued {
      assert Launching.RefinementTask(t, s'.round, cfg.checkpoints, parents);
    }
    forall j | 0 <= j < |s'.tasks| ensures TaskOk(cfg, s'.pool, s'.issued, Ids(s'.rows), s'.tasks[j]) && s'.tasks[j].pc == Idle {
      assert s'.tasks[j] in s'.tasks;
    }
  }

  lemma AbortDurable(cfg: Config, base: seq<Entry>, s: State)
    requires Durable(cfg, base, s)
    ensures Durable(cfg, base, Next(cfg, s, Abort))
  {
    var s' := Next(cfg, s, Abort);
    forall t | t in s'.tasks ensures OfRound(cfg.prompts, t.id, s'.round) {
      var j :| 0 <= j < |s'.tasks| && s'.tasks[j] == t;
      assert s.tasks[j] in s.tasks;
    }
    forall j | 0 <= j < |s'.tasks| ensures TaskOk(cfg, s'.pool, s'.issued, Ids(s'.rows), s'.tasks[j]) {
      assert TaskOk(cfg, s.pool, s.issued, Ids(s.rows), s.tasks[j]);
    }
  }

  /** Every step keeps the invariant. */
  lemma StepDurable(cfg: Config, base: seq<Entry>, s: State, ev: Event)
    requires ValidConfig(cfg) && Durable(cfg, base, s) && Enabled(cfg, s, ev)
    ensures Durable(cfg, base, Next(cfg, s, ev))
  {
    match ev
    case Start(i) => BeginDurable(cfg, base, s, i);
    case Deliver(i, resp) => DeliverDurable(cfg, base, s, i, resp);
    case Park(i) => DoneDurable(cfg, base, s, i);
    case Fail(i) => DoneDurable(cfg, base, s, i);
    case Drop(i) => DoneDurable(cfg, base, s, i);
    case Write(i) => WriteDurable(cfg, base, s, i);
    case LoseWrite(i) => DoneDurable(cfg, base, s, i);
    case Resume(i) => DoneDurable(cfg, base, s, i); AdmitDurable(cfg, base, s, i, s.tasks[i].pc.resp);
    case SeatStart(i, a, b) => BeginSeatDurable(cfg, base, s, i, a, b);
    case SeatDeliver(i, a, b, resp) => SettleSeatDurable(cfg, base, s, i, a, b, Sent, Got(resp, true));
    case SeatPark(i, a, b) => SettleSeatDurable(cfg, base, s, i, a, b, Sent, Parked);
    case SeatFail(i, a, b) => SettleSeatDurable(cfg, base, s, i, a, b, Sent, Fatal);
    case SeatDrop(i, a, b) => SettleSeatDurable(cfg, base, s, i, a, b, s.tasks[i].pc.seats[a][b], Dropped);
    case Gather(i) => GatherDurable(cfg, base, s, i);
    case WriteVote(i, a, b) => WriteVoteDurable(cfg, base, s, i, a, b);
    case Leave(i) => DoneDurable(cfg, base, s, i);
    case Conclude(i) => ConcludeDurable(cfg, base, s, i);
    case NextRound => RoundDurable(cfg, base, s, Parents(cfg, s.pool));
    case Abort => AbortDurable(cfg, base, s);
  }

  // ---- launches and histories -------------------------------------------------------

  lemma {:induction false} ScanKeys(disk: seq<Entry>)
    ensures forall id :: id in Scan(disk) <==> id in Ids(disk)
  {
    if disk != [] {
      var front := disk[..|disk| - 1];
      ScanKeys(front);
      assert Ids(disk) == Ids(front) + [disk[|disk| - 1].id];
    }
  }

  lemma InitDurable(cfg: Config, disk: seq<Entry>)
    requires ValidConfig(cfg)
    ensures Durable(cfg, disk, Init(cfg, disk))
  {
    var s := Init(cfg, disk);
    ScanKeys(disk);
    Launching.Round1TasksFacts(cfg.prompts, cfg.checkpoints, 0);
    forall t | t in s.tasks ensures OfRound(cfg.prompts, t.id, 1) && t.pc == Idle {
      assert Launching.GenerationTask(t, cfg.prompts, cfg.checkpoints);
    }
    forall j | 0 <= j < |s.tasks| ensures TaskOk(cfg, s.pool, s.issued, Ids(s.rows), s.tasks[j]) && s.tasks[j].pc == Idle {
      assert s.tasks[j] in s.tasks;
    }
  }

  lemma {:induction false} RunDurable(cfg: Config, base: seq<Entry>, s: State, run: seq<Event>)
    requires ValidConfig(cfg) && Durable(cfg, base, s) && Legal(cfg, s, run)
    ensures Durable(cfg, base, Exec(cfg, s, run))
    decreases run
  {
    if run != [] {
      StepDurable(cfg, base, s, run[0]);
      RunDurable(cfg, base, Next(cfg, s, run[0]), run[1..]);
    }
  }

  /**
   * One launch over any disk, however it interleaves and wherever it dies: no identity is requested twice,
   * none that has a row on disk is requested at all, and each request leaves at most one row.
   */
  lemma OneRequestPerIdentity(cfg: Config, disk: seq<Entry>, run: seq<Event>)
    requires ValidConfig(cfg) && Legal(cfg, Init(cfg, disk), run)
    ensures var s := Exec(cfg, Init(cfg, disk), run);
      && NoDup(s.issued) && (forall id :: id in s.issued ==> id !in Ids(disk))
      && NoDup(Ids(s.rows)) && (forall id :: id in Ids(s.rows) ==> id in s.issued)
  {
    InitDurable(cfg, disk);
    RunDurable(cfg, disk, Init(cfg, disk), run);
  }

  lemma IdsConcat(a: seq<Entry>, b: seq<Entry>)
    ensures Ids(a + b) == Ids(a) + Ids(b)
  {
  }

  /** Any history of launches only appends, and what it appends holds each identity once and none that was there. */
  lemma {:induction false} OneRowPerIdentity(cfg: Config, disk: seq<Entry>, launches: seq<seq<Event>>)
    requires ValidConfig(cfg) && LegalHistory(cfg, disk, launches)
    ensures var after := DiskAfter(cfg, disk, launches);
      && disk <= after && NoDup(Ids(after[|disk|..])) && (forall id :: id in Ids(after[|disk|..]) ==> id !in Ids(disk))
    decreases launches
  {
    if launches != [] {
      var rows := Exec(cfg, Init(cfg, disk), launches[0]).rows;
      OneRequestPerIdentity(cfg, disk, launches[0]);
      OneRowPerIdentity(cfg, disk + rows, launches[1..]);
      var after := DiskAfter(cfg, disk, launches);
      AppendFresh(disk, rows, after);
    }
  }

  lemma AppendFresh(disk: seq<Entry>, rows: seq<Entry>, after: seq<Entry>)
    requires disk + rows <= after && NoDup(Ids(rows)) && NoDup(Ids(after[|disk + rows|..]))
    requires forall id :: id in Ids(rows) ==> id !in Ids(disk)
    requires forall id :: id in Ids(after[|disk + rows|..]) ==> id !in Ids(disk + rows)
    ensures disk <= after && NoDup(Ids(after[|disk|..])) && forall id :: id in Ids(after[|disk|..]) ==> id !in Ids(disk)
  {
    var more := after[|disk + rows|..];
    assert after[|disk|..] == rows + more;
    IdsConcat(disk, rows);
    IdsConcat(rows, more);
    NoDupConcat(Ids(rows), Ids(more));
  }

  /** So a directory with one row per identity, the empty one above all, keeps one row per identity for ever. */
  lemma DirectoryStaysTidy(cfg: Config, disk: seq<Entry>, launches: seq<seq<Event>>)
    requires ValidConfig(cfg) && LegalHistory(cfg, disk, launches) && NoDup(Ids(disk))
    ensures NoDup(Ids(DiskAfter(cfg, disk, launches)))
  {
    OneRowPerIdentity(cfg, disk, launches);
    var after := DiskAfter(cfg, disk, launches);
    assert after == disk + after[|disk|..];
    IdsConcat(disk, after[|disk|..]);
    NoDupConcat(Ids(disk), Ids(after[|disk|..]));
  }

  /** No two entries answer one identity. */
  ghost predicate OneAnswer(disk: seq<Entry>) {
    forall d, e :: d in disk && e in disk && d.id == e.id ==> d == e
  }

  lemma NoDupOneAnswer(disk: seq<Entry>)
    requires NoDup(Ids(disk))
    ensures OneAnswer(disk)
  {
    forall d, e | d in disk && e in disk && d.id == e.id ensures d == e {
      var i, j :| 0 <= i < |disk| && disk[i] == d && 0 <= j < |disk| && disk[j] == e;
      assert Ids(disk)[i] == Ids(disk)[j];
    }
  }

  lemma {:induction false} ScanOfOne(disk: seq<Entry>, e: Entry)
    requires OneAnswer(disk) && e in disk
    ensures e.id in Scan(disk) && Scan(disk)[e.id] == e.resp
  {
    var front, last := disk[..|disk| - 1], disk[|disk| - 1];
    assert disk == front + [last];
    ScanKeys(front);
    if e in front {
      ScanOfOne(front, e);
    } else {
      forall k | 0 <= k < |front| ensures front[k].id != e.id {
        assert front[k] in front && front[k] in disk;
      }
    }
  }

  /** A row keeps its answer: rows of other identities never change what a lookup finds. */
  lemma {:induction false} ScanExtends(disk: seq<Entry>, more: seq<Entry>, id: WorkId)
    requires id in Ids(disk) && id !in Ids(more)
    ensures id in Scan(disk) && id in Scan(disk + more) && Scan(disk + more)[id] == Scan(disk)[id]
    decreases more
  {
    ScanKeys(disk);
    if more == [] {
      assert disk + more == disk;
    } else {
      var front, e := more[..|more| - 1], more[|more| - 1];
      assert Ids(more) == Ids(front) + [e.id];
      assert (disk + more)[..|disk + more| - 1] == disk + front;
      ScanExtends(disk, front, id);
    }
  }

  /** Across any history the answer an identity had on disk is the answer every later launch replays. */
  lemma AnswersNeverChange(cfg: Config, disk: seq<Entry>, launches: seq<seq<Event>>, id: WorkId)
    requires ValidConfig(cfg) && LegalHistory(cfg, disk, launches) && id in Ids(disk)
    ensures id in Scan(disk) && id in Scan(DiskAfter(cfg, disk, launches))
    ensures Scan(DiskAfter(cfg, disk, launches))[id] == Scan(disk)[id]
  {
    OneRowPerIdentity(cfg, disk, launches);
    var after := DiskAfter(cfg, disk, launches);
    assert after == disk + after[|disk|..];
    ScanExtends(disk, after[|disk|..], id);
  }

  // ---- what a scan answers --------------------------------------------------------------------------

  ghost predicate NoRow(disk: seq<Entry>, n: nat, id: WorkId)
    requires n <= |disk|
  {
    forall j :: 0 <= j < n ==> disk[j].id != id
  }

  ghost predicate NoCompleteRow(disk: seq<Entry>, n: nat, id: WorkId)
    requires n <= |disk|
  {
    forall j :: 0 <= j < n && disk[j].id == id ==> !IsCompleteFinishReason(disk[j].resp.finish)
  }

  /** Row `k` is the winner of its identity: the first complete row, or without one the first row. */
  ghost predicate Wins(disk: seq<Entry>, k: nat, id: WorkId) {
    && k < |disk| && disk[k].id == id
    && if IsCompleteFinishReason(disk[k].resp.finish) then NoCompleteRow(disk, k, id)
       else NoRow(disk, k, id) && NoCompleteRow(disk, |disk|, id)
  }

  lemma PrefixRows(disk: seq<Entry>, m: nat, n: nat, id: WorkId)
    requires m <= n <= |disk|
    ensures NoRow(disk[..n], m, id) == NoRow(disk, m, id) && NoCompleteRow(disk[..n], m, id) == NoCompleteRow(disk, m, id)
  {
    assert forall j :: 0 <= j < m ==> disk[..n][j] == disk[j];
  }

  /** The scan of any directory answers exactly the identities with a row, each with its winner. */
  lemma {:induction false} ScanMeaning(disk: seq<Entry>, id: WorkId)
    ensures id in Scan(disk) <==> !NoRow(disk, |disk|, id)
    ensures id in Scan(disk) ==> exists k: nat :: Wins(disk, k, id) && Scan(disk)[id] == disk[k].resp
  {
    if disk != [] {
      var n := |disk| - 1;
      ScanMeaning(disk[..n], id);
      PrefixRows(disk, n, n, id);
      if id in Scan(disk[..n]) {
        var k: nat :| Wins(disk[..n], k, id) && Scan(disk[..n])[id] == disk[..n][k].resp;
        PrefixRows(disk, k, n, id);
        OneMoreRow(disk, k, id);
      } else if disk[n].id == id {
        assert Wins(disk, n, id) && Scan(disk)[id] == disk[n].resp;
      }
    }
  }

  /** One more row takes over only if it is the first complete one of its identity. */
  lemma OneMoreRow(disk: seq<Entry>, k: nat, id: WorkId)
    requires disk != [] && Wins(disk[..|disk| - 1], k, id) && id in Scan(disk[..|disk| - 1]) && Scan(disk[..|disk| - 1])[id] == disk[k].resp
    requires NoCompleteRow(disk[..|disk| - 1], |disk| - 1, id) == NoCompleteRow(disk, |disk| - 1, id)
    requires NoRow(disk[..|disk| - 1], k, id) == NoRow(disk, k, id) && NoCompleteRow(disk[..|disk| - 1], k, id) == NoCompleteRow(disk, k, id)
    ensures id in Scan(disk) && exists w: nat :: Wins(disk, w, id) && Scan(disk)[id] == disk[w].resp
  {
    var n := |disk| - 1;
    if disk[n].id == id && !CompleteResponse(disk[k].resp) && CompleteResponse(disk[n].resp) {
      assert Wins(disk, n, id) && Scan(disk)[id] == disk[n].resp;
    } else {
      assert Wins(disk, k, id) && Scan(disk)[id] == disk[k].resp;
    }
  }
}
