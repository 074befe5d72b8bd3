/**
 * The per-problem search (orchestrator.py) as a step machine. One step is the code between two awaits
 * of one task, or one thing the outside does to a task: deliver a response, park or fail a request,
 * finish a write, cancel. A crash is a run that simply takes no further step.
 */
module Search {
  import opened Options
  import opened Text
  import Ranking
  import Scoring
  import Critiques

  // ---- configuration -------------------------------------------------------

  /** What a request returns: the generated text and why it ended. */
  datatype Response = Response(text: string, finish: Option<string>)

  datatype Parsed = Parsed(proof: string, selfEval: Ranking.Float, valid: bool)

  datatype Checkpoint = Checkpoint(id: string, generationSamples: nat, refinementSamples: nat)

  /**
   * `parseProof` stands for `parse_proof`, and `parseVote` for `parse_verification_score` on a complete
   * response and nothing otherwise: fixed functions of the response.
   */
  datatype Config = Config(
    prompts: seq<string>, checkpoints: seq<Checkpoint>, verifiers: seq<string>, judgments: nat,
    maxRounds: nat, parentsPerRound: nat,
    parseProof: Response -> Parsed, parseVote: Response -> Option<real>)

  /** What configuration loading guarantees: non-empty lists, distinct ids, positive counts. */
  ghost predicate ValidConfig(cfg: Config) {
    && cfg.prompts != [] && NoDup(cfg.prompts)
    && cfg.checkpoints != [] && (forall i, j :: 0 <= i < j < |cfg.checkpoints| ==> cfg.checkpoints[i].id != cfg.checkpoints[j].id)
    && (forall c :: c in cfg.checkpoints ==> c.generationSamples > 0 && c.refinementSamples > 0)
    && cfg.verifiers != [] && NoDup(cfg.verifiers)
    && cfg.judgments > 0 && cfg.maxRounds > 0 && cfg.parentsPerRound > 0
  }

  // ---- work, rows, records -------------------------------------------------

  /** What a request computes. */
  datatype WorkId =
    | Generate(prompt: string, model: string, slot: nat)
    | Refine(round: nat, trial: nat, model: string, slot: nat)
    | Vote(round: nat, proof: string, verifier: string, slot: nat)

  /** One persisted response row. */
  datatype Entry = Entry(id: WorkId, resp: Response)

  datatype Origin = Origin(id: WorkId, seed: nat)

  datatype Record = Record(
    proof: string, selfEval: Ranking.Float, round: nat, seed: nat, model: string,
    deps: seq<nat>, origins: seq<Origin>, id: nat,
    scores: seq<seq<Option<real>>>, verdict: Option<Scoring.PanelVerdict>,
    critiques: seq<Critiques.Critique>, accepted: bool)

  /** One request of a panel; `unsaved` marks a fresh response whose row is not on disk yet. */
  datatype Seat = Unsent | Sent | Got(resp: Response, unsaved: bool) | Parked | Fatal | Dropped

  /** Where a sample task is suspended. `at` is the place of its record in the pool. */
  datatype Pc =
    | Idle
    | Asking
    | Saving(resp: Response)
    | Saved(resp: Response)
    | Voting(at: nat, seats: seq<seq<Seat>>)
    | Recording(at: nat, seats: seq<seq<Seat>>, interrupted: bool)
    | Done

  datatype Task = Task(id: WorkId, model: string, round: nat, seed: nat, deps: seq<nat>, pc: Pc, cancelled: bool)

  /**
   * `pool` holds the records in registration order, as the `proofs` dictionary does; `finalists` names
   * places in it. `rows` are the response rows appended since launch. `issued` and `admitted` only
   * record history: the requests sent, and the valid responses that reached the pool.
   */
  datatype State = State(
    ledger: map<WorkId, Response>, rows: seq<Entry>, issued: seq<WorkId>, admitted: seq<Origin>,
    tasks: seq<Task>, pool: seq<Record>, nextId: nat, finalists: map<string, nat>, stopped: set<string>,
    round: nat, failed: bool, aborting: bool)

  // ---- the ledger of a launch ----------------------------------------------

  predicate CompleteResponse(r: Response) {
    IsCompleteFinishReason(r.finish)
  }

  /** The first complete row of an identity wins, else its first row. */
  function Scan(disk: seq<Entry>): map<WorkId, Response> {
    if disk == [] then map[]
    else
      var m, e := Scan(disk[..|disk| - 1]), disk[|disk| - 1];
      if e.id in m && (CompleteResponse(m[e.id]) || !CompleteResponse(e.resp)) then m else m[e.id := e.resp]
  }

  function Ids(rows: seq<Entry>): (r: seq<WorkId>)
    ensures |r| == |rows| && forall k :: 0 <= k < |rows| ==> r[k] == rows[k].id
  {
    seq(|rows|, k requires 0 <= k < |rows| => rows[k].id)
  }

  // ---- launching a round -----------------------------------------------------

  function NewTask(id: WorkId, model: string, round: nat, seed: nat, deps: seq<nat>): Task {
    Task(id, model, round, seed, deps, Idle, false)
  }

  function SlotTasks(prompt: string, model: string, n: nat, seed: nat): (r: seq<Task>)
    ensures |r| == n && forall k :: 0 <= k < n ==> r[k] == NewTask(Generate(prompt, model, k), model, 1, seed + k, [])
  {
    seq(n, k requires 0 <= k < n => NewTask(Generate(prompt, model, k), model, 1, seed + k, []))
  }

  function ModelTasks(prompt: string, checkpoints: seq<Checkpoint>, seed: nat): seq<Task> {
    if checkpoints == [] then []
    else SlotTasks(prompt, checkpoints[0].id, checkpoints[0].generationSamples, seed) +
         ModelTasks(prompt, checkpoints[1..], seed + checkpoints[0].generationSamples)
  }

  function GenerationSum(checkpoints: seq<Checkpoint>): nat {
    if checkpoints == [] then 0 else checkpoints[0].generationSamples + GenerationSum(checkpoints[1..])
  }

  function Round1Tasks(prompts: seq<string>, checkpoints: seq<Checkpoint>, seed: nat): seq<Task> {
    if prompts == [] then []
    else ModelTasks(prompts[0], checkpoints, seed) + Round1Tasks(prompts[1..], checkpoints, seed + GenerationSum(checkpoints))
  }

  function RefineSlotTasks(round: nat, trial: nat, model: string, n: nat, seed: nat, parent: nat): (r: seq<Task>)
    ensures |r| == n && forall k :: 0 <= k < n ==> r[k] == NewTask(Refine(round, trial, model, k), model, round, seed + k, [parent])
  {
    seq(n, k requires 0 <= k < n => NewTask(Refine(round, trial, model, k), model, round, seed + k, [parent]))
  }

  function RefineModelTasks(round: nat, trial: nat, checkpoints: seq<Checkpoint>, seed: nat, parent: nat): seq<Task> {
    if checkpoints == [] then []
    else RefineSlotTasks(round, trial, checkpoints[0].id, checkpoints[0].refinementSamples, seed, parent) +
         RefineModelTasks(round, trial, checkpoints[1..], seed + checkpoints[0].refinementSamples, parent)
  }

  function RefinementSum(checkpoints: seq<Checkpoint>): nat {
    if checkpoints == [] then 0 else checkpoints[0].refinementSamples + RefinementSum(checkpoints[1..])
  }

  /** One trial per parent, from trial number `trial` on; `parents` are proof ids. */
  function RefineTasks(round: nat, trial: nat, checkpoints: seq<Checkpoint>, seed: nat, parents: seq<nat>): seq<Task>
    decreases parents
  {
    if parents == [] then []
    else RefineModelTasks(round, trial, checkpoints, seed, parents[0]) +
         RefineTasks(round, trial + 1, checkpoints, seed + RefinementSum(checkpoints), parents[1..])
  }

  function Init(cfg: Config, disk: seq<Entry>): State {
    State(Scan(disk), [], [], [], Round1Tasks(cfg.prompts, cfg.checkpoints, 0), [], 1, map[], {}, 1, false, false)
  }

  // ---- admission: orchestrator.py:452-487 -------------------------------------

  function SetPc(s: State, i: nat, pc: Pc): State
    requires i < |s.tasks|
  {
    s.(tasks := s.tasks[i := s.tasks[i].(pc := pc)])
  }

  function Find(pool: seq<Record>, proof: string): (r: Option<nat>)
    ensures r.Some? ==> r.value < |pool| && pool[r.value].proof == proof
    ensures r.None? ==> forall p :: 0 <= p < |pool| ==> pool[p].proof != proof
  {
    if pool == [] then None
    else if pool[|pool| - 1].proof == proof then Some(|pool| - 1)
    else Find(pool[..|pool| - 1], proof)
  }

  /** Appends the dependencies not listed yet. */
  function MergeDeps(have: seq<nat>, more: seq<nat>): seq<nat>
    decreases more
  {
    if more == [] then have
    else MergeDeps(if more[0] in have then have else have + [more[0]], more[1..])
  }

  function Merge(rec: Record, t: Task): Record {
    rec.(origins := rec.origins + [Origin(t.id, t.seed)], deps := MergeDeps(rec.deps, t.deps))
  }

  function NewRecord(p: Parsed, t: Task, id: nat): Record {
    Record(p.proof, p.selfEval, t.round, t.seed, t.model, t.deps, [Origin(t.id, t.seed)], id, [], None, [], false)
  }

  function EmptyPanel(cfg: Config): (r: seq<seq<Seat>>)
    ensures Shaped(cfg, r)
    ensures forall a, b :: InPanel(cfg, a, b) ==> r[a][b] == Unsent
  {
    seq(|cfg.verifiers|, a requires 0 <= a < |cfg.verifiers| => seq(cfg.judgments, b requires 0 <= b < cfg.judgments => Unsent))
  }

  predicate InPanel(cfg: Config, a: int, b: int) {
    0 <= a < |cfg.verifiers| && 0 <= b < cfg.judgments
  }

  predicate Shaped(cfg: Config, seats: seq<seq<Seat>>) {
    |seats| == |cfg.verifiers| && forall a :: 0 <= a < |seats| ==> |seats[a]| == cfg.judgments
  }

  /** A response is in hand: drop it, merge it into a known proof, or register a new proof and open its panel. */
  function Admit(cfg: Config, s: State, i: nat, resp: Response): State
    requires i < |s.tasks|
  {
    var t, p := s.tasks[i], cfg.parseProof(resp);
    if t.model in s.stopped || !p.valid then SetPc(s, i, Done)
    else
      var s1 := s.(admitted := s.admitted + [Origin(t.id, t.seed)]);
      match Find(s.pool, p.proof)
      case Some(k) => SetPc(s1.(pool := s.pool[k := Merge(s.pool[k], t)]), i, Done)
      case None =>
        SetPc(s1.(pool := s.pool + [NewRecord(p, t, s.nextId)], nextId := s.nextId + 1), i, Voting(|s.pool|, EmptyPanel(cfg)))
  }

  // ---- the panel: orchestrator.py:320-400 ---------------------------------------

  function VoteId(cfg: Config, rec: Record, a: nat, b: nat): WorkId
    requires InPanel(cfg, a, b)
  {
    Vote(rec.round, rec.proof, cfg.verifiers[a], b)
  }

  function SetSeat(seats: seq<seq<Seat>>, a: nat, b: nat, seat: Seat): (r: seq<seq<Seat>>)
    requires a < |seats| && b < |seats[a]|
    ensures |r| == |seats| && forall x :: 0 <= x < |seats| ==> |r[x]| == |seats[x]|
    ensures forall x, y :: 0 <= x < |seats| && 0 <= y < |seats[x]| ==> r[x][y] == if x == a && y == b then seat else seats[x][y]
  {
    seats[a := seats[a][b := seat]]
  }

  predicate Settled(seat: Seat) {
    seat != Unsent && seat != Sent
  }

  predicate AllSettled(seats: seq<seq<Seat>>) {
    forall a, b :: 0 <= a < |seats| && 0 <= b < |seats[a]| ==> Settled(seats[a][b])
  }

  predicate SomeSeat(seats: seq<seq<Seat>>, seat: Seat) {
    exists a, b :: 0 <= a < |seats| && 0 <= b < |seats[a]| && seats[a][b] == seat
  }

  predicate NothingUnsaved(seats: seq<seq<Seat>>) {
    forall a, b :: 0 <= a < |seats| && 0 <= b < |seats[a]| && seats[a][b].Got? ==> !seats[a][b].unsaved
  }

  /** Rows are written in panel order. */
  predicate EarlierSaved(seats: seq<seq<Seat>>, a: nat, b: nat) {
    forall x, y :: 0 <= x < |seats| && 0 <= y < |seats[x]| && (x < a || (x == a && y < b)) && seats[x][y].Got? ==> !seats[x][y].unsaved
  }

  /** After a cancellation only finished responses count. */
  function KeepFinished(seat: Seat): Seat {
    if seat.Got? then seat else Dropped
  }

  function KeepFinishedAll(seats: seq<seq<Seat>>): (r: seq<seq<Seat>>)
    ensures |r| == |seats| && forall a :: 0 <= a < |seats| ==> |r[a]| == |seats[a]|
    ensures forall a, b :: 0 <= a < |seats| && 0 <= b < |seats[a]| ==> r[a][b] == KeepFinished(seats[a][b])
  {
    seq(|seats|, a requires 0 <= a < |seats| => seq(|seats[a]|, b requires 0 <= b < |seats[a]| => KeepFinished(seats[a][b])))
  }

  function RowScores(cfg: Config, row: seq<Seat>): seq<Option<real>> {
    if row == [] then []
    else (if row[0].Got? then [cfg.parseVote(row[0].resp)] else []) + RowScores(cfg, row[1..])
  }

  function PanelScores(cfg: Config, seats: seq<seq<Seat>>): (r: seq<seq<Option<real>>>)
    ensures |r| == |seats| && forall a :: 0 <= a < |seats| ==> r[a] == RowScores(cfg, seats[a])
  {
    seq(|seats|, a requires 0 <= a < |seats| => RowScores(cfg, seats[a]))
  }

  function RowCandidates(cfg: Config, verifier: string, row: seq<Seat>, slot: nat): seq<Critiques.Critique> {
    if row == [] then []
    else
      (if row[0].Got? && cfg.parseVote(row[0].resp).Some?
       then [Critiques.Critique(StripThink(row[0].resp.text), cfg.parseVote(row[0].resp).value, verifier, slot)] else []) +
      RowCandidates(cfg, verifier, row[1..], slot + 1)
  }

  function Candidates(cfg: Config, seats: seq<seq<Seat>>, a: nat): seq<Critiques.Critique>
    requires a <= |seats| == |cfg.verifiers|
    decreases |seats| - a
  {
    if a == |seats| then [] else RowCandidates(cfg, cfg.verifiers[a], seats[a], 0) + Candidates(cfg, seats, a + 1)
  }

  /** The record once its panel has concluded. */
  function Judged(cfg: Config, rec: Record, seats: seq<seq<Seat>>): (r: Record)
    requires Shaped(cfg, seats) && |cfg.verifiers| > 0 && cfg.judgments > 0
    ensures r == rec.(scores := r.scores, verdict := r.verdict, critiques := r.critiques) && r.verdict.Some?
  {
    var scores := PanelScores(cfg, seats);
    var verdict := Scoring.Verdict(scores, cfg.judgments, false);
    rec.(scores := scores, verdict := Some(verdict),
         critiques := if verdict.complete then Critiques.Retain(Candidates(cfg, seats, 0), cfg.verifiers) else [])
  }

  function FlagModel(tasks: seq<Task>, model: string, me: nat): (r: seq<Task>)
    ensures |r| == |tasks|
    ensures forall j :: 0 <= j < |tasks| ==>
      r[j] == if tasks[j].model == model && j != me && tasks[j].pc != Done then tasks[j].(cancelled := true) else tasks[j]
  {
    seq(|tasks|, j requires 0 <= j < |tasks| =>
      if tasks[j].model == model && j != me && tasks[j].pc != Done then tasks[j].(cancelled := true) else tasks[j])
  }

  /** `_on_accepted`, run by task `me` for the record at `at`. */
  function OnAccepted(s: State, at: nat, me: nat): State
    requires at < |s.pool|
  {
    var model := s.pool[at].model;
    var s1 := s.(pool := s.pool[at := s.pool[at].(accepted := true)]);
    if model in s.finalists then s1
    else s1.(finalists := s.finalists[model := at], stopped := s.stopped + {model}, tasks := FlagModel(s.tasks, model, me))
  }

  /** The record of task `i` has its verdict: the task ends, and an acceptance stops the checkpoint. */
  function Settle(s: State, i: nat, rec: Record): State
    requires i < |s.tasks| && s.tasks[i].pc.Recording? && s.tasks[i].pc.at < |s.pool| && rec.verdict.Some?
  {
    var at := s.tasks[i].pc.at;
    var s1 := SetPc(s, i, Done).(pool := s.pool[at := rec]);
    if rec.verdict.value.accepted then OnAccepted(s1, at, i) else s1
  }

  /** The tail of `_verify_proof`, once every vote row is on disk. */
  function Conclusion(cfg: Config, s: State, i: nat): State
    requires i < |s.tasks| && s.tasks[i].pc.Recording? && s.tasks[i].pc.at < |s.pool|
    requires Shaped(cfg, s.tasks[i].pc.seats) && |cfg.verifiers| > 0 && cfg.judgments > 0
  {
    var pc := s.tasks[i].pc;
    if SomeSeat(pc.seats, Fatal) then SetPc(s, i, Done).(failed := true)
    else if pc.interrupted then SetPc(s, i, Done)
    else Settle(s, i, Judged(cfg, s.pool[pc.at], pc.seats))
  }

  // ---- rounds -------------------------------------------------------------------

  predicate IsEvidence(rec: Record) {
    rec.verdict.Some? && rec.verdict.value.complete
  }

  function PooledOf(rec: Record): Ranking.Pooled {
    Ranking.Pooled(rec.proof, if rec.verdict.Some? then rec.verdict.value.mean else 0.0, rec.selfEval, rec.round, rec.id)
  }

  /** The pool records with a complete panel, in registration order. */
  function Evidence(pool: seq<Record>): seq<Ranking.Pooled> {
    if pool == [] then []
    else Evidence(pool[..|pool| - 1]) + (if IsEvidence(pool[|pool| - 1]) then [PooledOf(pool[|pool| - 1])] else [])
  }

  function ProofIds(parents: seq<Ranking.Pooled>): (r: seq<nat>)
    requires forall p :: p in parents ==> p.proofId >= 0
    ensures |r| == |parents| && forall k :: 0 <= k < |parents| ==> r[k] == parents[k].proofId
  {
    seq(|parents|, k requires 0 <= k < |parents| => assert parents[k] in parents; parents[k].proofId)
  }

  lemma {:induction false} EvidenceMembers(pool: seq<Record>)
    ensures forall p :: p in Evidence(pool) <==> exists k :: 0 <= k < |pool| && IsEvidence(pool[k]) && PooledOf(pool[k]) == p
  {
    if pool != [] {
      var front := pool[..|pool| - 1];
      EvidenceMembers(front);
      forall p | exists k :: 0 <= k < |pool| && IsEvidence(pool[k]) && PooledOf(pool[k]) == p
        ensures p in Evidence(pool)
      {
        var k :| 0 <= k < |pool| && IsEvidence(pool[k]) && PooledOf(pool[k]) == p;
        if k < |front| { assert front[k] == pool[k]; }
      }
      forall p | p in Evidence(pool)
        ensures exists k :: 0 <= k < |pool| && IsEvidence(pool[k]) && PooledOf(pool[k]) == p
      {
        if p in Evidence(front) {
          var k :| 0 <= k < |front| && IsEvidence(front[k]) && PooledOf(front[k]) == p;
          assert front[k] == pool[k];
        }
      }
    }
  }

  function Parents(cfg: Config, pool: seq<Record>): (r: seq<nat>)
  {
    var ranked := Ranking.SelectRefinementParents(Evidence(pool), cfg.parentsPerRound);
    assert forall p :: p in ranked ==> p.proofId >= 0 by {
      EvidenceMembers(pool);
      Ranking.RankedMembers(Evidence(pool));
      assert forall p :: p in ranked ==> p in Ranking.Ranked(Evidence(pool));
    }
    ProofIds(ranked)
  }

  function BeginRound(cfg: Config, s: State, parents: seq<nat>): State {
    s.(round := s.round + 1, tasks := RefineTasks(s.round + 1, 0, cfg.checkpoints, 0, parents))
  }

  predicate AllDone(s: State) {
    forall i :: 0 <= i < |s.tasks| ==> s.tasks[i].pc == Done
  }

  function FlagAll(tasks: seq<Task>): (r: seq<Task>)
    ensures |r| == |tasks|
    ensures forall j :: 0 <= j < |tasks| ==> r[j] == if tasks[j].pc != Done then tasks[j].(cancelled := true) else tasks[j]
  {
    seq(|tasks|, j requires 0 <= j < |tasks| => if tasks[j].pc != Done then tasks[j].(cancelled := true) else tasks[j])
  }

  // ---- steps ----------------------------------------------------------------------

  /** `i` is a task, `(a, b)` a seat of its panel: judgment `b` of verifier `a`. */
  datatype Event =
    | Start(i: nat)
    | Deliver(i: nat, resp: Response)
    | Park(i: nat)
    | Fail(i: nat)
    | Drop(i: nat)
    | Write(i: nat)
    | LoseWrite(i: nat)
    | Resume(i: nat)
    | SeatStart(i: nat, a: nat, b: nat)
    | SeatDeliver(i: nat, a: nat, b: nat, resp: Response)
    | SeatPark(i: nat, a: nat, b: nat)
    | SeatFail(i: nat, a: nat, b: nat)
    | SeatDrop(i: nat, a: nat, b: nat)
    | Gather(i: nat)
    | WriteVote(i: nat, a: nat, b: nat)
    | Leave(i: nat)
    | Conclude(i: nat)
    | NextRound
    | Abort

  predicate SeatAt(cfg: Config, s: State, i: nat, a: nat, b: nat, seat: Seat) {
    && i < |s.tasks| && s.tasks[i].pc.Voting? && s.tasks[i].pc.at < |s.pool|
    && Shaped(cfg, s.tasks[i].pc.seats) && InPanel(cfg, a, b) && s.tasks[i].pc.seats[a][b] == seat
  }

  predicate Enabled(cfg: Config, s: State, ev: Event) {
    match ev
    case Start(i) => i < |s.tasks| && s.tasks[i].pc == Idle
    case Deliver(i, _) => i < |s.tasks| && s.tasks[i].pc == Asking
    case Park(i) => i < |s.tasks| && s.tasks[i].pc == Asking
    case Fail(i) => i < |s.tasks| && s.tasks[i].pc == Asking
    case Drop(i) => i < |s.tasks| && s.tasks[i].pc == Asking && s.tasks[i].cancelled
    case Write(i) => i < |s.tasks| && s.tasks[i].pc.Saving?
    case LoseWrite(i) => i < |s.tasks| && s.tasks[i].pc.Saving? && s.tasks[i].cancelled && s.aborting
    case Resume(i) => i < |s.tasks| && s.tasks[i].pc.Saved?
    case SeatStart(i, a, b) => SeatAt(cfg, s, i, a, b, Unsent) && !s.tasks[i].cancelled
    case SeatDeliver(i, a, b, _) => SeatAt(cfg, s, i, a, b, Sent)
    case SeatPark(i, a, b) => SeatAt(cfg, s, i, a, b, Sent)
    case SeatFail(i, a, b) => SeatAt(cfg, s, i, a, b, Sent)
    case SeatDrop(i, a, b) => (SeatAt(cfg, s, i, a, b, Unsent) || SeatAt(cfg, s, i, a, b, Sent)) && s.tasks[i].cancelled
    case Gather(i) => i < |s.tasks| && s.tasks[i].pc.Voting? && AllSettled(s.tasks[i].pc.seats)
    case WriteVote(i, a, b) =>
      && i < |s.tasks| && s.tasks[i].pc.Recording? && s.tasks[i].pc.at < |s.pool|
      && Shaped(cfg, s.tasks[i].pc.seats) && InPanel(cfg, a, b)
      && s.tasks[i].pc.seats[a][b].Got? && s.tasks[i].pc.seats[a][b].unsaved
      && EarlierSaved(s.tasks[i].pc.seats, a, b)
    case Leave(i) => i < |s.tasks| && s.tasks[i].pc.Recording? && s.tasks[i].cancelled
    case Conclude(i) =>
      && i < |s.tasks| && s.tasks[i].pc.Recording? && s.tasks[i].pc.at < |s.pool|
      && Shaped(cfg, s.tasks[i].pc.seats) && |cfg.verifiers| > 0 && cfg.judgments > 0
      && NothingUnsaved(s.tasks[i].pc.seats) && !s.tasks[i].cancelled
    case NextRound => AllDone(s) && !s.failed && !s.aborting && s.finalists == map[] && s.round < cfg.maxRounds
    case Abort => true
  }

  /** The first code of a task: a stopped checkpoint's task ends, persisted work replays, the rest is requested. */
  function Begin(cfg: Config, s: State, i: nat): State
    requires i < |s.tasks|
  {
    var t := s.tasks[i];
    if t.cancelled || t.model in s.stopped then SetPc(s, i, Done)
    else if t.id in s.ledger then Admit(cfg, s, i, s.ledger[t.id])
    else SetPc(s, i, Asking).(issued := s.issued + [t.id])
  }

  function BeginSeat(cfg: Config, s: State, i: nat, a: nat, b: nat): State
    requires SeatAt(cfg, s, i, a, b, Unsent)
  {
    var pc := s.tasks[i].pc;
    var id := VoteId(cfg, s.pool[pc.at], a, b);
    if id in s.ledger then SetPc(s, i, Voting(pc.at, SetSeat(pc.seats, a, b, Got(s.ledger[id], false))))
    else SetPc(s, i, Voting(pc.at, SetSeat(pc.seats, a, b, Sent))).(issued := s.issued + [id])
  }

  function SettleSeat(s: State, i: nat, a: nat, b: nat, seat: Seat): State
    requires i < |s.tasks| && s.tasks[i].pc.Voting? && a < |s.tasks[i].pc.seats| && b < |s.tasks[i].pc.seats[a]|
  {
    SetPc(s, i, Voting(s.tasks[i].pc.at, SetSeat(s.tasks[i].pc.seats, a, b, seat)))
  }

  /** The gather returns: a cancellation seen here is consumed and remembered as an interruption. */
  function Gathered(s: State, i: nat): State
    requires i < |s.tasks| && s.tasks[i].pc.Voting?
  {
    var t := s.tasks[i];
    var seats := if t.cancelled then KeepFinishedAll(t.pc.seats) else t.pc.seats;
    s.(tasks := s.tasks[i := t.(pc := Recording(t.pc.at, seats, t.cancelled || SomeSeat(seats, Dropped)), cancelled := false)])
  }

  function Next(cfg: Config, s: State, ev: Event): State
    requires Enabled(cfg, s, ev)
  {
    match ev
    case Start(i) => Begin(cfg, s, i)
    // A response that arrives together with a cancellation wins over it.
    case Deliver(i, resp) => s.(tasks := s.tasks[i := s.tasks[i].(pc := Saving(resp), cancelled := false)])
    case Park(i) => SetPc(s, i, Done)
    case Fail(i) => SetPc(s, i, Done).(failed := true)
    case Drop(i) => SetPc(s, i, Done)
    case Write(i) => SetPc(s, i, Saved(s.tasks[i].pc.resp)).(rows := s.rows + [Entry(s.tasks[i].id, s.tasks[i].pc.resp)])
    case LoseWrite(i) => SetPc(s, i, Done)
    case Resume(i) => if s.tasks[i].cancelled then SetPc(s, i, Done) else Admit(cfg, s, i, s.tasks[i].pc.resp)
    case SeatStart(i, a, b) => BeginSeat(cfg, s, i, a, b)
    case SeatDeliver(i, a, b, resp) => SettleSeat(s, i, a, b, Got(resp, true))
    case SeatPark(i, a, b) => SettleSeat(s, i, a, b, Parked)
    case SeatFail(i, a, b) => SettleSeat(s, i, a, b, Fatal)
    case SeatDrop(i, a, b) => SettleSeat(s, i, a, b, Dropped)
    case Gather(i) => Gathered(s, i)
    case WriteVote(i, a, b) =>
      var pc := s.tasks[i].pc;
      SetPc(s, i, Recording(pc.at, SetSeat(pc.seats, a, b, Got(pc.seats[a][b].resp, false)), pc.interrupted))
        .(rows := s.rows + [Entry(VoteId(cfg, s.pool[pc.at], a, b), pc.seats[a][b].resp)])
    case Leave(i) => SetPc(s, i, Done)
    case Conclude(i) => Conclusion(cfg, s, i)
    case NextRound => BeginRound(cfg, s, Parents(cfg, s.pool))
    case Abort => s.(aborting := true, tasks := FlagAll(s.tasks))
  }

  // ---- runs and histories ------------------------------------------------------------

  ghost predicate Legal(cfg: Config, s: State, run: seq<Event>)
    decreases run
  {
    run == [] || (Enabled(cfg, s, run[0]) && Legal(cfg, Next(cfg, s, run[0]), run[1..]))
  }

  ghost function Exec(cfg: Config, s: State, run: seq<Event>): State
    requires Legal(cfg, s, run)
    decreases run
  {
    if run == [] then s else Exec(cfg, Next(cfg, s, run[0]), run[1..])
  }

  /** A history: each launch scans the disk, takes some steps, and dies; the next launch finds what it wrote. */
  ghost predicate LegalHistory(cfg: Config, disk: seq<Entry>, launches: seq<seq<Event>>)
    decreases launches
  {
    launches == [] ||
    (Legal(cfg, Init(cfg, disk), launches[0]) &&
     LegalHistory(cfg, disk + Exec(cfg, Init(cfg, disk), launches[0]).rows, launches[1..]))
  }

  ghost function DiskAfter(cfg: Config, disk: seq<Entry>, launches: seq<seq<Event>>): seq<Entry>
    requires LegalHistory(cfg, disk, launches)
    decreases launches
  {
    if launches == [] then disk
    else DiskAfter(cfg, disk + Exec(cfg, Init(cfg, disk), launches[0]).rows, launches[1..])
  }
}
