/**
 * The orchestrator as the source keeps it: proof records changed in place, dictionaries and counters updated step by
 * step. Each method is one stretch of code between two awaits, and moves the search exactly as `Search` says.
 */
module Orchestrator {
  import opened Options
  import opened Search
  import opened Text
  import Critiques
  import Outcome
  import Records
  import Ranking
  import Scoring
  import Verdicts

  // ---- one proof --------------------------------------------------------------------

  class ProofRecord {
    const proof: string
    const selfEval: Ranking.Float
    const round: nat
    const seed: nat
    const model: string
    const id: nat
    var deps: seq<nat>
    var origins: seq<Origin>
    var scores: seq<seq<Option<real>>>
    var verdict: Option<Scoring.PanelVerdict>
    var critiques: seq<Critiques.Critique>
    var accepted: bool

    constructor (p: Parsed, t: Task, id: nat)
      ensures View() == NewRecord(p, t, id)
    {
      this.proof, this.selfEval, this.round, this.seed, this.model := p.proof, p.selfEval, t.round, t.seed, t.model;
      this.id, deps, origins := id, t.deps, [Origin(t.id, t.seed)];
      scores, verdict, critiques, accepted := [], None, [], false;
    }

    function View(): Record
      reads this
    {
      Record(proof, selfEval, round, seed, model, deps, origins, id, scores, verdict, critiques, accepted)
    }

    /** The same text came again: the record takes the sample's origin and its new dependencies. */
    method Join(t: Task)
      modifies this
      ensures View() == Merge(old(View()), t)
    {
      origins := origins + [Origin(t.id, t.seed)];
      var d := 0;
      while d < |t.deps|
        invariant d <= |t.deps|
        invariant MergeDeps(deps, t.deps[d..]) == MergeDeps(old(deps), t.deps)
        invariant View() == old(View()).(origins := old(origins) + [Origin(t.id, t.seed)], deps := deps)
      {
        assert t.deps[d..][0] == t.deps[d] && t.deps[d..][1..] == t.deps[d + 1..];
        if t.deps[d] !in deps {
          deps := deps + [t.deps[d]];
        }
        d := d + 1;
      }
    }

    /** The record gets its scores, its verdict and, when the panel is complete, its critiques. */
    method Judge(cfg: Config, ghost seats: seq<seq<Seat>>, scores: seq<seq<Option<real>>>, candidates: seq<Critiques.Critique>)
      requires Shaped(cfg, seats) && |cfg.verifiers| > 0 && cfg.judgments > 0
      requires scores == PanelScores(cfg, seats) && candidates == Candidates(cfg, seats, 0)
      modifies this
      ensures View() == Judged(cfg, old(View()), seats)
    {
      var given := Scoring.Verdict(scores, cfg.judgments, false);
      this.scores, verdict, critiques := scores, Some(given), [];
      if given.complete {
        critiques := Critiques.RetainCritiques(candidates, cfg.verifiers);
      }
    }

    method Accept()
      modifies this
      ensures View() == old(View()).(accepted := true)
    {
      accepted := true;
    }
  }

  // ---- all proofs ---------------------------------------------------------------------

  function Views(records: seq<ProofRecord>): (r: seq<Record>)
    reads records
    ensures |r| == |records| && forall k :: 0 <= k < |r| ==> r[k] == records[k].View()
  {
    seq(|records|, k requires 0 <= k < |records| reads records => records[k].View())
  }

  /** `proofs.get(text)`: the place of the record with this text. */
  function Lookup(records: seq<ProofRecord>, text: string): (r: Option<nat>)
    ensures r.Some? ==> r.value < |records|
  {
    if records == [] then None
    else if records[|records| - 1].proof == text then Some(|records| - 1)
    else Lookup(records[..|records| - 1], text)
  }

  lemma {:induction false} LookupFinds(records: seq<ProofRecord>, pool: seq<Record>, text: string)
    requires |pool| == |records| && forall k :: 0 <= k < |records| ==> pool[k].proof == records[k].proof
    ensures Lookup(records, text) == Find(pool, text)
  {
    if records != [] { LookupFinds(records[..|records| - 1], pool[..|pool| - 1], text); }
  }

  /** The `proofs` dictionary as its values in insertion order, with the counter that numbers them. */
  class ProofPool {
    var records: seq<ProofRecord>
    var nextProofId: nat
    ghost var Repr: set<ProofRecord>

    /** Proof ids count the records from 1. */
    ghost predicate Valid()
      reads this
    {
      nextProofId == |records| + 1 && forall k :: 0 <= k < |records| ==> records[k].id == k + 1 && records[k] in Repr
    }

    ghost function View(): (r: seq<Record>)
      requires Valid()
      reads this, Repr
      ensures |r| == |records|
    {
      Views(records)
    }

    constructor ()
      ensures Valid() && View() == [] && nextProofId == 1 && Repr == {}
    {
      records, nextProofId, Repr := [], 1, {};
    }

    /** A new text: a record with the next proof id. */
    method Add(p: Parsed, t: Task)
      requires Valid()
      modifies this
      ensures Valid() && fresh(Repr - old(Repr)) && nextProofId == old(nextProofId) + 1
      ensures View() == old(View()) + [NewRecord(p, t, old(nextProofId))]
      ensures |records| == |old(records)| + 1 && records[..|old(records)|] == old(records)
    {
      var pr := new ProofRecord(p, t, nextProofId);
      records, Repr, nextProofId := records + [pr], Repr + {pr}, nextProofId + 1;
    }

    /** Other places hold other objects. */
    lemma Apart(k: nat)
      requires Valid() && k < |records|
      ensures forall j :: 0 <= j < |records| && j != k ==> records[j] != records[k]
    {
    }

    method Join(k: nat, t: Task)
      requires Valid() && k < |records|
      modifies Repr
      ensures Valid() && View() == old(View())[k := Merge(old(View())[k], t)]
    {
      Apart(k);
      records[k].Join(t);
      assert View() == old(View())[k := records[k].View()];
    }

    method Judge(k: nat, cfg: Config, ghost seats: seq<seq<Seat>>, scores: seq<seq<Option<real>>>, candidates: seq<Critiques.Critique>)
        returns (accepted: bool)
      requires Valid() && k < |records| && Shaped(cfg, seats) && |cfg.verifiers| > 0 && cfg.judgments > 0
      requires scores == PanelScores(cfg, seats) && candidates == Candidates(cfg, seats, 0)
      modifies Repr
      ensures Valid() && View() == old(View())[k := Judged(cfg, old(View())[k], seats)]
      ensures accepted == Judged(cfg, old(View())[k], seats).verdict.value.accepted
    {
      Apart(k);
      records[k].Judge(cfg, seats, scores, candidates);
      assert View() == old(View())[k := records[k].View()];
      accepted := records[k].verdict.value.accepted;
    }

    method Accept(k: nat)
      requires Valid() && k < |records|
      modifies Repr
      ensures Valid() && View() == old(View())[k := old(View())[k].(accepted := true)]
    {
      Apart(k);
      records[k].Accept();
      assert View() == old(View())[k := records[k].View()];
    }
  }

  // ---- the panel's results --------------------------------------------------------

  /** One of the first `n` rows holds a fatal result. */
  predicate FatalBefore(seats: seq<seq<Seat>>, n: nat)
    requires n <= |seats|
  {
    n > 0 && (FatalBefore(seats, n - 1) || Fatal in seats[n - 1])
  }

  lemma {:induction false} FatalRow(seats: seq<seq<Seat>>, n: nat)
    requires n <= |seats|
    ensures FatalBefore(seats, n) <==> exists a :: 0 <= a < n && Fatal in seats[a]
  {
    if n > 0 {
      FatalRow(seats, n - 1);
    }
  }

  lemma FatalSomewhere(seats: seq<seq<Seat>>)
    ensures SomeSeat(seats, Fatal) <==> FatalBefore(seats, |seats|)
  {
    FatalRow(seats, |seats|);
    if SomeSeat(seats, Fatal) {
      var a, b :| 0 <= a < |seats| && 0 <= b < |seats[a]| && seats[a][b] == Fatal;
      assert Fatal in seats[a];
    }
  }

  /** Taking row `a` into account, with what the rows before it gave. */
  lemma PanelStep(cfg: Config, seats: seq<seq<Seat>>, a: nat, candidates: seq<Critiques.Critique>)
    requires Shaped(cfg, seats) && a < |seats|
    ensures PanelScores(cfg, seats)[..a + 1] == PanelScores(cfg, seats)[..a] + [RowScores(cfg, seats[a])]
    ensures candidates + Candidates(cfg, seats, a) ==
      (candidates + RowCandidates(cfg, cfg.verifiers[a], seats[a], 0)) + Candidates(cfg, seats, a + 1)
    ensures FatalBefore(seats, a + 1) <==> FatalBefore(seats, a) || Fatal in seats[a]
  {
  }

  /** The responses of a settled panel, verifier by verifier: scores, critique candidates, and whether a call was fatal. */
  method Tally(cfg: Config, seats: seq<seq<Seat>>)
      returns (scores: seq<seq<Option<real>>>, candidates: seq<Critiques.Critique>, fatal: bool)
    requires Shaped(cfg, seats)
    ensures scores == PanelScores(cfg, seats) && candidates == Candidates(cfg, seats, 0) && (fatal <==> SomeSeat(seats, Fatal))
  {
    scores, candidates, fatal := [], [], false;
    var a := 0;
    while a < |seats|
      invariant a <= |seats|
      invariant scores == PanelScores(cfg, seats)[..a]
      invariant candidates + Candidates(cfg, seats, a) == Candidates(cfg, seats, 0)
      invariant fatal <==> FatalBefore(seats, a)
    {
      PanelStep(cfg, seats, a, candidates);
      var row, more, broken := TallyRow(cfg, cfg.verifiers[a], seats[a]);
      scores, candidates, fatal := scores + [row], candidates + more, fatal || broken;
      a := a + 1;
    }
    FatalSomewhere(seats);
  }

  /** Taking seat `slot` into account, with what the seats before it gave. */
  lemma RowStep(cfg: Config, verifier: string, row: seq<Seat>, slot: nat, scores: seq<Option<real>>, candidates: seq<Critiques.Critique>)
    requires slot < |row|
    ensures scores + RowScores(cfg, row[slot..]) == (scores + RowScores(cfg, [row[slot]])) + RowScores(cfg, row[slot + 1..])
    ensures candidates + RowCandidates(cfg, verifier, row[slot..], slot) ==
      (candidates + RowCandidates(cfg, verifier, [row[slot]], slot)) + RowCandidates(cfg, verifier, row[slot + 1..], slot + 1)
  {
    assert row[slot..][0] == row[slot] && row[slot..][1..] == row[slot + 1..];
    assert [row[slot]][1..] == [];
  }

  /** One seat: its score, and a critique when it has one. */
  method TallySeat(cfg: Config, verifier: string, seat: Seat, slot: nat) returns (scores: seq<Option<real>>, candidates: seq<Critiques.Critique>)
    ensures scores == RowScores(cfg, [seat]) && candidates == RowCandidates(cfg, verifier, [seat], slot)
  {
    scores, candidates := [], [];
    assert [seat][1..] == [];
    if seat.Got? {
      var score := cfg.parseVote(seat.resp);
      scores := [score];
      if score.Some? {
        candidates := [Critiques.Critique(StripThink(seat.resp.text), score.value, verifier, slot)];
      }
    }
  }

  method TallyRow(cfg: Config, verifier: string, row: seq<Seat>)
      returns (scores: seq<Option<real>>, candidates: seq<Critiques.Critique>, fatal: bool)
    ensures scores == RowScores(cfg, row) && candidates == RowCandidates(cfg, verifier, row, 0) && (fatal <==> Fatal in row)
  {
    scores, candidates, fatal := [], [], false;
    var slot := 0;
    assert row[0..] == row;
    while slot < |row|
      invariant slot <= |row|
      invariant scores + RowScores(cfg, row[slot..]) == RowScores(cfg, row)
      invariant candidates + RowCandidates(cfg, verifier, row[slot..], slot) == RowCandidates(cfg, verifier, row, 0)
      invariant fatal <==> exists k :: 0 <= k < slot && row[k] == Fatal
    {
      RowStep(cfg, verifier, row, slot, scores, candidates);
      var score, critique := TallySeat(cfg, verifier, row[slot], slot);
      scores, candidates, fatal := scores + score, candidates + critique, fatal || row[slot] == Fatal;
      slot := slot + 1;
    }
  }

  // ---- spawning a round ---------------------------------------------------------------

  /** One prompt and checkpoint: a task per sample slot, seeds counting on. */
  method SpawnSlots(prompt: string, model: string, n: nat, seed: nat) returns (tasks: seq<Task>)
    ensures tasks == SlotTasks(prompt, model, n, seed)
  {
    tasks := [];
    var slot := 0;
    while slot < n
      invariant |tasks| == slot <= n && tasks == SlotTasks(prompt, model, n, seed)[..slot]
    {
      tasks := tasks + [NewTask(Generate(prompt, model, slot), model, 1, seed + slot, [])];
      slot := slot + 1;
    }
  }

  /** One prompt: every checkpoint in turn. */
  method SpawnModels(prompt: string, checkpoints: seq<Checkpoint>, first: nat) returns (tasks: seq<Task>, seed: nat)
    ensures tasks == ModelTasks(prompt, checkpoints, first) && seed == first + GenerationSum(checkpoints)
  {
    tasks, seed := [], first;
    var m := 0;
    assert checkpoints[0..] == checkpoints;
    while m < |checkpoints|
      invariant m <= |checkpoints|
      invariant tasks + ModelTasks(prompt, checkpoints[m..], seed) == ModelTasks(prompt, checkpoints, first)
      invariant seed + GenerationSum(checkpoints[m..]) == first + GenerationSum(checkpoints)
    {
      assert checkpoints[m..][0] == checkpoints[m] && checkpoints[m..][1..] == checkpoints[m + 1..];
      var more := SpawnSlots(prompt, checkpoints[m].id, checkpoints[m].generationSamples, seed);
      tasks, seed, m := tasks + more, seed + checkpoints[m].generationSamples, m + 1;
    }
  }

  /** Round 1: every prompt in turn. */
  method SpawnRound1(prompts: seq<string>, checkpoints: seq<Checkpoint>) returns (tasks: seq<Task>)
    ensures tasks == Round1Tasks(prompts, checkpoints, 0)
  {
    tasks := [];
    var seed: nat, p := 0, 0;
    assert prompts[0..] == prompts;
    while p < |prompts|
      invariant p <= |prompts|
      invariant tasks + Round1Tasks(prompts[p..], checkpoints, seed) == Round1Tasks(prompts, checkpoints, 0)
    {
      assert prompts[p..][0] == prompts[p] && prompts[p..][1..] == prompts[p + 1..];
      var more, next := SpawnModels(prompts[p], checkpoints, seed);
      tasks, seed, p := tasks + more, next, p + 1;
    }
  }

  method SpawnRefineSlots(round: nat, trial: nat, model: string, n: nat, seed: nat, parent: nat) returns (tasks: seq<Task>)
    ensures tasks == RefineSlotTasks(round, trial, model, n, seed, parent)
  {
    tasks := [];
    var slot := 0;
    while slot < n
      invariant |tasks| == slot <= n && tasks == RefineSlotTasks(round, trial, model, n, seed, parent)[..slot]
    {
      tasks := tasks + [NewTask(Refine(round, trial, model, slot), model, round, seed + slot, [parent])];
      slot := slot + 1;
    }
  }

  /** One parent: every checkpoint in turn. */
  method SpawnTrial(round: nat, trial: nat, checkpoints: seq<Checkpoint>, first: nat, parent: nat) returns (tasks: seq<Task>, seed: nat)
    ensures tasks == RefineModelTasks(round, trial, checkpoints, first, parent) && seed == first + RefinementSum(checkpoints)
  {
    tasks, seed := [], first;
    var m := 0;
    assert checkpoints[0..] == checkpoints;
    while m < |checkpoints|
      invariant m <= |checkpoints|
      invariant tasks + RefineModelTasks(round, trial, checkpoints[m..], seed, parent) == RefineModelTasks(round, trial, checkpoints, first, parent)
      invariant seed + RefinementSum(checkpoints[m..]) == first + RefinementSum(checkpoints)
    {
      assert checkpoints[m..][0] == checkpoints[m] && checkpoints[m..][1..] == checkpoints[m + 1..];
      var more := SpawnRefineSlots(round, trial, checkpoints[m].id, checkpoints[m].refinementSamples, seed, parent);
      tasks, seed, m := tasks + more, seed + checkpoints[m].refinementSamples, m + 1;
    }
  }

  lemma NextTrial(tasks: seq<Task>, round: nat, trial: nat, checkpoints: seq<Checkpoint>, seed: nat, parents: seq<nat>)
    requires trial < |parents|
    ensures tasks + RefineTasks(round, trial, checkpoints, seed, parents[trial..]) ==
      (tasks + RefineModelTasks(round, trial, checkpoints, seed, parents[trial])) +
      RefineTasks(round, trial + 1, checkpoints, seed + RefinementSum(checkpoints), parents[trial + 1..])
  {
    assert parents[trial..][0] == parents[trial] && parents[trial..][1..] == parents[trial + 1..];
  }

  /** A refinement round: every parent in turn. */
  method SpawnRefinements(round: nat, checkpoints: seq<Checkpoint>, parents: seq<nat>) returns (tasks: seq<Task>)
    ensures tasks == RefineTasks(round, 0, checkpoints, 0, parents)
  {
    tasks := [];
    var seed: nat, trial := 0, 0;
    assert parents[0..] == parents;
    while trial < |parents|
      invariant trial <= |parents|
      invariant tasks + RefineTasks(round, trial, checkpoints, seed, parents[trial..]) == RefineTasks(round, 0, checkpoints, 0, parents)
    {
      NextTrial(tasks, round, trial, checkpoints, seed, parents);
      var more, next := SpawnTrial(round, trial, checkpoints, seed, parents[trial]);
      tasks, seed, trial := tasks + more, next, trial + 1;
    }
  }

  // ---- the end of the search --------------------------------------------------------------

  lemma {:induction false} BestSnoc(pool: seq<Record>, k: nat)
    requires k < |pool|
    ensures Records.Best(pool[..k + 1]) ==
      (match Records.Best(pool[..k])
       case None => if IsEvidence(pool[k]) then Some(k) else None
       case Some(b) => if IsEvidence(pool[k]) && Ranking.Before(PooledOf(pool[k]), PooledOf(pool[b])) then Some(k) else Some(b))
  {
    assert pool[..k + 1][..k] == pool[..k];
  }

  // ---- one problem ------------------------------------------------------------------------

  lemma AdmitMerges(cfg: Config, s: State, i: nat, resp: Response, k: nat)
    requires i < |s.tasks| && s.tasks[i].model !in s.stopped && cfg.parseProof(resp).valid
    requires Find(s.pool, cfg.parseProof(resp).proof) == Some(k)
    ensures Search.Admit(cfg, s, i, resp) == s.(
      pool := s.pool[k := Merge(s.pool[k], s.tasks[i])], admitted := s.admitted + [Origin(s.tasks[i].id, s.tasks[i].seed)],
      tasks := s.tasks[i := s.tasks[i].(pc := Done)])
  {
  }

  lemma AdmitRegisters(cfg: Config, s: State, i: nat, resp: Response)
    requires i < |s.tasks| && s.tasks[i].model !in s.stopped && cfg.parseProof(resp).valid
    requires Find(s.pool, cfg.parseProof(resp).proof) == None
    ensures Search.Admit(cfg, s, i, resp) == s.(
      pool := s.pool + [NewRecord(cfg.parseProof(resp), s.tasks[i], s.nextId)], nextId := s.nextId + 1,
      admitted := s.admitted + [Origin(s.tasks[i].id, s.tasks[i].seed)],
      tasks := s.tasks[i := s.tasks[i].(pc := Voting(|s.pool|, EmptyPanel(cfg)))])
  {
  }

  class ProblemOrchestrator {
    const cfg: Config
    const ledger: map<WorkId, Response>
    const proofs: ProofPool
    /** A finalist is named by its place among the proofs. */
    var finalists: map<string, nat>
    var stopped: set<string>
    var tasks: seq<Task>
    var round: nat
    var failed: bool
    var aborting: bool
    ghost var rows: seq<Entry>
    ghost var issued: seq<WorkId>
    ghost var admitted: seq<Origin>

    ghost predicate Valid()
      reads proofs
    {
      proofs.Valid()
    }

    ghost function View(): State
      requires Valid()
      reads this, proofs, proofs.Repr
    {
      State(ledger, rows, issued, admitted, tasks, proofs.View(), proofs.nextProofId, finalists, stopped, round, failed, aborting)
    }

    constructor (cfg: Config, disk: seq<Entry>)
      ensures Valid() && View() == Init(cfg, disk).(tasks := []) && this.cfg == cfg && fresh(proofs) && proofs.Repr == {}
    {
      this.cfg, ledger := cfg, Scan(disk);
      finalists, stopped, tasks := map[], {}, [];
      round, failed, aborting, rows, issued, admitted := 1, false, false, [], [], [];
      proofs := new ProofPool();
    }

    // ---- one sample ---------------------------------------------------------------

    method End(i: nat)
      requires Valid() && i < |tasks|
      modifies `tasks
      ensures View() == SetPc(old(View()), i, Done)
    {
      tasks := tasks[i := tasks[i].(pc := Done)];
    }

    /** A known text. */
    method MergeInto(ghost s: State, i: nat, k: nat)
      requires Valid() && s == View() && i < |tasks| && k < |proofs.records|
      modifies `tasks, `admitted, proofs.Repr
      ensures Valid()
      ensures View() == s.(
        pool := s.pool[k := Merge(s.pool[k], s.tasks[i])], admitted := s.admitted + [Origin(s.tasks[i].id, s.tasks[i].seed)],
        tasks := s.tasks[i := s.tasks[i].(pc := Done)])
    {
      var t := tasks[i];
      admitted := admitted + [Origin(t.id, t.seed)];
      proofs.Join(k, t);
      tasks := tasks[i := t.(pc := Done)];
    }

    /** A new text. */
    method Register(ghost s: State, i: nat, p: Parsed)
      requires Valid() && s == View() && i < |tasks|
      modifies `tasks, `admitted, proofs
      ensures Valid() && fresh(proofs.Repr - old(proofs.Repr))
      ensures View() == s.(
        pool := s.pool + [NewRecord(p, s.tasks[i], s.nextId)], nextId := s.nextId + 1,
        admitted := s.admitted + [Origin(s.tasks[i].id, s.tasks[i].seed)],
        tasks := s.tasks[i := s.tasks[i].(pc := Voting(|s.pool|, EmptyPanel(cfg)))])
    {
      var t := tasks[i];
      admitted := admitted + [Origin(t.id, t.seed)];
      tasks := tasks[i := t.(pc := Voting(|proofs.records|, EmptyPanel(cfg)))];
      proofs.Add(p, t);
    }

    /** From the moment a response is in hand to the opening of the panel: identical proof text is verified once. */
    method Admit(i: nat, resp: Response)
      requires Valid() && i < |tasks|
      modifies `tasks, `admitted, proofs, proofs.Repr
      ensures Valid() && fresh(proofs.Repr - old(proofs.Repr)) && View() == Search.Admit(cfg, old(View()), i, resp)
    {
      var p := cfg.parseProof(resp);
      if tasks[i].model in stopped || !p.valid {
        End(i);
        return;
      }
      LookupFinds(proofs.records, proofs.View(), p.proof);
      match Lookup(proofs.records, p.proof)
      case Some(k) =>
        AdmitMerges(cfg, View(), i, resp, k);
        MergeInto(View(), i, k);
      case None =>
        AdmitRegisters(cfg, View(), i, resp);
        Register(View(), i, p);
    }

    /** The first code of a task: a stopped checkpoint's task ends, persisted work replays, the rest is requested. */
    method Begin(i: nat)
      requires Valid() && i < |tasks|
      modifies `tasks, `admitted, `issued, proofs, proofs.Repr
      ensures Valid() && fresh(proofs.Repr - old(proofs.Repr)) && View() == Search.Begin(cfg, old(View()), i)
    {
      var t := tasks[i];
      if t.cancelled || t.model in stopped {
        End(i);
      } else if t.id in ledger {
        Admit(i, ledger[t.id]);
      } else {
        issued := issued + [t.id];
        tasks := tasks[i := t.(pc := Asking)];
      }
    }

    /** The request returned; a response that arrives together with a cancellation wins over it. */
    method Deliver(ghost s: State, i: nat, resp: Response)
      requires Valid() && s == View() && Enabled(cfg, s, Event.Deliver(i, resp))
      modifies `tasks
      ensures View() == Next(cfg, s, Event.Deliver(i, resp))
    {
      tasks := tasks[i := tasks[i].(pc := Saving(resp), cancelled := false)];
    }

    /** `_record_gen` reached the disk. */
    method Save(ghost s: State, i: nat)
      requires Valid() && s == View() && Enabled(cfg, s, Event.Write(i))
      modifies `tasks, `rows
      ensures View() == Next(cfg, s, Event.Write(i))
    {
      var resp := tasks[i].pc.resp;
      rows := rows + [Entry(tasks[i].id, resp)];
      tasks := tasks[i := tasks[i].(pc := Saved(resp))];
    }

    /** After the write: a cancellation that arrived meanwhile ends the task, otherwise the response is admitted. */
    method Resume(ghost s: State, i: nat)
      requires Valid() && s == View() && Enabled(cfg, s, Event.Resume(i))
      modifies `tasks, `admitted, proofs, proofs.Repr
      ensures Valid() && fresh(proofs.Repr - old(proofs.Repr)) && View() == Next(cfg, s, Event.Resume(i))
    {
      if tasks[i].cancelled {
        End(i);
      } else {
        Admit(i, tasks[i].pc.resp);
      }
    }

    /** The request parked, or it was cancelled: the task ends without a sample. */
    method Miss(ghost s: State, ghost ev: Event, i: nat)
      requires Valid() && s == View() && (ev == Event.Park(i) || ev == Event.Drop(i)) && Enabled(cfg, s, ev)
      modifies `tasks
      ensures View() == Next(cfg, s, ev)
    {
      End(i);
    }

    /** A second cancellation broke the wait for the write, or one arrived while the votes were written. */
    method GiveUp(ghost s: State, ghost ev: Event, i: nat)
      requires Valid() && s == View() && (ev == Event.LoseWrite(i) || ev == Event.Leave(i)) && Enabled(cfg, s, ev)
      modifies `tasks
      ensures View() == Next(cfg, s, ev)
    {
      End(i);
    }

    /** The request failed for good: the error ends the task and the launch. */
    method Fail(ghost s: State, i: nat)
      requires Valid() && s == View() && Enabled(cfg, s, Event.Fail(i))
      modifies `tasks, `failed
      ensures View() == Next(cfg, s, Event.Fail(i))
    {
      FailFatally(i);
    }

    method FailFatally(i: nat)
      requires Valid() && i < |tasks|
      modifies `tasks, `failed
      ensures View() == SetPc(old(View()), i, Done).(failed := true)
    {
      tasks := tasks[i := tasks[i].(pc := Done)];
      failed := true;
    }

    // ---- the panel -------------------------------------------------------------------

    /** The first code of a panel request: a persisted vote replays, the rest is requested. */
    method StartSeat(ghost s: State, i: nat, a: nat, b: nat)
      requires Valid() && s == View() && Enabled(cfg, s, Event.SeatStart(i, a, b))
      modifies `tasks, `issued
      ensures View() == Next(cfg, s, Event.SeatStart(i, a, b))
    {
      var pc := tasks[i].pc;
      var rec := proofs.records[pc.at];
      var id := Vote(rec.round, rec.proof, cfg.verifiers[a], b);
      if id in ledger {
        tasks := tasks[i := tasks[i].(pc := Voting(pc.at, SetSeat(pc.seats, a, b, Got(ledger[id], false))))];
      } else {
        issued := issued + [id];
        tasks := tasks[i := tasks[i].(pc := Voting(pc.at, SetSeat(pc.seats, a, b, Sent)))];
      }
    }

    /** A panel request returned, parked, failed or was cancelled. */
    method SettleSeat(ghost s: State, ghost ev: Event, i: nat, a: nat, b: nat, seat: Seat)
      requires Valid() && s == View() && Enabled(cfg, s, ev) && !ev.SeatStart? && Verdicts.Settles(cfg, s, ev, seat)
      requires ev.i == i && ev.a == a && ev.b == b
      modifies `tasks
      ensures View() == Next(cfg, s, ev)
    {
      var pc := tasks[i].pc;
      tasks := tasks[i := tasks[i].(pc := Voting(pc.at, SetSeat(pc.seats, a, b, seat)))];
    }

    /** `gather` returned, or a cancellation cut it short and only finished responses count. */
    method Gather(ghost s: State, i: nat)
      requires Valid() && s == View() && Enabled(cfg, s, Event.Gather(i))
      modifies `tasks
      ensures View() == Next(cfg, s, Event.Gather(i))
    {
      var t := tasks[i];
      var seats := t.pc.seats;
      if t.cancelled {
        seats := KeepFinishedAll(seats);
      }
      var interrupted := t.cancelled || SomeSeat(seats, Dropped);
      tasks := tasks[i := t.(pc := Recording(t.pc.at, seats, interrupted), cancelled := false)];
    }

    /** `_record_vote` reached the disk. */
    method SaveVote(ghost s: State, i: nat, a: nat, b: nat)
      requires Valid() && s == View() && Enabled(cfg, s, Event.WriteVote(i, a, b))
      modifies `tasks, `rows
      ensures View() == Next(cfg, s, Event.WriteVote(i, a, b))
    {
      var pc := tasks[i].pc;
      var resp := pc.seats[a][b].resp;
      rows := rows + [Entry(VoteId(cfg, s.pool[pc.at], a, b), resp)];
      tasks := tasks[i := tasks[i].(pc := Recording(pc.at, SetSeat(pc.seats, a, b, Got(resp, false)), pc.interrupted))];
    }

    // ---- acceptance ------------------------------------------------------------------

    /** Flags every live task of the checkpoint but the caller's. */
    method CancelSiblings(model: string, me: nat)
      modifies `tasks
      ensures tasks == FlagModel(old(tasks), model, me)
    {
      ghost var were := tasks;
      var j := 0;
      while j < |tasks|
        invariant j <= |tasks| == |were|
        invariant forall k :: 0 <= k < j ==> tasks[k] == FlagModel(were, model, me)[k]
        invariant forall k :: j <= k < |tasks| ==> tasks[k] == were[k]
      {
        if tasks[j].model == model && j != me && tasks[j].pc != Done {
          tasks := tasks[j := tasks[j].(cancelled := true)];
        }
        j := j + 1;
      }
    }

    /** `_on_accepted`, run by task `me`: the first accepted proof of a checkpoint stays its finalist. */
    method OnAccepted(at: nat, me: nat)
      requires Valid() && at < |proofs.records|
      modifies `finalists, `stopped, `tasks, proofs.Repr
      ensures Valid() && View() == Search.OnAccepted(old(View()), at, me)
    {
      var model := proofs.records[at].model;
      proofs.Accept(at);
      if model in finalists {
        return;  // a completion race
      }
      finalists := finalists[model := at];
      stopped := stopped + {model};
      CancelSiblings(model, me);
    }

    /** Shutdown: every live task is cancelled. */
    method CancelAll()
      requires Valid()
      modifies `tasks, `aborting
      ensures View() == Next(cfg, old(View()), Abort)
    {
      ghost var were := tasks;
      var j := 0;
      while j < |tasks|
        invariant j <= |tasks| == |were|
        invariant forall k :: 0 <= k < j ==> tasks[k] == FlagAll(were)[k]
        invariant forall k :: j <= k < |tasks| ==> tasks[k] == were[k]
        invariant View() == old(View()).(tasks := tasks)
      {
        if tasks[j].pc != Done {
          tasks := tasks[j := tasks[j].(cancelled := true)];
        }
        j := j + 1;
      }
      aborting := true;
      assert tasks == FlagAll(were);
    }

    // ---- the verdict --------------------------------------------------------------------

    /** The verdict of task `i`'s panel: it ends the task, and an acceptance stops the checkpoint. */
    method GiveVerdict(ghost s: State, i: nat, scores: seq<seq<Option<real>>>, candidates: seq<Critiques.Critique>)
      requires Valid() && s == View() && Enabled(cfg, s, Event.Conclude(i))
      requires scores == PanelScores(cfg, s.tasks[i].pc.seats) && candidates == Candidates(cfg, s.tasks[i].pc.seats, 0)
      modifies `tasks, `finalists, `stopped, proofs.Repr
      ensures Valid() && View() == Settle(s, i, Judged(cfg, s.pool[s.tasks[i].pc.at], s.tasks[i].pc.seats))
    {
      var at := tasks[i].pc.at;
      var accepted := proofs.Judge(at, cfg, tasks[i].pc.seats, scores, candidates);
      End(i);
      if accepted {
        OnAccepted(at, i);
      }
    }

    /** The tail of `_verify_proof`: a fatal error or an interruption gives no verdict. */
    method Conclude(i: nat)
      requires Valid() && Enabled(cfg, View(), Event.Conclude(i))
      modifies `tasks, `failed, `finalists, `stopped, proofs.Repr
      ensures Valid() && View() == Conclusion(cfg, old(View()), i)
    {
      var scores, candidates, fatal := Tally(cfg, tasks[i].pc.seats);
      if fatal {
        FailFatally(i);
      } else if tasks[i].pc.interrupted {
        End(i);
      } else {
        GiveVerdict(View(), i, scores, candidates);
      }
    }

    // ---- rounds ---------------------------------------------------------------------------

    /** `_round1`: every prompt, checkpoint and sample slot in turn, with one running seed. */
    method Round1()
      requires Valid() && tasks == []
      modifies `tasks
      ensures View() == old(View()).(tasks := Round1Tasks(cfg.prompts, cfg.checkpoints, 0))
    {
      tasks := SpawnRound1(cfg.prompts, cfg.checkpoints);
    }

    /** `_refine_round`: the top-ranked proofs in turn; without parents the round is empty. */
    method RefineRound(ghost s: State)
      requires Valid() && s == View() && Enabled(cfg, s, NextRound)
      modifies `tasks, `round
      ensures View() == Next(cfg, s, NextRound)
    {
      var parents := Parents(cfg, Views(proofs.records));
      round := round + 1;
      tasks := SpawnRefinements(round, cfg.checkpoints, parents);
    }

    /** `_finish`: finalists in checkpoint order, else the best complete proof, else nothing. */
    method Finish() returns (result: Outcome.Result)
      requires Valid()
      ensures result == Outcome.Finish(cfg, View())
    {
      if finalists != map[] {
        var listed := ListFinalists();
        return Outcome.Result(Outcome.Accepted, round, listed, |proofs.records|);
      }
      var best := BestEvidence();
      match best
      case Some(k) => result := Outcome.Result(Outcome.Fallback, round, [k], |proofs.records|);
      case None => result := Outcome.Result(Outcome.NoCandidates, round, [], |proofs.records|);
    }

    method ListFinalists() returns (listed: seq<nat>)
      ensures listed == Outcome.InOrder(cfg.checkpoints, finalists)
    {
      listed := [];
      var c := 0;
      assert cfg.checkpoints[0..] == cfg.checkpoints;
      while c < |cfg.checkpoints|
        invariant c <= |cfg.checkpoints|
        invariant listed + Outcome.InOrder(cfg.checkpoints[c..], finalists) == Outcome.InOrder(cfg.checkpoints, finalists)
      {
        assert cfg.checkpoints[c..][0] == cfg.checkpoints[c] && cfg.checkpoints[c..][1..] == cfg.checkpoints[c + 1..];
        if cfg.checkpoints[c].id in finalists {
          listed := listed + [finalists[cfg.checkpoints[c].id]];
        }
        c := c + 1;
      }
    }

    /** `min` over the complete proofs by rank key, first of the best. */
    method BestEvidence() returns (best: Option<nat>)
      requires Valid()
      ensures best == Records.Best(View().pool)
    {
      var pool := Views(proofs.records);
      best := None;
      var k := 0;
      while k < |pool|
        invariant k <= |pool| && best == Records.Best(pool[..k])
      {
        BestSnoc(pool, k);
        if IsEvidence(pool[k]) && (best.None? || Ranking.Before(PooledOf(pool[k]), PooledOf(pool[best.value]))) {
          best := Some(k);
        }
        k := k + 1;
      }
      assert pool[..|pool|] == pool;
    }
  }
}
