/** How a whole search ends: the rounds it runs, the status it reports and the finalists it hands on. */
module Outcome {
  import opened Options
  import opened Search
  import opened Durability
  import opened Steps
  import Launching
  import Provenance
  import Records
  import Safety

  datatype Status = Accepted | Fallback | NoCandidates

  /** `finalists` are places in the pool. */
  datatype Result = Result(status: Status, roundsRun: nat, finalists: seq<nat>, candidates: nat)

  // ---- the end of a run ----------------------------------------------------------

  /** No task is left and no round follows. */
  ghost predicate Over(cfg: Config, s: State) {
    AllDone(s) && !s.failed && !s.aborting && !Enabled(cfg, s, NextRound)
  }

  /** The finalists in configured checkpoint order. */
  function InOrder(checkpoints: seq<Checkpoint>, finalists: map<string, nat>): seq<nat> {
    if checkpoints == [] then []
    else (if checkpoints[0].id in finalists then [finalists[checkpoints[0].id]] else []) + InOrder(checkpoints[1..], finalists)
  }

  /** `_finish` with the number of the round just ended. */
  function Finish(cfg: Config, s: State): Result {
    if s.finalists != map[] then Result(Accepted, s.round, InOrder(cfg.checkpoints, s.finalists), |s.pool|)
    else
      match Records.Best(s.pool)
      case Some(k) => Result(Fallback, s.round, [k], |s.pool|)
      case None => Result(NoCandidates, s.round, [], |s.pool|)
  }

  // ---- rounds ----------------------------------------------------------------------

  /** Tasks and panels belong to the current round, accepted proofs were generated in it. */
  ghost predicate Orderly(cfg: Config, s: State) {
    && 1 <= s.round <= cfg.maxRounds
    && (forall j :: 0 <= j < |s.tasks| ==> s.tasks[j].round == s.round && s.tasks[j].model in Launching.Models(cfg.checkpoints))
    && (forall j :: 0 <= j < |s.tasks| && HasPanel(s.tasks[j].pc) ==> s.tasks[j].pc.at < |s.pool| && s.pool[s.tasks[j].pc.at].round == s.round)
    && (forall p :: 0 <= p < |s.pool| ==> s.pool[p].model in Launching.Models(cfg.checkpoints))
    && (forall p :: 0 <= p < |s.pool| && s.pool[p].accepted ==> s.pool[p].round == s.round)
  }

  /** The new record of a step carries the checkpoint of the task that opened its panel. */
  lemma StepModels(cfg: Config, s: State, s': State, i: nat)
    requires Safety.Sound(cfg, s) && Safety.Sound(cfg, s') && Safety.After(s, s') && Step(cfg, s, s', i) && Orderly(cfg, s)
    ensures forall j :: 0 <= j < |s'.tasks| && j != i ==> OwnModel(s.tasks[j], s'.tasks[j])
    ensures OwnModel(s.tasks[i], s'.tasks[i])
    ensures forall p :: 0 <= p < |s'.pool| ==> s'.pool[p].model in Launching.Models(cfg.checkpoints)
  {
    forall j | 0 <= j < |s'.tasks| ensures OwnModel(s.tasks[j], s'.tasks[j]) {
      assert Safety.TaskSafe(s, s.tasks[j]) && Safety.TaskSafe(s', s'.tasks[j]);
      if j != i { assert s'.tasks[j].id == s.tasks[j].id; }
    }
    forall p | 0 <= p < |s'.pool| ensures s'.pool[p].model in Launching.Models(cfg.checkpoints) {
      if p < |s.pool| {
        assert Safety.RecordGrows(s.pool[p], s'.pool[p]);
      } else {
        assert Safety.TaskSafe(s', s'.tasks[i]);
      }
    }
  }

  ghost predicate OwnModel(t: Task, t': Task) {
    t'.model == t.model && t'.id == t.id
  }

  lemma StepOrderly(cfg: Config, s: State, s': State, i: nat)
    requires Safety.Sound(cfg, s) && Safety.Sound(cfg, s') && Safety.After(s, s') && Step(cfg, s, s', i) && Orderly(cfg, s)
    requires forall j :: 0 <= j < |s'.tasks| ==> s'.tasks[j].round == s'.round
    ensures Orderly(cfg, s')
  {
    StepModels(cfg, s, s', i);
    assert forall p :: 0 <= p < |s.pool| ==> Safety.RecordGrows(s.pool[p], s'.pool[p]);
  }

  lemma NewRoundOrderly(cfg: Config, s: State, s': State)
    requires Orderly(cfg, s) && s.round < cfg.maxRounds && (forall p :: 0 <= p < |s.pool| ==> !s.pool[p].accepted)
    requires s'.pool == s.pool && s'.round == s.round + 1
    requires forall j :: 0 <= j < |s'.tasks| ==>
      s'.tasks[j].round == s'.round && s'.tasks[j].model in Launching.Models(cfg.checkpoints) && s'.tasks[j].pc == Idle
    ensures Orderly(cfg, s')
  {
  }

  lemma {:induction false} RoundOrderly(cfg: Config, s: State, parents: seq<nat>)
    requires ValidConfig(cfg) && Orderly(cfg, s) && s.round < cfg.maxRounds
    requires forall p :: 0 <= p < |s.pool| ==> !s.pool[p].accepted
    ensures Orderly(cfg, BeginRound(cfg, s, parents))
  {
    var s' := BeginRound(cfg, s, parents);
    Launching.FreshTasks(s.round + 1, cfg.checkpoints, parents);
    assert forall j :: 0 <= j < |s'.tasks| ==> s'.tasks[j] in s'.tasks;
    NewRoundOrderly(cfg, s, s');
  }

  lemma AbortOrderly(cfg: Config, s: State)
    requires Orderly(cfg, s)
    ensures Orderly(cfg, Next(cfg, s, Abort))
  {
  }

  /** All invariants together, and every step keeps them. */
  ghost predicate Reached(cfg: Config, base: seq<Entry>, s: State) {
    Durable(cfg, base, s) && Safety.Sound(cfg, s) && Provenance.Backed(cfg, s) && Orderly(cfg, s)
  }

  lemma StepReached(cfg: Config, base: seq<Entry>, s: State, ev: Event)
    requires ValidConfig(cfg) && Reached(cfg, base, s) && Enabled(cfg, s, ev)
    ensures Reached(cfg, base, Next(cfg, s, ev))
  {
    var s' := Next(cfg, s, ev);
    StepDurable(cfg, base, s, ev);
    Safety.StepSound(cfg, s, ev);
    Safety.StepAfter(cfg, s, ev);
    Provenance.StepBacked(cfg, s, ev);
    assert forall j :: 0 <= j < |s'.tasks| ==> Provenance.TaskOnDisk(cfg, s', s'.tasks[j]);
    if ev.NextRound? {
      assert forall p :: 0 <= p < |s.pool| ==> !s.pool[p].accepted;
      RoundOrderly(cfg, s, Parents(cfg, s.pool));
    } else if ev.Abort? {
      AbortOrderly(cfg, s);
    } else {
      TaskStep(cfg, s, ev);
      StepOrderly(cfg, s, s', ev.i);
    }
  }

  lemma InitReached(cfg: Config, disk: seq<Entry>)
    requires ValidConfig(cfg)
    ensures Reached(cfg, disk, Init(cfg, disk))
  {
    var s := Init(cfg, disk);
    InitDurable(cfg, disk);
    Safety.InitSound(cfg, disk);
    Provenance.InitBacked(cfg, disk);
    Launching.Round1TasksFacts(cfg.prompts, cfg.checkpoints, 0);
    forall j | 0 <= j < |s.tasks|
      ensures s.tasks[j].round == 1 && s.tasks[j].model in Launching.Models(cfg.checkpoints) && s.tasks[j].pc == Idle
    {
      assert s.tasks[j] in s.tasks && Launching.GenerationTask(s.tasks[j], cfg.prompts, cfg.checkpoints);
    }
  }

  lemma {:induction false} RunReached(cfg: Config, base: seq<Entry>, s: State, run: seq<Event>)
    requires ValidConfig(cfg) && Reached(cfg, base, s) && Legal(cfg, s, run)
    ensures Reached(cfg, base, Exec(cfg, s, run))
    decreases run
  {
    if run != [] {
      StepReached(cfg, base, s, run[0]);
      RunReached(cfg, base, Next(cfg, s, run[0]), run[1..]);
    }
  }

  // ---- accepted -------------------------------------------------------------------------

  lemma FinalistsStay(cfg: Config, s: State, ev: Event)
    requires Safety.Sound(cfg, s) && s.finalists != map[] && Enabled(cfg, s, ev)
    ensures Next(cfg, s, ev).finalists != map[] && Next(cfg, s, ev).round == s.round
  {
    Safety.StepAfter(cfg, s, ev);
    var m :| m in s.finalists;
    assert m in Next(cfg, s, ev).finalists;
    if !ev.NextRound? && !ev.Abort? { TaskStep(cfg, s, ev); }
  }

  lemma {:induction false} RoundStays(cfg: Config, s: State, run: seq<Event>)
    requires ValidConfig(cfg) && Safety.Sound(cfg, s) && s.finalists != map[] && Legal(cfg, s, run)
    ensures Exec(cfg, s, run).finalists != map[] && Exec(cfg, s, run).round == s.round
    decreases run
  {
    if run != [] {
      Safety.StepSound(cfg, s, run[0]);
      FinalistsStay(cfg, s, run[0]);
      RoundStays(cfg, Next(cfg, s, run[0]), run[1..]);
    }
  }

  lemma {:induction false} InOrderMembers(checkpoints: seq<Checkpoint>, finalists: map<string, nat>)
    ensures forall m :: m in finalists && m in Launching.Models(checkpoints) ==> finalists[m] in InOrder(checkpoints, finalists)
    ensures forall f :: f in InOrder(checkpoints, finalists) ==> exists m :: m in finalists && m in Launching.Models(checkpoints) && finalists[m] == f
  {
    if checkpoints != [] {
      InOrderMembers(checkpoints[1..], finalists);
      assert checkpoints == [checkpoints[0]] + checkpoints[1..];
      assert Launching.Models(checkpoints) == {checkpoints[0].id} + Launching.Models(checkpoints[1..]);
    }
  }

  /** The place among the checkpoints of the finalist listed at `i`. */
  ghost function PlaceOf(checkpoints: seq<Checkpoint>, finalists: map<string, nat>, i: nat): nat
    requires i < |InOrder(checkpoints, finalists)|
  {
    if checkpoints[0].id !in finalists then 1 + PlaceOf(checkpoints[1..], finalists, i)
    else if i == 0 then 0
    else 1 + PlaceOf(checkpoints[1..], finalists, i - 1)
  }

  lemma {:induction false} PlaceLists(checkpoints: seq<Checkpoint>, finalists: map<string, nat>, i: nat)
    requires i < |InOrder(checkpoints, finalists)|
    ensures var a := PlaceOf(checkpoints, finalists, i);
      a < |checkpoints| && checkpoints[a].id in finalists && finalists[checkpoints[a].id] == InOrder(checkpoints, finalists)[i]
  {
    if checkpoints[0].id !in finalists {
      PlaceLists(checkpoints[1..], finalists, i);
    } else if i > 0 {
      PlaceLists(checkpoints[1..], finalists, i - 1);
    }
  }

  /** The list follows the configured order of the checkpoints. */
  lemma {:induction false} PlacesRise(checkpoints: seq<Checkpoint>, finalists: map<string, nat>, i: nat, j: nat)
    requires i < j < |InOrder(checkpoints, finalists)|
    ensures PlaceOf(checkpoints, finalists, i) < PlaceOf(checkpoints, finalists, j)
  {
    if checkpoints[0].id !in finalists {
      PlacesRise(checkpoints[1..], finalists, i, j);
    } else if i > 0 {
      PlacesRise(checkpoints[1..], finalists, i - 1, j - 1);
    }
  }

  lemma FinishReports(cfg: Config, s: State)
    ensures Finish(cfg, s).roundsRun == s.round && (Finish(cfg, s).status == Accepted <==> s.finalists != map[])
    ensures s.finalists != map[] ==> Finish(cfg, s).finalists == InOrder(cfg.checkpoints, s.finalists)
  {
  }

  /** The finalists in order are exactly the accepted proofs, each its checkpoint's finalist. */
  lemma InOrderAccepted(cfg: Config, s: State)
    requires Safety.FinalistsOk(s) && forall p :: 0 <= p < |s.pool| ==> s.pool[p].model in Launching.Models(cfg.checkpoints)
    ensures forall p :: 0 <= p < |s.pool| && s.pool[p].accepted ==> p in InOrder(cfg.checkpoints, s.finalists)
    ensures forall f :: f in InOrder(cfg.checkpoints, s.finalists) ==>
      f < |s.pool| && s.pool[f].accepted && s.pool[f].model in s.finalists && s.finalists[s.pool[f].model] == f
  {
    InOrderMembers(cfg.checkpoints, s.finalists);
    forall p | 0 <= p < |s.pool| && s.pool[p].accepted ensures p in InOrder(cfg.checkpoints, s.finalists) {
      assert s.finalists[s.pool[p].model] == p;
    }
  }

  /** Record `f` is of an earlier checkpoint of the configuration than record `g`. */
  ghost predicate EarlierCheckpoint(cfg: Config, pool: seq<Record>, f: int, g: int) {
    && 0 <= f < |pool| && 0 <= g < |pool|
    && exists a, b :: 0 <= a < b < |cfg.checkpoints| && cfg.checkpoints[a].id == pool[f].model && cfg.checkpoints[b].id == pool[g].model
  }

  lemma FinalistsFollow(cfg: Config, s: State, i: nat, j: nat)
    requires Safety.FinalistsOk(s) && i < j < |InOrder(cfg.checkpoints, s.finalists)|
    ensures EarlierCheckpoint(cfg, s.pool, InOrder(cfg.checkpoints, s.finalists)[i], InOrder(cfg.checkpoints, s.finalists)[j])
  {
    PlaceLists(cfg.checkpoints, s.finalists, i);
    PlaceLists(cfg.checkpoints, s.finalists, j);
    PlacesRise(cfg.checkpoints, s.finalists, i, j);
    var a, b := PlaceOf(cfg.checkpoints, s.finalists, i), PlaceOf(cfg.checkpoints, s.finalists, j);
    assert cfg.checkpoints[a].id in s.finalists && cfg.checkpoints[b].id in s.finalists;
  }

  /** What a search that is over reports of its candidates and finalists. */
  ghost predicate Reports(cfg: Config, s: State, r: Result) {
    && 1 <= r.roundsRun == s.round <= cfg.maxRounds
    && r.candidates == |s.pool| && (forall p, q :: 0 <= p < q < |s.pool| ==> s.pool[p].proof != s.pool[q].proof)
    && (r.status == Accepted <==> s.finalists != map[])
    && (r.status != Accepted ==> r.roundsRun == cfg.maxRounds)
    && (r.status == Accepted ==>
          && (forall p :: 0 <= p < |s.pool| && s.pool[p].accepted ==> s.pool[p].round == r.roundsRun && p in r.finalists)
          && (forall i, j :: 0 <= i < j < |r.finalists| ==> EarlierCheckpoint(cfg, s.pool, r.finalists[i], r.finalists[j]))
          && (forall f :: f in r.finalists ==>
               f < |s.pool| && s.pool[f].accepted && s.pool[f].model in s.finalists && s.finalists[s.pool[f].model] == f))
  }

  lemma OverReports(cfg: Config, base: seq<Entry>, s: State)
    requires Reached(cfg, base, s) && Over(cfg, s)
    ensures Reports(cfg, s, Finish(cfg, s))
  {
    FinishReports(cfg, s);
    InOrderAccepted(cfg, s);
    forall i, j | 0 <= i < j < |InOrder(cfg.checkpoints, s.finalists)|
      ensures EarlierCheckpoint(cfg, s.pool, InOrder(cfg.checkpoints, s.finalists)[i], InOrder(cfg.checkpoints, s.finalists)[j])
    {
      FinalistsFollow(cfg, s, i, j);
    }
  }

  /**
   * A search ends within the round budget. It reports accepted exactly when it has a finalist; then `roundsRun` is the
   * first round that had one, every finalist was generated in that round, and the finalists listed are exactly the
   * accepted proofs, one per stopped checkpoint, in the configured order. The candidates are the distinct proofs.
   */
  lemma AcceptedOutcome(cfg: Config, disk: seq<Entry>, before: seq<Event>, later: seq<Event>)
    requires ValidConfig(cfg) && Legal(cfg, Init(cfg, disk), before) && Legal(cfg, Exec(cfg, Init(cfg, disk), before), later)
    requires Over(cfg, Exec(cfg, Exec(cfg, Init(cfg, disk), before), later))
    ensures var u := Exec(cfg, Init(cfg, disk), before);
      var s := Exec(cfg, u, later);
      && Reports(cfg, s, Finish(cfg, s))
      && (Finish(cfg, s).status == Accepted && u.round < Finish(cfg, s).roundsRun ==> u.finalists == map[])
  {
    var u := Exec(cfg, Init(cfg, disk), before);
    InitReached(cfg, disk);
    RunReached(cfg, disk, Init(cfg, disk), before);
    RunReached(cfg, disk, u, later);
    OverReports(cfg, disk, Exec(cfg, u, later));
    if u.finalists != map[] { RoundStays(cfg, u, later); }
  }

  // ---- fallback and no candidates ---------------------------------------------------------

  /** What `_finish` reports when no checkpoint has a finalist. */
  ghost predicate Hands(cfg: Config, pool: seq<Record>, r: Result) {
    && (r.status == Fallback ==>
         && |r.finalists| == 1 && Records.Judgeable(pool, r.finalists[0])
         && (var best := pool[r.finalists[0]];
             && (forall p :: Records.Judgeable(pool, p) ==> best.verdict.value.mean >= pool[p].verdict.value.mean)
             && (Records.NoNaNBeside(pool, r.finalists[0]) ==> forall p :: Records.Judgeable(pool, p) ==> Records.NotBehind(best, pool[p]))
             && Parents(cfg, pool) != [] && (Records.TopTold(pool) ==> best.id == Parents(cfg, pool)[0])))
    && (r.status == NoCandidates ==> r.finalists == [])
    && (r.status == NoCandidates <==> forall p :: !Records.Judgeable(pool, p))
  }

  /** Without finalists, `_finish` agrees with the next round's choice of parents. */
  lemma {:induction false} FallbackIsFirstParent(cfg: Config, s: State)
    requires s.finalists == map[] && cfg.parentsPerRound > 0 && Records.Numbered(s.pool)
    ensures Hands(cfg, s.pool, Finish(cfg, s)) && Finish(cfg, s).status != Accepted
  {
    Records.BestIsFirstParent(cfg, s.pool);
    Records.BestByRecord(s.pool);
  }

  lemma StillJudgeable(pool: seq<Record>, pool': seq<Record>, p: int)
    requires |pool| <= |pool'| && forall q :: 0 <= q < |pool| ==> Safety.RecordGrows(pool[q], pool'[q])
    requires Records.Judgeable(pool, p)
    ensures Records.Judgeable(pool', p)
  {
    assert Safety.RecordGrows(pool[p], pool'[p]);
  }

  /**
   * A search that ends without acceptance hands on one complete proof of the greatest mean, and behind none in
   * self-evaluation, round and id unless a NaN is among those of that mean; it is the first its next refinement round
   * would refine, unless a NaN self-evaluation and two numbers share the mean. Or it reports no candidates, exactly when
   * no panel was ever complete, at this or any earlier moment.
   */
  lemma FallbackOutcome(cfg: Config, disk: seq<Entry>, before: seq<Event>, later: seq<Event>)
    requires ValidConfig(cfg) && Legal(cfg, Init(cfg, disk), before) && Legal(cfg, Exec(cfg, Init(cfg, disk), before), later)
    requires Over(cfg, Exec(cfg, Exec(cfg, Init(cfg, disk), before), later))
    requires Exec(cfg, Exec(cfg, Init(cfg, disk), before), later).finalists == map[]
    ensures var u := Exec(cfg, Init(cfg, disk), before);
      var s := Exec(cfg, u, later);
      var r := Finish(cfg, s);
      && Hands(cfg, s.pool, r)
      && (r.status == NoCandidates ==> forall p :: !Records.Judgeable(u.pool, p))
  {
    var u := Exec(cfg, Init(cfg, disk), before);
    var s := Exec(cfg, u, later);
    InitReached(cfg, disk);
    RunReached(cfg, disk, Init(cfg, disk), before);
    RunReached(cfg, disk, u, later);
    Safety.NothingIsUndone(cfg, u, later);
    assert forall p :: 0 <= p < |s.pool| ==> Safety.RecordOk(cfg, s.pool[p], p);
    FallbackIsFirstParent(cfg, s);
    forall p | Records.Judgeable(u.pool, p) ensures Records.Judgeable(s.pool, p) { StillJudgeable(u.pool, s.pool, p); }
  }

  // ---- what a refinement round refines ----------------------------------------------------

  ghost predicate Refines(tasks: seq<Task>, id: nat) {
    exists t :: t in tasks && t.deps == [id]
  }

  lemma RefinesParents(cfg: Config, round: nat, parents: seq<nat>, id: nat)
    requires ValidConfig(cfg)
    ensures Refines(RefineTasks(round, 0, cfg.checkpoints, 0, parents), id) <==> id in parents
  {
    var tasks := RefineTasks(round, 0, cfg.checkpoints, 0, parents);
    var model := cfg.checkpoints[0].id;
    Launching.RefineRoundIsAllSamples(round, cfg.checkpoints, 0, parents, Refine(round, 0, model, 0));
    if id in parents {
      var trial: nat :| trial < |parents| && parents[trial] == id;
      assert cfg.checkpoints[0] in cfg.checkpoints;
      Launching.RefineRoundIsAllSamples(round, cfg.checkpoints, 0, parents, Refine(round, trial, model, 0));
    }
  }

  /** The places of the records a round refines. */
  ghost function Refined(pool: seq<Record>, tasks: seq<Task>): set<int> {
    set p | 0 <= p < |pool| && Refines(tasks, pool[p].id)
  }

  /**
   * A refinement round of any run refines as many complete proofs as configured, or as there are; with a proof it refines
   * every complete proof of a greater mean too, and where no tie in mean involves a NaN self-evaluation, every complete
   * proof not behind it in mean, self-evaluation, round and id.
   */
  lemma RoundRefinesTheBest(cfg: Config, disk: seq<Entry>, run: seq<Event>)
    requires ValidConfig(cfg) && Legal(cfg, Init(cfg, disk), run) && Enabled(cfg, Exec(cfg, Init(cfg, disk), run), NextRound)
    ensures var s := Exec(cfg, Init(cfg, disk), run);
      Records.TakesTheBest(s.pool, cfg.parentsPerRound, Refined(s.pool, Next(cfg, s, NextRound).tasks))
  {
    var s := Exec(cfg, Init(cfg, disk), run);
    InitReached(cfg, disk);
    RunReached(cfg, disk, Init(cfg, disk), run);
    assert forall p :: 0 <= p < |s.pool| ==> Safety.RecordOk(cfg, s.pool[p], p);
    RefinedAreParents(cfg, s);
    Records.ParentsTakeTheBest(cfg, s.pool);
  }

  lemma RefinedAreParents(cfg: Config, s: State)
    requires ValidConfig(cfg) && Enabled(cfg, s, NextRound)
    ensures Refined(s.pool, Next(cfg, s, NextRound).tasks) == Records.Places(s.pool, Parents(cfg, s.pool))
  {
    forall p | 0 <= p < |s.pool|
      ensures Refines(Next(cfg, s, NextRound).tasks, s.pool[p].id) <==> s.pool[p].id in Parents(cfg, s.pool)
    {
      RefinesParents(cfg, s.round + 1, Parents(cfg, s.pool), s.pool[p].id);
    }
  }
}
