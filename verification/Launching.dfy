/** What a round launches: the derived counts, consecutive seeds, and one identity per task. */
module Launching {
  import opened Options
  import opened Search
  import Scoring

  ghost predicate ConsecutiveSeeds(tasks: seq<Task>, seed: nat) {
    forall k :: 0 <= k < |tasks| ==> tasks[k].seed == seed + k
  }

  ghost predicate DistinctIds(tasks: seq<Task>) {
    forall i, j :: 0 <= i < j < |tasks| ==> tasks[i].id != tasks[j].id
  }

  ghost predicate DistinctCheckpoints(checkpoints: seq<Checkpoint>) {
    forall i, j :: 0 <= i < j < |checkpoints| ==> checkpoints[i].id != checkpoints[j].id
  }

  function Models(checkpoints: seq<Checkpoint>): set<string> {
    set c | c in checkpoints :: c.id
  }

  /** A round-1 task as it is created. */
  predicate GenerationTask(t: Task, prompts: seq<string>, checkpoints: seq<Checkpoint>) {
    && t.id.Generate? && t.id.prompt in prompts && t.id.model == t.model && t.model in Models(checkpoints)
    && t.round == 1 && t.deps == [] && t.pc == Idle && !t.cancelled
  }

  /** A refinement task as it is created. */
  predicate RefinementTask(t: Task, round: nat, checkpoints: seq<Checkpoint>, parents: seq<nat>) {
    && t.id.Refine? && t.id.round == round && t.id.model == t.model && t.model in Models(checkpoints)
    && t.round == round && |t.deps| == 1 && t.deps[0] in parents && t.pc == Idle && !t.cancelled
  }

  ghost predicate Generations(tasks: seq<Task>, prompts: seq<string>, checkpoints: seq<Checkpoint>) {
    DistinctIds(tasks) && forall t :: t in tasks ==> GenerationTask(t, prompts, checkpoints)
  }

  ghost predicate Refinements(tasks: seq<Task>, round: nat, trial: nat, checkpoints: seq<Checkpoint>, parents: seq<nat>) {
    DistinctIds(tasks) && forall t :: t in tasks ==> RefinementTask(t, round, checkpoints, parents) && t.id.trial >= trial
  }

  lemma DistinctConcat(a: seq<Task>, b: seq<Task>)
    requires DistinctIds(a) && DistinctIds(b)
    requires forall x, y :: x in a && y in b ==> x.id != y.id
    ensures DistinctIds(a + b)
  {
    forall i, j | 0 <= i < j < |a + b| ensures (a + b)[i].id != (a + b)[j].id {
      if i < |a| <= j { assert (a + b)[i] in a && (a + b)[j] in b; }
    }
  }

  lemma SeedsConcat(a: seq<Task>, b: seq<Task>, seed: nat)
    requires ConsecutiveSeeds(a, seed) && ConsecutiveSeeds(b, seed + |a|)
    ensures ConsecutiveSeeds(a + b, seed)
  {
  }

  lemma TailDistinct(checkpoints: seq<Checkpoint>)
    requires checkpoints != [] && DistinctCheckpoints(checkpoints)
    ensures DistinctCheckpoints(checkpoints[1..])
    ensures checkpoints[0].id !in Models(checkpoints[1..])
    ensures Models(checkpoints) == {checkpoints[0].id} + Models(checkpoints[1..])
  {
    var rest := checkpoints[1..];
    assert forall k :: 0 <= k < |rest| ==> rest[k] == checkpoints[k + 1];
    assert checkpoints == [checkpoints[0]] + rest;
  }

  /** The tasks of one checkpoint followed by those of other checkpoints. */
  lemma JoinModels(a: seq<Task>, b: seq<Task>, prompt: string, c: Checkpoint, rest: seq<Checkpoint>)
    requires c.id !in Models(rest) && Generations(b, [prompt], rest) && DistinctIds(a)
    requires forall t :: t in a ==> GenerationTask(t, [prompt], [c])
    ensures Generations(a + b, [prompt], [c] + rest)
  {
    assert Models([c] + rest) == {c.id} + Models(rest) && Models([c]) == {c.id};
    forall x, y | x in a && y in b ensures x.id != y.id {
      assert GenerationTask(x, [prompt], [c]) && GenerationTask(y, [prompt], rest);
    }
    DistinctConcat(a, b);
    forall t | t in a + b ensures GenerationTask(t, [prompt], [c] + rest) {
      assert t in a || t in b;
    }
  }

  lemma {:induction false} ModelTasksFacts(prompt: string, checkpoints: seq<Checkpoint>, seed: nat)
    requires DistinctCheckpoints(checkpoints)
    ensures Generations(ModelTasks(prompt, checkpoints, seed), [prompt], checkpoints)
  {
    if checkpoints != [] {
      var c, rest := checkpoints[0], checkpoints[1..];
      TailDistinct(checkpoints);
      assert [c] + rest == checkpoints;
      ModelTasksFacts(prompt, rest, seed + c.generationSamples);
      var a, b := SlotTasks(prompt, c.id, c.generationSamples, seed), ModelTasks(prompt, rest, seed + c.generationSamples);
      JoinModels(a, b, prompt, c, rest);
      assert ModelTasks(prompt, checkpoints, seed) == a + b;
    }
  }

  /** The tasks of one prompt followed by those of other prompts. */
  lemma JoinPrompts(a: seq<Task>, b: seq<Task>, p: string, rest: seq<string>, checkpoints: seq<Checkpoint>)
    requires p !in rest && Generations(a, [p], checkpoints) && Generations(b, rest, checkpoints)
    ensures Generations(a + b, [p] + rest, checkpoints)
  {
    forall x, y | x in a && y in b ensures x.id != y.id {
      assert GenerationTask(x, [p], checkpoints) && GenerationTask(y, rest, checkpoints);
    }
    DistinctConcat(a, b);
    forall t | t in a + b ensures GenerationTask(t, [p] + rest, checkpoints) {
      assert t in a || t in b;
    }
  }

  lemma {:induction false} ModelTasksSeeds(prompt: string, checkpoints: seq<Checkpoint>, seed: nat)
    ensures |ModelTasks(prompt, checkpoints, seed)| == GenerationSum(checkpoints)
    ensures ConsecutiveSeeds(ModelTasks(prompt, checkpoints, seed), seed)
  {
    if checkpoints != [] {
      var n := checkpoints[0].generationSamples;
      ModelTasksSeeds(prompt, checkpoints[1..], seed + n);
      SeedsConcat(SlotTasks(prompt, checkpoints[0].id, n, seed), ModelTasks(prompt, checkpoints[1..], seed + n), seed);
    }
  }

  /** Round 1 launches exactly the derived number of attempts, with consecutive seeds. */
  lemma {:induction false} Round1Count(prompts: seq<string>, checkpoints: seq<Checkpoint>, seed: nat)
    ensures |Round1Tasks(prompts, checkpoints, seed)| == |prompts| * GenerationSum(checkpoints)
    ensures ConsecutiveSeeds(Round1Tasks(prompts, checkpoints, seed), seed)
  {
    if prompts != [] {
      var rest, n := prompts[1..], GenerationSum(checkpoints);
      ModelTasksSeeds(prompts[0], checkpoints, seed);
      Round1Count(rest, checkpoints, seed + n);
      SeedsConcat(ModelTasks(prompts[0], checkpoints, seed), Round1Tasks(rest, checkpoints, seed + n), seed);
      Scoring.Times(|rest|, n);
    }
  }

  /** Round-1 tasks have distinct identities, each of a prompt and a checkpoint of the configuration. */
  lemma {:induction false} Round1TasksFacts(prompts: seq<string>, checkpoints: seq<Checkpoint>, seed: nat)
    requires NoDup(prompts) && DistinctCheckpoints(checkpoints)
    ensures Generations(Round1Tasks(prompts, checkpoints, seed), prompts, checkpoints)
  {
    if prompts != [] {
      var p, rest, n := prompts[0], prompts[1..], GenerationSum(checkpoints);
      assert forall k :: 0 <= k < |rest| ==> rest[k] == prompts[k + 1];
      assert [p] + rest == prompts;
      ModelTasksFacts(p, checkpoints, seed);
      Round1TasksFacts(rest, checkpoints, seed + n);
      var a, b := ModelTasks(p, checkpoints, seed), Round1Tasks(rest, checkpoints, seed + n);
      JoinPrompts(a, b, p, rest, checkpoints);
      assert Round1Tasks(prompts, checkpoints, seed) == a + b;
    }
  }

  lemma {:induction false} RefineModelTasksSeeds(round: nat, trial: nat, checkpoints: seq<Checkpoint>, seed: nat, parent: nat)
    ensures |RefineModelTasks(round, trial, checkpoints, seed, parent)| == RefinementSum(checkpoints)
    ensures ConsecutiveSeeds(RefineModelTasks(round, trial, checkpoints, seed, parent), seed)
  {
    if checkpoints != [] {
      var n := checkpoints[0].refinementSamples;
      RefineModelTasksSeeds(round, trial, checkpoints[1..], seed + n, parent);
      SeedsConcat(RefineSlotTasks(round, trial, checkpoints[0].id, n, seed, parent),
                  RefineModelTasks(round, trial, checkpoints[1..], seed + n, parent), seed);
    }
  }

  /** A refinement round launches the derived number of attempts per parent, with consecutive seeds. */
  lemma {:induction false} RefineCount(round: nat, trial: nat, checkpoints: seq<Checkpoint>, seed: nat, parents: seq<nat>)
    ensures |RefineTasks(round, trial, checkpoints, seed, parents)| == |parents| * RefinementSum(checkpoints)
    ensures ConsecutiveSeeds(RefineTasks(round, trial, checkpoints, seed, parents), seed)
    decreases parents
  {
    if parents != [] {
      var n, rest := RefinementSum(checkpoints), parents[1..];
      var next := seed + n;
      var a, b := RefineModelTasks(round, trial, checkpoints, seed, parents[0]), RefineTasks(round, trial + 1, checkpoints, next, rest);
      RefineModelTasksSeeds(round, trial, checkpoints, seed, parents[0]);
      RefineCount(round, trial + 1, checkpoints, next, rest);
      CountStep(RefineTasks(round, trial, checkpoints, seed, parents), a, b, seed, |rest|, n);
    }
  }

  lemma CountStep(tasks: seq<Task>, a: seq<Task>, b: seq<Task>, seed: nat, others: nat, n: nat)
    requires tasks == a + b && |a| == n && |b| == others * n && ConsecutiveSeeds(a, seed) && ConsecutiveSeeds(b, seed + n)
    ensures |tasks| == (others + 1) * n && ConsecutiveSeeds(tasks, seed)
  {
    SeedsConcat(a, b, seed);
    Scoring.Times(others, n);
  }

  ghost predicate OneTrial(tasks: seq<Task>, round: nat, trial: nat, checkpoints: seq<Checkpoint>, parent: nat) {
    DistinctIds(tasks) && forall t :: t in tasks ==> RefinementTask(t, round, checkpoints, [parent]) && t.id.trial == trial
  }

  lemma JoinRefiners(a: seq<Task>, b: seq<Task>, round: nat, trial: nat, c: Checkpoint, rest: seq<Checkpoint>, parent: nat)
    requires c.id !in Models(rest) && OneTrial(a, round, trial, [c], parent) && OneTrial(b, round, trial, rest, parent)
    ensures OneTrial(a + b, round, trial, [c] + rest, parent)
  {
    assert Models([c] + rest) == {c.id} + Models(rest) && Models([c]) == {c.id};
    forall x, y | x in a && y in b ensures x.id != y.id {
      assert RefinementTask(x, round, [c], [parent]) && RefinementTask(y, round, rest, [parent]);
    }
    DistinctConcat(a, b);
    forall t | t in a + b ensures RefinementTask(t, round, [c] + rest, [parent]) && t.id.trial == trial {
      assert t in a || t in b;
    }
  }

  lemma {:induction false} RefineModelTasksFacts(round: nat, trial: nat, checkpoints: seq<Checkpoint>, seed: nat, parent: nat)
    requires DistinctCheckpoints(checkpoints)
    ensures OneTrial(RefineModelTasks(round, trial, checkpoints, seed, parent), round, trial, checkpoints, parent)
  {
    if checkpoints != [] {
      var c, rest := checkpoints[0], checkpoints[1..];
      TailDistinct(checkpoints);
      assert [c] + rest == checkpoints;
      RefineModelTasksFacts(round, trial, rest, seed + c.refinementSamples, parent);
      var a := RefineSlotTasks(round, trial, c.id, c.refinementSamples, seed, parent);
      var b := RefineModelTasks(round, trial, rest, seed + c.refinementSamples, parent);
      JoinRefiners(a, b, round, trial, c, rest, parent);
      assert RefineModelTasks(round, trial, checkpoints, seed, parent) == a + b;
    }
  }

  /** The tasks of one trial followed by those of later trials. */
  lemma JoinTrials(a: seq<Task>, b: seq<Task>, round: nat, trial: nat, checkpoints: seq<Checkpoint>, p: nat, rest: seq<nat>)
    requires OneTrial(a, round, trial, checkpoints, p) && Refinements(b, round, trial + 1, checkpoints, rest)
    ensures Refinements(a + b, round, trial, checkpoints, [p] + rest)
  {
    forall x, y | x in a && y in b ensures x.id != y.id {
      assert x.id.trial == trial && RefinementTask(y, round, checkpoints, rest) && y.id.trial >= trial + 1;
    }
    DistinctConcat(a, b);
    forall t | t in a + b ensures RefinementTask(t, round, checkpoints, [p] + rest) && t.id.trial >= trial {
      assert t in a || t in b;
    }
  }

  /** The first parent's trial, then those of the other parents. */
  lemma TrialsStep(all: seq<Task>, a: seq<Task>, b: seq<Task>, round: nat, trial: nat, checkpoints: seq<Checkpoint>, parents: seq<nat>)
    requires parents != [] && all == a + b
    requires OneTrial(a, round, trial, checkpoints, parents[0]) && Refinements(b, round, trial + 1, checkpoints, parents[1..])
    ensures Refinements(all, round, trial, checkpoints, parents)
  {
    assert [parents[0]] + parents[1..] == parents;
    JoinTrials(a, b, round, trial, checkpoints, parents[0], parents[1..]);
  }

  /** Refinement tasks have distinct identities, each of the round and a checkpoint of the configuration. */
  lemma {:induction false} RefineTasksFacts(round: nat, trial: nat, checkpoints: seq<Checkpoint>, seed: nat, parents: seq<nat>)
    requires DistinctCheckpoints(checkpoints)
    ensures Refinements(RefineTasks(round, trial, checkpoints, seed, parents), round, trial, checkpoints, parents)
    decreases parents
  {
    if parents != [] {
      var n := RefinementSum(checkpoints);
      RefineModelTasksFacts(round, trial, checkpoints, seed, parents[0]);
      RefineTasksFacts(round, trial + 1, checkpoints, seed + n, parents[1..]);
      TrialsStep(RefineTasks(round, trial, checkpoints, seed, parents), RefineModelTasks(round, trial, checkpoints, seed, parents[0]),
                 RefineTasks(round, trial + 1, checkpoints, seed + n, parents[1..]), round, trial, checkpoints, parents);
    }
  }

  /** A new round's tasks have yet to start, and work under refinement identities of its number. */
  lemma FreshTasks(round: nat, checkpoints: seq<Checkpoint>, parents: seq<nat>)
    requires DistinctCheckpoints(checkpoints)
    ensures forall t :: t in RefineTasks(round, 0, checkpoints, 0, parents) ==>
      t.pc == Idle && t.round == round && t.model in Models(checkpoints) && t.id.Refine? && t.id.round == round
  {
    RefineTasksFacts(round, 0, checkpoints, 0, parents);
    var tasks := RefineTasks(round, 0, checkpoints, 0, parents);
    forall t | t in tasks ensures t.pc == Idle && t.round == round && t.model in Models(checkpoints) && t.id.Refine? && t.id.round == round {
      assert RefinementTask(t, round, checkpoints, parents);
    }
  }

  // ---- every sample of the configuration is launched -------------------------------------------

  lemma FreshPlaces(round: nat, checkpoints: seq<Checkpoint>, parents: seq<nat>)
    requires DistinctCheckpoints(checkpoints)
    ensures var tasks := RefineTasks(round, 0, checkpoints, 0, parents);
      forall j :: 0 <= j < |tasks| ==> tasks[j].pc == Idle && tasks[j].id.Refine? && tasks[j].id.round == round
  {
    var tasks := RefineTasks(round, 0, checkpoints, 0, parents);
    FreshTasks(round, checkpoints, parents);
    assert forall j :: 0 <= j < |tasks| ==> tasks[j] in tasks;
  }

  /** The tasks of the next round, place by place. */
  lemma NextTasks(cfg: Config, s: State)
    requires ValidConfig(cfg) && Enabled(cfg, s, NextRound)
    ensures var s' := Next(cfg, s, NextRound);
      forall j :: 0 <= j < |s'.tasks| ==> s'.tasks[j].pc == Idle && s'.tasks[j].id.Refine? && s'.tasks[j].id.round == s.round + 1
  {
    var parents := Parents(cfg, s.pool);
    FreshPlaces(s.round + 1, cfg.checkpoints, parents);
    assert Next(cfg, s, NextRound).tasks == RefineTasks(s.round + 1, 0, cfg.checkpoints, 0, parents);
  }

  ghost predicate Launched(tasks: seq<Task>, id: WorkId) {
    exists t :: t in tasks && t.id == id
  }

  lemma LaunchedInPart(tasks: seq<Task>, a: seq<Task>, b: seq<Task>, id: WorkId)
    requires tasks == a + b && (Launched(a, id) || Launched(b, id))
    ensures Launched(tasks, id)
  {
    if Launched(a, id) {
      var t :| t in a && t.id == id;
      assert t in tasks;
    } else {
      var t :| t in b && t.id == id;
      assert t in tasks;
    }
  }

  lemma {:induction false} ModelTasksCover(prompt: string, checkpoints: seq<Checkpoint>, seed: nat, c: Checkpoint, slot: nat)
    requires c in checkpoints && slot < c.generationSamples
    ensures Launched(ModelTasks(prompt, checkpoints, seed), Generate(prompt, c.id, slot))
  {
    var first, rest := checkpoints[0], checkpoints[1..];
    var a, b := SlotTasks(prompt, first.id, first.generationSamples, seed), ModelTasks(prompt, rest, seed + first.generationSamples);
    if first == c {
      assert a[slot] in a;
    } else {
      assert checkpoints == [first] + rest;
      ModelTasksCover(prompt, rest, seed + first.generationSamples, c, slot);
    }
    LaunchedInPart(ModelTasks(prompt, checkpoints, seed), a, b, Generate(prompt, c.id, slot));
  }

  lemma {:induction false} InFirstPrompt(prompts: seq<string>, checkpoints: seq<Checkpoint>, seed: nat, id: WorkId)
    requires prompts != [] && Launched(ModelTasks(prompts[0], checkpoints, seed), id)
    ensures Launched(Round1Tasks(prompts, checkpoints, seed), id)
  {
    LaunchedInPart(Round1Tasks(prompts, checkpoints, seed), ModelTasks(prompts[0], checkpoints, seed),
                   Round1Tasks(prompts[1..], checkpoints, seed + GenerationSum(checkpoints)), id);
  }

  lemma {:induction false} InOtherPrompts(prompts: seq<string>, checkpoints: seq<Checkpoint>, seed: nat, next: nat, id: WorkId)
    requires prompts != [] && next == seed + GenerationSum(checkpoints) && Launched(Round1Tasks(prompts[1..], checkpoints, next), id)
    ensures Launched(Round1Tasks(prompts, checkpoints, seed), id)
  {
    LaunchedInPart(Round1Tasks(prompts, checkpoints, seed), ModelTasks(prompts[0], checkpoints, seed), Round1Tasks(prompts[1..], checkpoints, next), id);
  }

  lemma {:induction false} Round1TasksCover(prompts: seq<string>, checkpoints: seq<Checkpoint>, seed: nat, prompt: string, c: Checkpoint, slot: nat)
    requires prompt in prompts && c in checkpoints && slot < c.generationSamples
    ensures Launched(Round1Tasks(prompts, checkpoints, seed), Generate(prompt, c.id, slot))
  {
    var id := Generate(prompt, c.id, slot);
    if prompts[0] == prompt {
      ModelTasksCover(prompt, checkpoints, seed, c, slot);
      InFirstPrompt(prompts, checkpoints, seed, id);
    } else {
      var next := seed + GenerationSum(checkpoints);
      assert prompts == [prompts[0]] + prompts[1..];
      Round1TasksCover(prompts[1..], checkpoints, next, prompt, c, slot);
      InOtherPrompts(prompts, checkpoints, seed, next, id);
    }
  }

  /** A sample of the configuration: a prompt, a checkpoint and one of its slots. */
  predicate Sample(prompts: seq<string>, checkpoints: seq<Checkpoint>, id: WorkId) {
    id.Generate? && id.prompt in prompts && exists c :: c in checkpoints && c.id == id.model && id.slot < c.generationSamples
  }

  lemma {:induction false} ModelTasksInRange(prompt: string, checkpoints: seq<Checkpoint>, seed: nat, t: Task)
    requires t in ModelTasks(prompt, checkpoints, seed)
    ensures Sample([prompt], checkpoints, t.id) && t.model == t.id.model
  {
    var first, rest := checkpoints[0], checkpoints[1..];
    assert checkpoints == [first] + rest;
    if t in SlotTasks(prompt, first.id, first.generationSamples, seed) {
      assert first in checkpoints;
    } else {
      ModelTasksInRange(prompt, rest, seed + first.generationSamples, t);
    }
  }

  lemma {:induction false} Round1TasksInRange(prompts: seq<string>, checkpoints: seq<Checkpoint>, seed: nat, t: Task)
    requires t in Round1Tasks(prompts, checkpoints, seed)
    ensures Sample(prompts, checkpoints, t.id) && t.model == t.id.model
  {
    assert prompts == [prompts[0]] + prompts[1..];
    if t in ModelTasks(prompts[0], checkpoints, seed) {
      ModelTasksInRange(prompts[0], checkpoints, seed, t);
    } else {
      Round1TasksInRange(prompts[1..], checkpoints, seed + GenerationSum(checkpoints), t);
    }
  }

  /** Round 1 launches one task for every prompt, checkpoint and sample slot, and no other. */
  lemma {:induction false} Round1IsAllSamples(prompts: seq<string>, checkpoints: seq<Checkpoint>, seed: nat, id: WorkId)
    requires NoDup(prompts) && DistinctCheckpoints(checkpoints)
    ensures DistinctIds(Round1Tasks(prompts, checkpoints, seed))
    ensures Launched(Round1Tasks(prompts, checkpoints, seed), id) <==> Sample(prompts, checkpoints, id)
  {
    var tasks := Round1Tasks(prompts, checkpoints, seed);
    Round1TasksFacts(prompts, checkpoints, seed);
    if Launched(tasks, id) {
      var t :| t in tasks && t.id == id;
      Round1TasksInRange(prompts, checkpoints, seed, t);
    }
    if Sample(prompts, checkpoints, id) {
      var c :| c in checkpoints && c.id == id.model && id.slot < c.generationSamples;
      Round1TasksCover(prompts, checkpoints, seed, id.prompt, c, id.slot);
    }
  }

  lemma {:induction false} RefineModelTasksCover(round: nat, trial: nat, checkpoints: seq<Checkpoint>, seed: nat, parent: nat, c: Checkpoint, slot: nat)
    requires c in checkpoints && slot < c.refinementSamples
    ensures Launched(RefineModelTasks(round, trial, checkpoints, seed, parent), Refine(round, trial, c.id, slot))
  {
    var first, rest := checkpoints[0], checkpoints[1..];
    var a := RefineSlotTasks(round, trial, first.id, first.refinementSamples, seed, parent);
    var b := RefineModelTasks(round, trial, rest, seed + first.refinementSamples, parent);
    if first == c {
      assert a[slot] in a;
    } else {
      assert checkpoints == [first] + rest;
      RefineModelTasksCover(round, trial, rest, seed + first.refinementSamples, parent, c, slot);
    }
    LaunchedInPart(RefineModelTasks(round, trial, checkpoints, seed, parent), a, b, Refine(round, trial, c.id, slot));
  }

  lemma {:induction false} InFirstTrial(round: nat, trial: nat, checkpoints: seq<Checkpoint>, seed: nat, parents: seq<nat>, id: WorkId)
    requires parents != [] && Launched(RefineModelTasks(round, trial, checkpoints, seed, parents[0]), id)
    ensures Launched(RefineTasks(round, trial, checkpoints, seed, parents), id)
  {
    LaunchedInPart(RefineTasks(round, trial, checkpoints, seed, parents), RefineModelTasks(round, trial, checkpoints, seed, parents[0]),
                   RefineTasks(round, trial + 1, checkpoints, seed + RefinementSum(checkpoints), parents[1..]), id);
  }

  lemma {:induction false} InOtherTrials(round: nat, trial: nat, checkpoints: seq<Checkpoint>, seed: nat, next: nat, parents: seq<nat>, id: WorkId)
    requires parents != [] && next == seed + RefinementSum(checkpoints)
    requires Launched(RefineTasks(round, trial + 1, checkpoints, next, parents[1..]), id)
    ensures Launched(RefineTasks(round, trial, checkpoints, seed, parents), id)
  {
    LaunchedInPart(RefineTasks(round, trial, checkpoints, seed, parents), RefineModelTasks(round, trial, checkpoints, seed, parents[0]),
                   RefineTasks(round, trial + 1, checkpoints, next, parents[1..]), id);
  }

  lemma {:induction false} RefineTasksCover(round: nat, trial: nat, checkpoints: seq<Checkpoint>, seed: nat, parents: seq<nat>, p: nat, c: Checkpoint, slot: nat)
    requires p < |parents| && c in checkpoints && slot < c.refinementSamples
    ensures Launched(RefineTasks(round, trial, checkpoints, seed, parents), Refine(round, trial + p, c.id, slot))
    decreases parents
  {
    var id := Refine(round, trial + p, c.id, slot);
    if p == 0 {
      RefineModelTasksCover(round, trial, checkpoints, seed, parents[0], c, slot);
      InFirstTrial(round, trial, checkpoints, seed, parents, id);
    } else {
      var next := seed + RefinementSum(checkpoints);
      RefineTasksCover(round, trial + 1, checkpoints, next, parents[1..], p - 1, c, slot);
      InOtherTrials(round, trial, checkpoints, seed, next, parents, id);
    }
  }

  /** A refinement of the round: the trial of one parent, a checkpoint and one of its slots. */
  predicate Refinement(round: nat, trial: nat, checkpoints: seq<Checkpoint>, parents: seq<nat>, id: WorkId) {
    && id.Refine? && id.round == round && trial <= id.trial < trial + |parents|
    && exists c :: c in checkpoints && c.id == id.model && id.slot < c.refinementSamples
  }

  lemma {:induction false} RefineModelTasksInRange(round: nat, trial: nat, checkpoints: seq<Checkpoint>, seed: nat, parent: nat, t: Task)
    requires t in RefineModelTasks(round, trial, checkpoints, seed, parent)
    ensures Refinement(round, trial, checkpoints, [parent], t.id) && t.deps == [parent] && t.model == t.id.model
  {
    var first, rest := checkpoints[0], checkpoints[1..];
    assert checkpoints == [first] + rest;
    if t in RefineSlotTasks(round, trial, first.id, first.refinementSamples, seed, parent) {
      assert first in checkpoints;
    } else {
      RefineModelTasksInRange(round, trial, rest, seed + first.refinementSamples, parent, t);
    }
  }

  lemma {:induction false} RefineTasksInRange(round: nat, trial: nat, checkpoints: seq<Checkpoint>, seed: nat, parents: seq<nat>, t: Task)
    requires t in RefineTasks(round, trial, checkpoints, seed, parents)
    ensures Refinement(round, trial, checkpoints, parents, t.id) && t.deps == [parents[t.id.trial - trial]] && t.model == t.id.model
    decreases parents
  {
    if t in RefineModelTasks(round, trial, checkpoints, seed, parents[0]) {
      RefineModelTasksInRange(round, trial, checkpoints, seed, parents[0], t);
    } else {
      RefineTasksInRange(round, trial + 1, checkpoints, seed + RefinementSum(checkpoints), parents[1..], t);
    }
  }

  /**
   * A refinement round launches one task for every parent, checkpoint and sample slot, and no other; each depends on the
   * parent of its own trial.
   */
  lemma {:induction false} RefineRoundIsAllSamples(round: nat, checkpoints: seq<Checkpoint>, seed: nat, parents: seq<nat>, id: WorkId)
    requires DistinctCheckpoints(checkpoints)
    ensures var tasks := RefineTasks(round, 0, checkpoints, seed, parents);
      && DistinctIds(tasks)
      && (Launched(tasks, id) <==> Refinement(round, 0, checkpoints, parents, id))
      && (forall t :: t in tasks ==> t.id.Refine? && t.id.trial < |parents| && t.deps == [parents[t.id.trial]])
  {
    var tasks := RefineTasks(round, 0, checkpoints, seed, parents);
    RefineTasksFacts(round, 0, checkpoints, seed, parents);
    forall t | t in tasks ensures t.id.Refine? && t.id.trial < |parents| && t.deps == [parents[t.id.trial]] {
      RefineTasksInRange(round, 0, checkpoints, seed, parents, t);
    }
    if Launched(tasks, id) {
      var t :| t in tasks && t.id == id;
      RefineTasksInRange(round, 0, checkpoints, seed, parents, t);
    }
    if Refinement(round, 0, checkpoints, parents, id) {
      var c :| c in checkpoints && c.id == id.model && id.slot < c.refinementSamples;
      RefineTasksCover(round, 0, checkpoints, seed, parents, id.trial, c, id.slot);
    }
  }

  // ---- how many a refinement round launches -----------------------------------------------------

  /** Every refinement round launches at most the derived count: at most the configured number of parents is chosen. */
  lemma RefinementRoundCount(cfg: Config, s: State)
    requires Enabled(cfg, s, NextRound)
    ensures var n := |Next(cfg, s, NextRound).tasks|;
      n == |Parents(cfg, s.pool)| * RefinementSum(cfg.checkpoints) <= cfg.parentsPerRound * RefinementSum(cfg.checkpoints)
  {
    var parents := Parents(cfg, s.pool);
    RefineCount(s.round + 1, 0, cfg.checkpoints, 0, parents);
    AtMostConfigured(cfg, s.pool);
    MonotoneProduct(|parents|, cfg.parentsPerRound, RefinementSum(cfg.checkpoints));
  }

  lemma AtMostConfigured(cfg: Config, pool: seq<Record>)
    ensures |Parents(cfg, pool)| <= cfg.parentsPerRound
  {
  }

  lemma MonotoneProduct(a: nat, b: nat, c: nat)
    requires a <= b
    ensures a * c <= b * c
  {
  }

  // ---- every attempt at its place --------------------------------------------------------------

  /** `p` times `size`, added up. */
  function Skip(p: nat, size: nat): nat {
    if p == 0 then 0 else size + Skip(p - 1, size)
  }

  lemma {:induction false} SkipIsProduct(p: nat, size: nat)
    ensures Skip(p, size) == p * size
  {
    if p > 0 {
      SkipIsProduct(p - 1, size);
      Scoring.Times(p - 1, size);
    }
  }

  lemma PrefixSums(checkpoints: seq<Checkpoint>, c: nat)
    requires 0 < c <= |checkpoints|
    ensures GenerationSum(checkpoints[..c]) == checkpoints[0].generationSamples + GenerationSum(checkpoints[1..][..c - 1])
    ensures RefinementSum(checkpoints[..c]) == checkpoints[0].refinementSamples + RefinementSum(checkpoints[1..][..c - 1])
  {
    assert checkpoints[..c][1..] == checkpoints[1..][..c - 1];
  }

  /** The list has this task at this place. */
  ghost predicate At(tasks: seq<Task>, n: nat, t: Task) {
    n < |tasks| && tasks[n] == t
  }

  lemma AtLater(a: seq<Task>, b: seq<Task>, n: nat, t: Task)
    requires At(b, n, t)
    ensures At(a + b, |a| + n, t)
  {
  }

  lemma {:induction false} ModelTaskAt(prompt: string, checkpoints: seq<Checkpoint>, seed: nat, c: nat, k: nat, at: nat, t: Task)
    requires c < |checkpoints| && k < checkpoints[c].generationSamples && at == GenerationSum(checkpoints[..c]) + k
    requires t == NewTask(Generate(prompt, checkpoints[c].id, k), checkpoints[c].id, 1, seed + at, [])
    ensures At(ModelTasks(prompt, checkpoints, seed), at, t)
  {
    if c > 0 {
      PrefixSums(checkpoints, c);
      var n := checkpoints[0].generationSamples;
      var rest: seq<Checkpoint>, next: nat := checkpoints[1..], seed + n;
      ModelTaskAt(prompt, rest, next, c - 1, k, at - n, t);
    }
  }

  lemma Round1Unfold(prompts: seq<string>, checkpoints: seq<Checkpoint>, seed: nat, size: nat)
    requires prompts != [] && size == GenerationSum(checkpoints)
    ensures Round1Tasks(prompts, checkpoints, seed) == ModelTasks(prompts[0], checkpoints, seed) + Round1Tasks(prompts[1..], checkpoints, seed + size)
    ensures |ModelTasks(prompts[0], checkpoints, seed)| == size
  {
    ModelTasksSeeds(prompts[0], checkpoints, seed);
  }

  lemma Round1First(prompts: seq<string>, checkpoints: seq<Checkpoint>, seed: nat, n: nat, t: Task)
    requires prompts != [] && At(ModelTasks(prompts[0], checkpoints, seed), n, t)
    ensures At(Round1Tasks(prompts, checkpoints, seed), n, t)
  {
  }

  lemma Round1Later(prompts: seq<string>, checkpoints: seq<Checkpoint>, seed: nat, size: nat, rest: seq<string>, next: nat, n: nat, t: Task)
    requires prompts != [] && size == GenerationSum(checkpoints) && rest == prompts[1..] && next == seed + size
    requires At(Round1Tasks(rest, checkpoints, next), n, t)
    ensures At(Round1Tasks(prompts, checkpoints, seed), size + n, t)
  {
    Round1Unfold(prompts, checkpoints, seed, size);
    AtLater(ModelTasks(prompts[0], checkpoints, seed), Round1Tasks(prompts[1..], checkpoints, seed + size), n, t);
  }

  /** The tasks of prompt `p` stand behind those of the prompts before it. */
  lemma {:induction false} Round1Skips(prompts: seq<string>, checkpoints: seq<Checkpoint>, seed: nat, size: nat, p: nat, skip: nat, first: nat, n: nat, t: Task)
    requires p < |prompts| && size == GenerationSum(checkpoints) && skip == Skip(p, size) && first == seed + skip
    requires At(ModelTasks(prompts[p], checkpoints, first), n, t)
    ensures At(Round1Tasks(prompts, checkpoints, seed), skip + n, t)
  {
    if p == 0 {
      Round1First(prompts, checkpoints, seed, n, t);
    } else {
      var rest: seq<string>, next: nat, less: nat := prompts[1..], seed + size, Skip(p - 1, size);
      Round1Skips(rest, checkpoints, next, size, p - 1, less, first, n, t);
      Round1Later(prompts, checkpoints, seed, size, rest, next, less + n, t);
    }
  }

  lemma {:induction false} TrialTaskAt(round: nat, trial: nat, checkpoints: seq<Checkpoint>, seed: nat, parent: nat, c: nat, k: nat, at: nat, t: Task)
    requires c < |checkpoints| && k < checkpoints[c].refinementSamples && at == RefinementSum(checkpoints[..c]) + k
    requires t == NewTask(Refine(round, trial, checkpoints[c].id, k), checkpoints[c].id, round, seed + at, [parent])
    ensures At(RefineModelTasks(round, trial, checkpoints, seed, parent), at, t)
  {
    if c > 0 {
      PrefixSums(checkpoints, c);
      var n := checkpoints[0].refinementSamples;
      var rest: seq<Checkpoint>, next: nat := checkpoints[1..], seed + n;
      TrialTaskAt(round, trial, rest, next, parent, c - 1, k, at - n, t);
    }
  }

  lemma RefineUnfold(round: nat, trial: nat, checkpoints: seq<Checkpoint>, seed: nat, parents: seq<nat>, size: nat)
    requires parents != [] && size == RefinementSum(checkpoints)
    ensures RefineTasks(round, trial, checkpoints, seed, parents) ==
      RefineModelTasks(round, trial, checkpoints, seed, parents[0]) + RefineTasks(round, trial + 1, checkpoints, seed + size, parents[1..])
    ensures |RefineModelTasks(round, trial, checkpoints, seed, parents[0])| == size
  {
    RefineModelTasksSeeds(round, trial, checkpoints, seed, parents[0]);
  }

  lemma RefineFirst(round: nat, trial: nat, checkpoints: seq<Checkpoint>, seed: nat, parents: seq<nat>, n: nat, t: Task)
    requires parents != [] && At(RefineModelTasks(round, trial, checkpoints, seed, parents[0]), n, t)
    ensures At(RefineTasks(round, trial, checkpoints, seed, parents), n, t)
  {
  }

  lemma RefineLater(round: nat, trial: nat, checkpoints: seq<Checkpoint>, seed: nat, parents: seq<nat>, size: nat,
                    rest: seq<nat>, next: nat, n: nat, t: Task)
    requires parents != [] && size == RefinementSum(checkpoints) && rest == parents[1..] && next == seed + size
    requires At(RefineTasks(round, trial + 1, checkpoints, next, rest), n, t)
    ensures At(RefineTasks(round, trial, checkpoints, seed, parents), size + n, t)
  {
    RefineUnfold(round, trial, checkpoints, seed, parents, size);
    AtLater(RefineModelTasks(round, trial, checkpoints, seed, parents[0]),
            RefineTasks(round, trial + 1, checkpoints, seed + size, parents[1..]), n, t);
  }

  /** The tasks of parent `p` stand behind those of the parents before it. */
  lemma {:induction false} RefineSkips(round: nat, trial: nat, checkpoints: seq<Checkpoint>, seed: nat, parents: seq<nat>, size: nat,
                                       p: nat, skip: nat, first: nat, n: nat, t: Task)
    requires p < |parents| && size == RefinementSum(checkpoints) && skip == Skip(p, size) && first == seed + skip
    requires At(RefineModelTasks(round, trial + p, checkpoints, first, parents[p]), n, t)
    ensures At(RefineTasks(round, trial, checkpoints, seed, parents), skip + n, t)
    decreases parents
  {
    if p == 0 {
      RefineFirst(round, trial, checkpoints, seed, parents, n, t);
    } else {
      var rest: seq<nat>, next: nat, less: nat := parents[1..], seed + size, Skip(p - 1, size);
      RefineSkips(round, trial + 1, checkpoints, next, rest, size, p - 1, less, first, n, t);
      RefineLater(round, trial, checkpoints, seed, parents, size, rest, next, less + n, t);
    }
  }

  lemma Round1InOrder(prompts: seq<string>, checkpoints: seq<Checkpoint>, size: nat, p: nat, first: nat, c: nat, k: nat, at: nat, t: Task)
    requires p < |prompts| && c < |checkpoints| && k < checkpoints[c].generationSamples && size == GenerationSum(checkpoints)
    requires first == Skip(p, size) && at == GenerationSum(checkpoints[..c]) + k
    requires t == NewTask(Generate(prompts[p], checkpoints[c].id, k), checkpoints[c].id, 1, first + at, [])
    ensures At(Round1Tasks(prompts, checkpoints, 0), first + at, t)
  {
    ModelTaskAt(prompts[p], checkpoints, first, c, k, at, t);
    Round1Skips(prompts, checkpoints, 0, size, p, first, first, at, t);
  }

  /**
   * A launch begins with its round-1 attempts in order, by prompt, checkpoint and sample slot, seeds counting from 0, and
   * nothing else done.
   */
  lemma LaunchesInOrder(cfg: Config, disk: seq<Entry>, p: nat, first: nat, c: nat, k: nat, at: nat)
    requires p < |cfg.prompts| && c < |cfg.checkpoints| && k < cfg.checkpoints[c].generationSamples
    requires first == p * GenerationSum(cfg.checkpoints) && at == GenerationSum(cfg.checkpoints[..c]) + k
    ensures var s := Init(cfg, disk);
      && At(s.tasks, first + at, Task(Generate(cfg.prompts[p], cfg.checkpoints[c].id, k), cfg.checkpoints[c].id, 1, first + at, [], Idle, false))
      && s.round == 1 && s.nextId == 1 && s.pool == [] && s.rows == [] && s.issued == [] && s.finalists == map[] && s.stopped == {}
      && !s.failed && !s.aborting
  {
    var size, id := GenerationSum(cfg.checkpoints), cfg.checkpoints[c].id;
    SkipIsProduct(p, size);
    Round1InOrder(cfg.prompts, cfg.checkpoints, size, p, first, c, k, at, NewTask(Generate(cfg.prompts[p], id, k), id, 1, first + at, []));
  }

  lemma RefineInOrder(round: nat, checkpoints: seq<Checkpoint>, parents: seq<nat>, size: nat, p: nat, first: nat, c: nat, k: nat, at: nat, t: Task)
    requires p < |parents| && c < |checkpoints| && k < checkpoints[c].refinementSamples && size == RefinementSum(checkpoints)
    requires first == Skip(p, size) && at == RefinementSum(checkpoints[..c]) + k
    requires t == NewTask(Refine(round, p, checkpoints[c].id, k), checkpoints[c].id, round, first + at, [parents[p]])
    ensures At(RefineTasks(round, 0, checkpoints, 0, parents), first + at, t)
  {
    TrialTaskAt(round, p, checkpoints, first, parents[p], c, k, at, t);
    RefineSkips(round, 0, checkpoints, 0, parents, size, p, first, first, at, t);
  }

  /** A refinement round takes its parents in ranked order, and with each the checkpoints and slots in order, seeds again from 0. */
  lemma RefinesInOrder(cfg: Config, s: State, parents: seq<nat>, p: nat, first: nat, c: nat, k: nat, at: nat)
    requires Enabled(cfg, s, NextRound) && parents == Parents(cfg, s.pool)
    requires p < |parents| && c < |cfg.checkpoints| && k < cfg.checkpoints[c].refinementSamples
    requires first == p * RefinementSum(cfg.checkpoints) && at == RefinementSum(cfg.checkpoints[..c]) + k
    ensures var s', id := Next(cfg, s, NextRound), cfg.checkpoints[c].id;
      && s'.round == s.round + 1 && s'.pool == s.pool && s'.rows == s.rows
      && At(s'.tasks, first + at, Task(Refine(s.round + 1, p, id, k), id, s.round + 1, first + at, [parents[p]], Idle, false))
  {
    var size, id := RefinementSum(cfg.checkpoints), cfg.checkpoints[c].id;
    var t := NewTask(Refine(s.round + 1, p, id, k), id, s.round + 1, first + at, [parents[p]]);
    SkipIsProduct(p, size);
    RefineInOrder(s.round + 1, cfg.checkpoints, parents, size, p, first, c, k, at, t);
    assert Next(cfg, s, NextRound) == BeginRound(cfg, s, parents);
  }
}
