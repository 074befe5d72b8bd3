# Search, verify and resume: a verified model of the nemotron-imo-tts recipe

The recipe runs many language-model requests per problem: it generates proofs, has a panel of verifiers score each one,
refines the best, stops a checkpoint once a proof of it is accepted, and lets judges pick the submission. Every response
becomes one row on disk, so that a run may be stopped or may die at any moment and go on later. This project models that
engine and proves what it promises. `dafny verify dfyconfig.toml` checks everything.

## How the model is laid out

- **The search of one problem** (`Search.dfy`) is a step machine. One step is the code between two awaits of one task, or
  one thing the outside does: deliver a response, park or fail a request, finish a write, cancel, abort. A crash is a run
  that takes no further step; a relaunch starts from a scan of what was written. `Orchestrator.dfy` is the same code as
  classes whose methods update fields, dictionaries and records in place; each method moves the object exactly as the
  machine's step says, and every step of a task has its method.
- **What every step keeps**, and what follows for runs and for histories of launches: `Durability.dfy` (one request, one
  row), `Panels.dfy`, `Verdicts.dfy`, `PanelRules.dfy` and `Cancelling.dfy` (what decides a verdict), `Safety.dfy`
  (acceptance, stopping, nothing undone), `Conservation.dfy`, `Admission.dfy` and `Lineage.dfy` (which samples the pool
  counts, and how), `Provenance.dfy` and `Relaunch.dfy` (acceptance survives), `Steps.dfy`, `Records.dfy`, `Outcome.dfy`,
  `Fatal.dfy` and `Termination.dfy` (how a search ends), `Launching.dfy` (what a round launches).
- **The resume ledger** (`Identity.dfy`, `Ledger.dfy`, `Persistence.dfy`): printed work identities, the index with its
  three views as an object updated in place, and the round trip from request to row to answer.
- **Judging** (`Judging.dfy`, `SlotRules.dfy`, `JudgePhase.dfy`, `JudgeReplay.dfy`, `JudgeHistory.dfy`): the loop of one
  slot, all slots of all finalists interleaved, and both over histories. `WholeRun.dfy` puts search and judging together:
  the directory, launches that die anywhere in either part, and the ledger the next launch scans.
- **Rules**: `Scoring.dfy`, `Ranking.dfy`, `Sorting.dfy`, `Critiques.dfy`, `CritiqueGuarantees.dfy`, `PoolRecord.dfy`,
  `Text.dfy`.
- **Around it**: `Client.dfy` (retry loop, lanes), `Driver.dfy` (results and submissions across launches), `NodeList.dfy`
  and `Sandbox.dfy` (the sandbox start script).

Parameters stand for what the engine calls and does not define: what a request answers, `parse_proof`, `float()` and
`int()` on text, the clock, and `sha256_text`, taken as injective with plain results (`Persistence.GoodHash`). Scores
and means are real numbers; a self-evaluation is a Python float with its infinities and NaN.

## Model

Paths below are relative to the repository root; `orchestrator.py` and its neighbours lie in
`recipes/nemotron-imo-tts/nemotron_imo_tts`.

| member | source | states |
|---|---|---|
| `WholeRun.OneRowPerIdentityInAllRoles` | recipes/nemotron-imo-tts/nemotron_imo_tts/resume.py:97-172 | Over any history of launches that die anywhere in search or judging, the directory (generation, verification, refinement and judge rows together) holds each printed identity at most once |
| `WholeRun.OneRequestPerIdentityInAllRoles` | recipes/nemotron-imo-tts/nemotron_imo_tts/orchestrator.py:202-226 | Each launch of such a history requests no identity twice, in any role, and none that has a row in the directory it found |
| `WholeRun.RelaunchReadsWhatWasWritten` | recipes/nemotron-imo-tts/nemotron_imo_tts/resume.py:105-146 | The ledger scanned from what any history wrote, rows in any order, answers every request of all four roles exactly as the next launch's search and judging assume: found exactly when written, with the written response |
| `WholeRun.SearchPart` | recipes/nemotron-imo-tts/nemotron_imo_tts/driver.py:124-155 | For its search rows a history with judging is the history of its searches alone, so the search theorems below hold of it |
| `WholeRun.NoFinalistLeftOut` | recipes/nemotron-imo-tts/nemotron_imo_tts/selection.py:124-137 | Judging covers every finalist the search hands on |
| `Durability.OneRequestPerIdentity` | recipes/nemotron-imo-tts/nemotron_imo_tts/orchestrator.py:202-226 | In any launch, under any schedule, no work identity is requested twice and none with a row on disk is requested |
| `Durability.OneRowPerIdentity` | recipes/nemotron-imo-tts/nemotron_imo_tts/orchestrator.py:217-226 | Over any sequence of launches, crashes and cancellations from any directory, at most one row is added per identity and none for an identity already there |
| `Durability.AnswersNeverChange` | recipes/nemotron-imo-tts/nemotron_imo_tts/resume.py:128-146 | Once a scan answers an identity, every later scan gives the same answer |
| `Durability.ScanMeaning` | recipes/nemotron-imo-tts/nemotron_imo_tts/resume.py:128-146 | The scan of any directory answers exactly the identities with a row, each with its first complete row, else its first |
| `Safety.AcceptedMeansFinalist` | recipes/nemotron-imo-tts/nemotron_imo_tts/orchestrator.py:182-199 | In every reachable state stopped checkpoints are exactly those with a finalist, a finalist is its own checkpoint's proof with a full panel of ones, every proof with a full panel of ones is its checkpoint's finalist, and proof ids count from 1 |
| `Safety.ConcludingIsNotStopped` | recipes/nemotron-imo-tts/nemotron_imo_tts/orchestrator.py:184-186 | The completion race guarded against in the code cannot happen: a panel that concludes belongs to a checkpoint without a finalist |
| `Safety.NothingIsUndone` | recipes/nemotron-imo-tts/nemotron_imo_tts/orchestrator.py:182-199 | Between any two moments stops, finalists, verdicts and rows are final, records only gain origins and dependencies |
| `Safety.StoppedCheckpointsDoNoWork` | recipes/nemotron-imo-tts/nemotron_imo_tts/orchestrator.py:417-453 | Once a checkpoint has stopped, no proof is registered under it and no request is made for it |
| `Panels.JudgedMeaning` | recipes/nemotron-imo-tts/nemotron_imo_tts/orchestrator.py:344-400 | A concluded panel is complete exactly when every seat holds a scored response, accepted exactly when every seat holds a response scored 1, and each score stands at its seat |
| `Panels.JudgedMean` | recipes/nemotron-imo-tts/nemotron_imo_tts/scoring.py:38-53 | A complete panel has as mean the total of its seats' votes over their number, and for each verifier its own; any other has zeros |
| `Panels.JudgedCritiques` | recipes/nemotron-imo-tts/nemotron_imo_tts/orchestrator.py:368-384 | A panel with an unscored seat has no critiques; otherwise each critique is that of one seat, with its verifier, seed, score and text behind the reasoning prefix, and up to four verifiers are all heard |
| `Verdicts.SeatsDecide` | recipes/nemotron-imo-tts/nemotron_imo_tts/orchestrator.py:344-384 | However a panel request settles, from the ledger, answered, parked, failed for good or dropped, it decides the same for its record in every later state: no verdict after a failed or dropped one, no complete one after a parked one or a response without score, its score at its seat in a complete one |
| `Verdicts.UndisturbedPanelsAreJudged` | recipes/nemotron-imo-tts/nemotron_imo_tts/orchestrator.py:337-384 | Without a failed or dropped request or a cancelled gather, every panel that concludes gives its record a verdict and fails nothing |
| `PanelRules.VerdictNeedsEverySeat` | recipes/nemotron-imo-tts/nemotron_imo_tts/orchestrator.py:337-384 | A verdict is given only to a panel in which every request was answered or parked, with no seat outstanding |
| `PanelRules.VotesAreWrittenInOrder` | recipes/nemotron-imo-tts/nemotron_imo_tts/orchestrator.py:371-378 | While a panel is written, a response the launch did not find on disk is there only when every response before it in the panel is: a crash leaves a beginning of the panel |
| `Cancelling.CancelledIsNeverJudged` | recipes/nemotron-imo-tts/nemotron_imo_tts/orchestrator.py:339-382 | A record whose panel is cancelled before its verdict is never judged, whatever the run does later |
| `Cancelling.CancelledIsNeverAdmitted` | recipes/nemotron-imo-tts/nemotron_imo_tts/orchestrator.py:417-490 | A task cancelled before its request, or while its response is written or waits, adds its sample to no record in any later state; before its request, it never sends it |
| `Cancelling.OnlyCancelledWorkIsLost` | recipes/nemotron-imo-tts/nemotron_imo_tts/orchestrator.py:217-226 | In any run a request, or a response in hand, is lost only after an abort or to the stop of its own checkpoint; a response being written only after an abort |
| `Conservation.EverySampleCountedOnce` | recipes/nemotron-imo-tts/nemotron_imo_tts/orchestrator.py:454-486 | Origin lists together hold each admitted sample exactly once; dependencies are repeat-free and name registered proofs |
| `Conservation.MergeDepsOk` | recipes/nemotron-imo-tts/nemotron_imo_tts/orchestrator.py:463-469 | Merging a sample keeps dependencies repeat-free and loses none |
| `Admission.PoolCountsTheValidSamples` | recipes/nemotron-imo-tts/nemotron_imo_tts/orchestrator.py:418-487 | Every origin of a record has a valid row on disk with exactly the record's text; and every sample past its answer whose checkpoint was not stopped, in a search not aborted, is an origin of the record with the text its row gives |
| `Lineage.RecordsFollowTheirTasks` | recipes/nemotron-imo-tts/nemotron_imo_tts/orchestrator.py:454-486 | A record that lists a task's sample has the task's seed there and its parents among the dependencies; checkpoint, round and seed are those of its first origin; a record of this round has no other dependencies than its origins brought |
| `Provenance.PoolIsReadableFromDisk` | recipes/nemotron-imo-tts/nemotron_imo_tts/orchestrator.py:217-317 | At any moment a fresh scan gives back every registered proof from its first origin and every score of every complete panel from its vote |
| `Relaunch.WinningRowsWin` | recipes/nemotron-imo-tts/nemotron_imo_tts/orchestrator.py:320-400 | With a valid round-1 sample and a full panel of ones for its text on disk, every launch that is not aborted and runs out of tasks is in round 1 with a finalist, whatever the schedule and whoever registered the text |
| `Relaunch.AcceptanceIsOnDisk` | recipes/nemotron-imo-tts/nemotron_imo_tts/orchestrator.py:291-317 | A launch that accepted a proof in round 1 has such rows on disk |
| `Relaunch.AcceptanceSurvives` | recipes/nemotron-imo-tts/nemotron_imo_tts/orchestrator.py:418-487 | So an acceptance in round 1 survives any later crashes and relaunches |
| `Launching.Round1Count` | recipes/nemotron-imo-tts/nemotron_imo_tts/orchestrator.py:492-521 | Round 1 launches exactly prompts times samples attempts, with consecutive seeds |
| `Launching.LaunchesInOrder` | recipes/nemotron-imo-tts/nemotron_imo_tts/orchestrator.py:492-521 | A launch begins with the attempts in order of prompt, checkpoint and slot, each at its place with that place as seed, and with nothing else done |
| `Launching.RefinesInOrder` | recipes/nemotron-imo-tts/nemotron_imo_tts/orchestrator.py:544-571 | A refinement round takes its parents in ranked order, with each the checkpoints and slots in order, seeds again from 0 |
| `Launching.Round1IsAllSamples` | recipes/nemotron-imo-tts/nemotron_imo_tts/orchestrator.py:495-519 | Round 1 launches one attempt for every prompt, checkpoint and sample slot, under pairwise different identities, and no other |
| `Launching.RefineRoundIsAllSamples` | recipes/nemotron-imo-tts/nemotron_imo_tts/orchestrator.py:544-571 | A refinement round launches one attempt for every parent, checkpoint and sample slot, under pairwise different identities, and no other; each depends on the parent of its own trial |
| `Launching.RefinementRoundCount` | recipes/nemotron-imo-tts/nemotron_imo_tts/config.py:352-360 | A refinement round launches at most the derived count |
| `Outcome.AcceptedOutcome` | recipes/nemotron-imo-tts/nemotron_imo_tts/orchestrator.py:582-627 | A search ends within the round budget, reports accepted exactly when it has a finalist, in the first round that had one, lists exactly the accepted proofs in checkpoint order, and counts the distinct proofs |
| `Outcome.FallbackOutcome` | recipes/nemotron-imo-tts/nemotron_imo_tts/orchestrator.py:582-613 | Otherwise it hands on one complete proof: no complete record has a greater mean, and unless a NaN is among those of that mean it is behind none in self-evaluation, round and id; it is the first its next refinement round would refine, while the top is told. Or it reports no candidates, exactly when no panel was ever complete |
| `Outcome.RoundRefinesTheBest` | recipes/nemotron-imo-tts/nemotron_imo_tts/orchestrator.py:536-571 | A refinement round of any run refines as many complete proofs as configured or as there are; with a proof it refines every complete one of a greater mean, and where no tie in mean involves a NaN every complete one not behind it in mean, self-evaluation, round and id |
| `Records.ParentsByRecord` | recipes/nemotron-imo-tts/nemotron_imo_tts/scoring.py:56-67 | On the records' own fields: the parents are complete records, none twice; a greater mean comes first, NaN or not; and without NaN ties self-evaluation, round and id decide |
| `Records.BestIsFirstParent` | recipes/nemotron-imo-tts/nemotron_imo_tts/orchestrator.py:536-538 | The fallback is the first parent a refinement round would pick, unless a NaN self-evaluation and two numbers share the greatest mean |
| `Termination.EveryLaunchEnds` | recipes/nemotron-imo-tts/nemotron_imo_tts/orchestrator.py:615-627 | No launch takes more steps than a bound computed from its configuration |
| `Termination.NothingGetsStuck` | recipes/nemotron-imo-tts/nemotron_imo_tts/orchestrator.py:163-180 | Some step is possible until every task is done, and a launch that can take no further step, without fatal error or abort, is over |
| `Fatal.FatalEndsTheSearch` | recipes/nemotron-imo-tts/nemotron_imo_tts/orchestrator.py:163-180 | From a fatal request error on, of a sample or of a panel call, at any state and under any schedule: the round stays, no further one begins, and the search never counts as over |
| `Fatal.OverIffNothingFatal` | recipes/nemotron-imo-tts/nemotron_imo_tts/orchestrator.py:615-627 | A launch that can take no further step is over, with a finalist or after its last round, exactly when no step of it was fatal and nobody aborted it |
| `Orchestrator.ProblemOrchestrator.Admit` | recipes/nemotron-imo-tts/nemotron_imo_tts/orchestrator.py:452-487 | On the real fields: drop, merge into the known text or register and open a panel, exactly the machine's step |
| `Orchestrator.ProblemOrchestrator.OnAccepted` | recipes/nemotron-imo-tts/nemotron_imo_tts/orchestrator.py:182-199 | On the real fields: first acceptance becomes finalist, stops the checkpoint and cancels every other live task of it, nobody else |
| `Orchestrator.ProblemOrchestrator.Gather` | recipes/nemotron-imo-tts/nemotron_imo_tts/orchestrator.py:337-358 | On the real fields: a cancellation seen at the gather is consumed, keeps only finished responses and marks the panel interrupted |
| `Orchestrator.ProblemOrchestrator.Conclude` | recipes/nemotron-imo-tts/nemotron_imo_tts/orchestrator.py:366-400 | On the real fields: fatal error, interruption or verdict, exactly the machine's step, of which `Panels.JudgedMeaning`, `Panels.JudgedMean` and `Panels.JudgedCritiques` say what the record then holds |
| `Orchestrator.ProblemOrchestrator.Fail` | recipes/nemotron-imo-tts/nemotron_imo_tts/orchestrator.py:163-180 | On the real fields: a sample's fatal error ends its task and the launch, exactly the machine's step |
| `Orchestrator.ProblemOrchestrator.RefineRound` | recipes/nemotron-imo-tts/nemotron_imo_tts/orchestrator.py:536-571 | On the real fields: exactly the machine's next round, of which `Outcome.RoundRefinesTheBest` and `Launching.RefinesInOrder` say whom it refines and how |
| `Orchestrator.ProblemOrchestrator.Finish` | recipes/nemotron-imo-tts/nemotron_imo_tts/orchestrator.py:582-613 | The report computed by the loops over checkpoints and pool is the machine's outcome |
| `Orchestrator.Tally` | recipes/nemotron-imo-tts/nemotron_imo_tts/orchestrator.py:344-383 | One pass over the panel's results gives the score lists by verifier, the critique candidates and whether a call was fatal |
| `Identity.DecodePrint` | recipes/nemotron-imo-tts/nemotron_imo_tts/resume.py:33-46 | A decoder undoes every printed identity: verify, refine and judge for any model id, generation when the prompt id has no colon |
| `Identity.PrintInjective` | recipes/nemotron-imo-tts/nemotron_imo_tts/resume.py:33-46 | So two requests of a problem never share an identity, and the four roles never collide |
| `Identity.GenCollision` | recipes/nemotron-imo-tts/nemotron_imo_tts/resume.py:33-34 | For any ids, exactly when two generation identities coincide |
| `ResumeLedger.ScanIsFirstCompleteElseFirst` | recipes/nemotron-imo-tts/nemotron_imo_tts/resume.py:128-163 | Scanning any log answers each identity with its first complete row, else its first row |
| `ResumeLedger.ViewsAgreeThroughoutIffSupersedesInPlace` | recipes/nemotron-imo-tts/nemotron_imo_tts/resume.py:128-163 | For any log, duplicates included: after every row of the scan identity map, role-and-round lists and attempt lists hold the same rows, exactly when every complete row that supersedes a truncated one lies in the lists of its identity's first row |
| `ResumeLedger.TidySupersedesInPlace` | recipes/nemotron-imo-tts/nemotron_imo_tts/driver.py:39-52 | The layout the sink writes meets that condition |
| `ResumeLedger.ViewsAgree` | recipes/nemotron-imo-tts/nemotron_imo_tts/resume.py:128-163 | So in that layout every list holds what the identity map holds for its identities, in order of first appearance |
| `ResumeLedger.Ledger.Add` | recipes/nemotron-imo-tts/nemotron_imo_tts/resume.py:128-147 | On the three dictionaries, in place: exactly the index step the theorems are about |
| `ResumeLedger.Ledger.Scan` | recipes/nemotron-imo-tts/nemotron_imo_tts/resume.py:105-126 | The scanned object answers every identity with its winner |
| `Persistence.RowMapsBack` | recipes/nemotron-imo-tts/nemotron_imo_tts/resume.py:59-94 | Each generation, refinement and vote row, in the directory the sink chose, maps back to the identity its request was made under and replays its response |
| `Persistence.LedgerAnswers` | recipes/nemotron-imo-tts/nemotron_imo_tts/resume.py:105-166 | A directory with one row per identity, read in any order, answers exactly the requests with a row, each with its response |
| `Judging.JudgeRowMapsBack` | recipes/nemotron-imo-tts/nemotron_imo_tts/selection.py:67-118 | A judge row maps back to its identity and replays its response |
| `Judging.JudgeSlot` | recipes/nemotron-imo-tts/nemotron_imo_tts/selection.py:83-121 | The slot's loop, with its requests, writes and result, is the run the replay theorems are about |
| `SlotRules.SlotMeaning` | recipes/nemotron-imo-tts/nemotron_imo_tts/selection.py:83-121 | Read off the disk and the answers alone: the first attempt that is scored or parked decides, else the fourth; its score and seed are the result; exactly the attempts without a row are requested, in order, and exactly their answers written |
| `Judging.ResumeGivesTheSame` | recipes/nemotron-imo-tts/nemotron_imo_tts/selection.py:83-121 | Whatever a request gives and wherever a slot dies, resuming from its rows gives the uninterrupted result, asks only what was not saved, writes only what was not written, at most four attempts in all |
| `Judging.ChainIsOneRun` | recipes/nemotron-imo-tts/nemotron_imo_tts/selection.py:83-121 | And so does any chain of interrupted launches |
| `Judging.SeedsAreDistinct` | recipes/nemotron-imo-tts/nemotron_imo_tts/selection.py:86-89 | Every (slot, attempt) of a judge has its own seed, all below four times the slot count |
| `Judging.Aggregate` | recipes/nemotron-imo-tts/nemotron_imo_tts/selection.py:139-166 | With distinct judge ids, entry k of the judge means is the mean of judge k's own valid slots, and the overall mean times the number of valid slots is the sum of the judges' own sums |
| `Judging.SumByJudge` | recipes/nemotron-imo-tts/nemotron_imo_tts/selection.py:146-152 | The sum over all valid slots splits into the judges' own sums: no slot counts twice |
| `SlotRules.ResampledMeaning` | recipes/nemotron-imo-tts/nemotron_imo_tts/selection.py:146-163 | The count of resampled judgments is that of the slots that took two attempts or more |
| `SlotRules.RowScoresMeaning` | recipes/nemotron-imo-tts/nemotron_imo_tts/selection.py:146-152 | What counts of a judge's slots is one score for every valid slot, and their total |
| `JudgePhase.OneRequestPerJudgment` | recipes/nemotron-imo-tts/nemotron_imo_tts/selection.py:124-142 | With all slots of all finalists interleaved and the launch dying anywhere, no judgment is requested twice or when it has a row, and each leaves at most one row |
| `JudgePhase.EveryJudgmentHasItsTask` | recipes/nemotron-imo-tts/nemotron_imo_tts/selection.py:124-142 | The phase starts with a task for every finalist, judge and slot |
| `JudgeReplay.EverySlotFollowsItsLoop` | recipes/nemotron-imo-tts/nemotron_imo_tts/selection.py:83-142 | In any interleaving a finished slot has the result of its own loop over its own persisted attempts |
| `JudgeHistory.AttemptsInLoopOrder` | recipes/nemotron-imo-tts/nemotron_imo_tts/resume.py:171-172 | What `judge_attempts` returns for a slot, sorted, is exactly the slot's disk, attempt by attempt, in the order its loop replays it |
| `JudgeHistory.JudgmentsSurvive` | recipes/nemotron-imo-tts/nemotron_imo_tts/selection.py:83-121 | Over any history of launches, a finished slot has the result one uninterrupted launch would have given, and the history saved a prefix of that launch's rows |
| `Scoring.MeanOfMeansIsFlatMean` | recipes/nemotron-imo-tts/nemotron_imo_tts/scoring.py:47-53 | For a complete panel the mean of the verifier means is the mean of all judgments |
| `Scoring.MeanIsOneIffAccepted` | recipes/nemotron-imo-tts/nemotron_imo_tts/scoring.py:38-53 | It lies in 0 to 1 and is 1 exactly when the panel accepts |
| `Ranking.RankedStrictIffComparable` | recipes/nemotron-imo-tts/nemotron_imo_tts/scoring.py:56-67 | Whatever stable, run-finding sort is used, the ranking is strict exactly when no NaN self-evaluation shares its mean with another record |
| `Ranking.ListOrderMattersIffNotComparable` | recipes/nemotron-imo-tts/nemotron_imo_tts/scoring.py:66-67 | Whatever such sort is used, every order of the record list gives the same ranking exactly under that condition |
| `Ranking.ParentsOutrankTheRest` | recipes/nemotron-imo-tts/nemotron_imo_tts/scoring.py:66-67 | Then the parents outrank every record left out |
| `Ranking.ParentsIgnoreProofIds` | recipes/nemotron-imo-tts/nemotron_imo_tts/scoring.py:56-67 | Then two schedules with the same (mean, self-evaluation, round) values and no ties pick the same parents in the same order, whatever proof ids arrival dealt out |
| `Ranking.MinIsHeadIffTopDecided` | recipes/nemotron-imo-tts/nemotron_imo_tts/orchestrator.py:587-588 | Whatever such sort is used, minimum and head of the ranking agree, in every order of registration, exactly when the greatest mean is not shared by a NaN self-evaluation and two numbers |
| `Ranking.NaNSplitsFallbackFromParents` | recipes/nemotron-imo-tts/nemotron_imo_tts/text.py:97-104 | Equal means with self-evaluations 0.2, NaN, 0.9: any such sort keeps the list as it is, in this order and in the opposite one, while the minimum is the last |
| `Scoring.JudgedChoice` | recipes/nemotron-imo-tts/nemotron_imo_tts/scoring.py:119-128 | With judges the submitted finalist has a score if any has one, and none is greater; among equal scores no proof is shorter, and among equal lengths no checkpoint comes earlier |
| `Scoring.UnjudgedChoice` | recipes/nemotron-imo-tts/nemotron_imo_tts/scoring.py:129-134 | Without judges it is accepted if any is, and none of its kind has a greater mean; then length and checkpoint order as before |
| `Scoring.SelectionIgnoresListOrder` | recipes/nemotron-imo-tts/nemotron_imo_tts/scoring.py:119-134 | With one finalist per checkpoint the choice does not depend on the order of the list |
| `Critiques.RetainCritiques` | recipes/nemotron-imo-tts/nemotron_imo_tts/scoring.py:70-111 | The loops with moving positions and two counters give what rescanning every queue from its start gives |
| `Critiques.NeverFitsAgain` | recipes/nemotron-imo-tts/nemotron_imo_tts/scoring.py:92-99 | A skipped judgment stays unfit for ever |
| `CritiqueGuarantees.RetainGuarantees` | recipes/nemotron-imo-tts/nemotron_imo_tts/scoring.py:70-116 | Duplicate-free, the same number from every verifier and 8 divided by their number at most; no score more than 4 times when the candidates' scores differ, else more than 8 times; sorted by score, verifier and seed; a judgment is passed over for a later one of its verifier only when its score is full; and fewer than the full share only when some verifier has no judgment left that fits the caps |
| `CritiqueGuarantees.UniformFillsTheShare` | recipes/nemotron-imo-tts/nemotron_imo_tts/scoring.py:81-83 | When all candidates share one score and every verifier has its share of them, every verifier gives 8 divided by their number |
| `CritiqueGuarantees.RetainIgnoresInputOrder` | recipes/nemotron-imo-tts/nemotron_imo_tts/scoring.py:80-84 | The order in which judgments arrive does not matter |
| `PoolRecord.RetainedRoundTrip` | recipes/nemotron-imo-tts/nemotron_imo_tts/orchestrator.py:78-102 | Grouping retained critiques by printed score and flattening in sorted key order gives the retained list back |
| `Text.ExtractBoxedAnswers` | recipes/nemotron-imo-tts/nemotron_imo_tts/text.py:38-54 | The loops with a depth counter compute the answers the parsing theorems are about |
| `Text.BoxedAnswersBalanced` | recipes/nemotron-imo-tts/nemotron_imo_tts/text.py:38-54 | Every extracted body is brace-balanced, apart from the percent case |
| `Text.LastAnswerIsBody` | recipes/nemotron-imo-tts/nemotron_imo_tts/text.py:38-54 | For any prefix, a final box with a balanced body is exactly the last answer found |
| `Text.AnswersBoxByBox` | recipes/nemotron-imo-tts/nemotron_imo_tts/text.py:38-54 | Box by box: a text without a box has no answer, and one more box adds at most one answer, that of the text behind it |
| `Text.AnswerIsClosedBody` | recipes/nemotron-imo-tts/nemotron_imo_tts/text.py:42-54 | A box has an answer exactly when its brace is closed, and it is the balanced body before that brace, with the brace kept in front of a percent sign |
| `Text.ThinkDropped` | recipes/nemotron-imo-tts/nemotron_imo_tts/text.py:28-35 | Everything up to the last closing think tag is dropped, whatever it says, and the rest stripped |
| `Text.ParsersAccept` | recipes/nemotron-imo-tts/nemotron_imo_tts/text.py:107-136 | From the last answer that is not blank the verifier's parser accepts 0, one half and 1, the judge's the whole numbers from 0 to 7, and neither anything else |
| `Text.ScoresRecovered` | recipes/nemotron-imo-tts/nemotron_imo_tts/text.py:107-136 | Both score parsers read a printed score back, whatever came before it, exactly when it is one they accept |
| `Client.RetriesAreTransient` | recipes/nemotron-imo-tts/nemotron_imo_tts/client.py:89-110 | Exactly which failures are retried and which end the run; every other parks its request |
| `Client.BudgetIsLargestThatFits` | recipes/nemotron-imo-tts/nemotron_imo_tts/client.py:164-182 | With a tokenizer a request goes out exactly when some completion budget fits beside prompt and margin, and asks for the largest |
| `Client.Send` | recipes/nemotron-imo-tts/nemotron_imo_tts/client.py:238-300 | Attempts follow one another only after transient failures inside the window, the first other attempt decides, and the loop ends because the clock leaves the window at some attempt |
| `Client.AnswersByFailure` | recipes/nemotron-imo-tts/nemotron_imo_tts/client.py:238-300 | By what the server said: when another attempt follows, and which answer the last one gives |
| `Client.RetriesEndIffClockLeaves` | recipes/nemotron-imo-tts/nemotron_imo_tts/client.py:294-300 | The loop ends whatever the attempts give exactly when the clock leaves the window at some attempt |
| `Client.AttemptsFitTheWindow` | recipes/nemotron-imo-tts/nemotron_imo_tts/client.py:294-300 | At most one attempt more is made than the window has ticks |
| `Client.BackoffIsCapped` | recipes/nemotron-imo-tts/nemotron_imo_tts/client.py:225-236 | Whatever the header says, the wait lies between 0 and the cap |
| `Client.HeaderIsObeyed` | recipes/nemotron-imo-tts/nemotron_imo_tts/client.py:230-234 | A readable header is waited out exactly, brought into the range from 0 to the cap |
| `Client.DelayDoubles` | recipes/nemotron-imo-tts/nemotron_imo_tts/client.py:226-236 | Without one the wait is the drawn part of a delay that starts at the base, doubles with every attempt and stops at the cap |
| `Client.LaneIsNeverExceeded` | recipes/nemotron-imo-tts/nemotron_imo_tts/client.py:256-293 | Over any run no more calls are in flight than the lane is wide, and no place leaks |
| `Client.RequestsShareTheLane` | recipes/nemotron-imo-tts/nemotron_imo_tts/client.py:253-300 | However requests interleave in a lane, a place is held by a call and by nothing else, sleeping retries included, and every answer is the one `Send` gives |
| `Client.OverMeansAnswered` | recipes/nemotron-imo-tts/nemotron_imo_tts/client.py:253-300 | A request that is over and was not cancelled has its answer |
| `Client.LaneNeverStuck` | recipes/nemotron-imo-tts/nemotron_imo_tts/client.py:256-300 | While a request is not over, some step other than a cancellation is possible |
| `Driver.ExitZeroMeansFinished` | recipes/nemotron-imo-tts/nemotron_imo_tts/driver.py:208-239 | A launch not asked to stop exits with 0 exactly when every problem has its result |
| `Driver.FinishedMeansAllWrittenAtTheEnd` | recipes/nemotron-imo-tts/nemotron_imo_tts/driver.py:213-239 | In any launch, stopped or not, every problem ends with its result exactly when every task had written one at the main loop's last turn, and then the exit code is 0 |
| `Driver.ExitCodeMeaning` | recipes/nemotron-imo-tts/nemotron_imo_tts/driver.py:208-239 | The exit code of any launch is 1 exactly when a task met a fatal request error or a turn of the main loop not woken by a stop found a failed one |
| `Driver.FatalEndsTheLoop` | recipes/nemotron-imo-tts/nemotron_imo_tts/driver.py:194-239 | A fatal error of any problem ends the main loop at its next turn, whatever happens before it |
| `Driver.LogsStayPaired` | recipes/nemotron-imo-tts/nemotron_imo_tts/driver.py:158-206 | Over any history no problem has two results, every result has its submission, and the submissions are the results and the problems a crash tore |
| `Driver.RepeatsExactlyAfterATear` | recipes/nemotron-imo-tts/nemotron_imo_tts/driver.py:201-206 | Given the logs a launch finds, exactly when it repeats a submission |
| `Driver.ProblemsInFlight` | recipes/nemotron-imo-tts/nemotron_imo_tts/driver.py:174-193 | No more problems run at once than configured |
| `NodeList.ExpandNodelist` | dockerfiles/sandbox/start-with-nginx.sh:79-108 | The loops over pieces, parts and ranges compute the expansion the round trip is about |
| `NodeList.ExpandRendered` | dockerfiles/sandbox/start-with-nginx.sh:70-108 | Expanding a rendered node list gives back exactly its hosts, in order, with their zero padding |
| `NodeList.PartMeaning` | dockerfiles/sandbox/start-with-nginx.sh:84-104 | One part of the brackets: a readable range counts from end to end, padded to the width of its first end, none when the ends are out of order; any other text stands for itself |
| `Sandbox.AssignPorts` | dockerfiles/sandbox/start-with-nginx.sh:427-474 | Spawning and retrying leaves each worker on its first port plus the offset of the last round that moved it |
| `Sandbox.PortsInNumbers` | dockerfiles/sandbox/start-with-nginx.sh:427-474 | Retry rounds run until one finds nobody failed, five at most; a worker ends 200 ports above its first one for every round up to the last that found it failed |
| `Sandbox.PortsDistinctIffAtMost200` | dockerfiles/sandbox/start-with-nginx.sh:427-474 | Ports are distinct under every pattern of conflicts exactly when there are at most 200 workers |
| `Sandbox.FailedCheckStartsOver` | dockerfiles/sandbox/start-with-nginx.sh:200-230 | After a check that finds no complete report, every node is checked again before any report is read |
| `Sandbox.UpstreamRightIffNothingLeftOver` | dockerfiles/sandbox/start-with-nginx.sh:556-585 | With the barrier's checks and the reading of the reports one node at a time, in any interleaving with the nodes: every upstream lists exactly every node's ports, in node order, exactly when no complete report is left over for another node that has ports, and a leftover of a node without ports names none |
| `Sandbox.UpstreamIsRight` | dockerfiles/sandbox/start-with-nginx.sh:150-155 | Then, whatever workers die and are restarted, every live worker serves on the port the upstream names |

## Findings

Properties one would expect and that the code does not give, each with an input and with the exact condition under which
they do hold.

- **The ledger's views can part.** `ResumeLedger.UntidyViewsDisagree`: a complete generation row under round 2
  supersedes a truncated one under round 1 in the identity map but not in the round-1 list. Exact condition:
  `ResumeLedger.ViewsAgreeThroughoutIffSupersedesInPlace`; the pipeline's own layout meets it.
- **A colon in a prompt id makes two samples share one identity.** `Identity.ColonInPromptCollides`; exact condition:
  `Identity.GenCollision`. "Every request has a deterministic identity" (recipe README, line 183) holds; that identities
  differ needs prompt ids without colons.
- **A NaN self-evaluation breaks the ranking.** `float()` accepts `nan` without a range test.
  `Ranking.NaNSplitsFallbackFromParents` shows a fallback that is not the head of the ranking and a ranking that depends
  on list order; exact conditions: `Ranking.ListOrderMattersIffNotComparable`, `Ranking.MinIsHeadIffTopDecided`.
- **A submission can appear twice.** `Driver.TornSubmissionRepeats`: a crash between the two appends leaves a submission
  without a result, and the next launch submits again, although the recipe README (line 173) speaks of one row per
  finished problem. Exact conditions: `Driver.RepeatsExactlyAfterATear` for one launch, `Driver.LogsStayPaired` for a
  history.
- **Exit code 0 after a stop says nothing about the problems.** `Driver.StoppedLaunchExitsZero`; exact condition:
  `Driver.FinishedMeansAllWrittenAtTheEnd`.
- **The retry loop needs a clock that leaves the window.** `Client.StandingClockRetriesForever`: on a clock that stands
  still, transient failures are retried for ever. Exact condition: `Client.RetriesEndIffClockLeaves`; a clock that ticks
  at every attempt meets it (`Client.TickingClockLeaves`), and so does one that stands still over some attempts.
- **More than 200 sandbox workers can meet on one port.** `Sandbox.FirstLandsOnLast`; exact condition:
  `Sandbox.PortsDistinctIffAtMost200`.
- **A stale port report is believed, even a right one.** The barrier passes on a complete report an earlier launch left
  for a node that is not up yet; the node then removes it before the master reads it. `Sandbox.RightLeftoverSpoils`: node
  b with port 9 and a leftover naming port 9. Exact condition: `Sandbox.UpstreamRightIffNothingLeftOver`.

## Left out

- Error rows, and the counters of parked and too-long requests: parking is a step that writes no response row.
- Torn (partly written) lines: an appended row is on disk whole or not at all; a row appended after a torn line is not
  claimed to survive.
- Two processes sharing one output directory.
- `parse_proof`'s section splitting by regular expression, prompt rendering, and the reader of floats: fixed functions
  of their text.
- Fields that are JSON null or of a wrong type: a row's field is present with its type or absent; `row_identity` gives
  nothing for such rows.
- HTTP, tokenizers, signals, logging, file locks; health checks, timeouts and nginx text of the start script.
- `config.py` and `manifest.py`: what they check (distinct ids, positive counts, equal judgments per verifier) is a
  precondition, `Search.ValidConfig` and `WholeRun.ValidSetup`.
- The inner workings of Python's `sorted`: the model's ranking is a stable insertion sort. The theorems about lists with
  NaN are about any sort that meets `Ranking.SortsByKey` (it rearranges the list, orders it when the key can, leaves a run
  as it is, and puts a foremost record first), which a stable merge sort that looks for runs does, and the model's own does
  (`Ranking.RankedSortsByKey`); on comparable lists all of them give the model's ranking (`Ranking.SorterIsRanked`).
- ViewsAgreeIffSupersedesInPlace: the same condition for the end of the scan alone, for logs whose rows differ: `_replace`
  tells rows apart by object identity, the model by what they hold. Up to the first row out of place the two agree, which
  is all that `ResumeLedger.ViewsAgreeThroughoutIffSupersedesInPlace` needs.
- How `ContextBudgeter` counts tokens; its budget is `Client.BudgetOf`.
- A report is read in one step; that a file may change while it is being read is not modelled.
- AcceptanceSurvives: about acceptances of round 1. Refinement parents may differ after a relaunch, because proof ids
  follow arrival and `refine_identity` does not name the parent.
- EverySampleCountedOnce: dependencies are not claimed to be acyclic; merging can add a proof's own id.
- AcceptedMeansFinalist: not every distinct proof gets a verdict; a proof merged into a record of a checkpoint that then
  stops loses its panel.
- The dictionary of proofs is an ordered list of records; finalists name places in it.
- `result_rows` and `write_pool`: what they copy is not modelled beyond the choice of the finalist.
- The text of the node list is read by `int()` as a parameter; the round trip needs only that plain digits read as their
  number.
