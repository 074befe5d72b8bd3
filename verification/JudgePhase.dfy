/**
 * All judge slots of a problem at once (selection.py): one task per finalist, judge and slot, interleaved in any way,
 * parked, cancelled or cut off by a crash at any moment.
 */
module JudgePhase {
  import opened Options
  import opened Judging
  import Search

  type Response = Search.Response

  datatype JudgeId = JudgeId(proof: string, judge: string, slot: nat, attempt: nat)

  datatype JudgeRow = JudgeRow(id: JudgeId, resp: Response)

  datatype JudgeSpec = JudgeSpec(id: string, judgments: nat)

  /** Where a slot stands: about to look at `attempt`, waiting for it, saving it, finished, or cut off. */
  datatype Stage = Ready | Waiting | Saving(resp: Response) | Finished(result: SlotResult) | Gone

  datatype SlotTask = SlotTask(proof: string, judge: string, n: nat, slot: nat, attempt: nat, stage: Stage)

  datatype Phase = Phase(ledger: map<JudgeId, Response>, rows: seq<JudgeRow>, issued: seq<JudgeId>, tasks: seq<SlotTask>)

  function IdAt(t: SlotTask, attempt: nat): JudgeId {
    JudgeId(t.proof, t.judge, t.slot, attempt)
  }

  function RowIds(rows: seq<JudgeRow>): (r: seq<JudgeId>)
    ensures |r| == |rows| && forall k :: 0 <= k < |rows| ==> r[k] == rows[k].id
  {
    seq(|rows|, k requires 0 <= k < |rows| => rows[k].id)
  }

  predicate Complete(r: Response) {
    Search.CompleteResponse(r)
  }

  /** The first complete row of an identity wins, else its first row. */
  function ScanRows(rows: seq<JudgeRow>): map<JudgeId, Response> {
    if rows == [] then map[]
    else
      var m, e := ScanRows(rows[..|rows| - 1]), rows[|rows| - 1];
      if e.id in m && (Complete(m[e.id]) || !Complete(e.resp)) then m else m[e.id := e.resp]
  }

  // ---- the tasks ------------------------------------------------------------------------

  function SlotsOf(proof: string, judge: JudgeSpec): (r: seq<SlotTask>)
    ensures |r| == judge.judgments && forall k :: 0 <= k < |r| ==> r[k] == SlotTask(proof, judge.id, judge.judgments, k, 0, Ready)
  {
    seq(judge.judgments, k requires 0 <= k < judge.judgments => SlotTask(proof, judge.id, judge.judgments, k, 0, Ready))
  }

  function JudgesOf(proof: string, judges: seq<JudgeSpec>): seq<SlotTask> {
    if judges == [] then [] else SlotsOf(proof, judges[0]) + JudgesOf(proof, judges[1..])
  }

  /** Every finalist, judge and slot. */
  function SlotTasks(proofs: seq<string>, judges: seq<JudgeSpec>): seq<SlotTask> {
    if proofs == [] then [] else JudgesOf(proofs[0], judges) + SlotTasks(proofs[1..], judges)
  }

  function Start(ledger: map<JudgeId, Response>, proofs: seq<string>, judges: seq<JudgeSpec>): Phase {
    Phase(ledger, [], [], SlotTasks(proofs, judges))
  }

  // ---- steps ---------------------------------------------------------------------------------

  datatype Event = Look(i: nat) | Deliver(i: nat, resp: Response) | Park(i: nat) | Save(i: nat) | Quit(i: nat)

  predicate Enabled(p: Phase, ev: Event) {
    ev.i < |p.tasks| &&
    var t := p.tasks[ev.i];
    match ev
    case Look(_) => t.stage == Ready && t.attempt <= MAX_JUDGMENT_RESAMPLES + 1
    case Deliver(_, _) => t.stage == Waiting
    case Park(_) => t.stage == Waiting
    case Save(_) => t.stage.Saving?
    case Quit(_) => !t.stage.Finished?
  }

  function SeedOf(t: SlotTask, attempt: nat): nat {
    t.slot + attempt * t.n
  }

  /** A response is at hand: a score ends the slot, anything else goes on to the next attempt. */
  function Settled(t: SlotTask, score: Option<real>): SlotTask {
    if score.Some? then t.(stage := Finished(SlotResult(t.attempt + 1, score, true, SeedOf(t, t.attempt))))
    else t.(attempt := t.attempt + 1, stage := Ready)
  }

  function Next(score: Response -> Option<real>, p: Phase, ev: Event): Phase
    requires Enabled(p, ev)
  {
    var i, t := ev.i, p.tasks[ev.i];
    match ev
    case Look(_) =>
      if t.attempt == MAX_JUDGMENT_RESAMPLES + 1 then
        p.(tasks := p.tasks[i := t.(stage := Finished(SlotResult(t.attempt, None, false, SeedOf(t, MAX_JUDGMENT_RESAMPLES))))])
      else if IdAt(t, t.attempt) in p.ledger then
        p.(tasks := p.tasks[i := Settled(t, score(p.ledger[IdAt(t, t.attempt)]))])
      else
        p.(tasks := p.tasks[i := t.(stage := Waiting)], issued := p.issued + [IdAt(t, t.attempt)])
    case Deliver(_, resp) => p.(tasks := p.tasks[i := t.(stage := Saving(resp))])
    case Park(_) =>
      p.(tasks := p.tasks[i := t.(stage := Finished(SlotResult(t.attempt + 1, None, false, SeedOf(t, t.attempt))))])
    case Save(_) =>
      p.(tasks := p.tasks[i := Settled(t, score(t.stage.resp))], rows := p.rows + [JudgeRow(IdAt(t, t.attempt), t.stage.resp)])
    case Quit(_) => p.(tasks := p.tasks[i := t.(stage := Gone)])
  }

  ghost predicate Legal(score: Response -> Option<real>, p: Phase, run: seq<Event>)
    decreases run
  {
    run == [] || (Enabled(p, run[0]) && Legal(score, Next(score, p, run[0]), run[1..]))
  }

  ghost function Exec(score: Response -> Option<real>, p: Phase, run: seq<Event>): Phase
    requires Legal(score, p, run)
    decreases run
  {
    if run == [] then p else Exec(score, Next(score, p, run[0]), run[1..])
  }

  // ---- one request and one row per judgment -----------------------------------------------------

  predicate SameSlot(t: SlotTask, u: SlotTask) {
    t.proof == u.proof && t.judge == u.judge && t.slot == u.slot
  }

  ghost predicate DistinctSlots(tasks: seq<SlotTask>) {
    forall i, j :: 0 <= i < j < |tasks| ==> !SameSlot(tasks[i], tasks[j])
  }

  /** No attempt from `from` on was requested. */
  ghost predicate Unasked(t: SlotTask, issued: seq<JudgeId>, from: nat) {
    forall id :: id in issued && id.proof == t.proof && id.judge == t.judge && id.slot == t.slot ==> id.attempt < from
  }

  ghost predicate TaskOk(t: SlotTask, issued: seq<JudgeId>, written: seq<JudgeId>) {
    match t.stage
    case Ready => t.attempt <= MAX_JUDGMENT_RESAMPLES + 1 && Unasked(t, issued, t.attempt)
    case Waiting => InFlight(t, issued, written)
    case Saving(_) => InFlight(t, issued, written)
    case _ => true
  }

  ghost predicate InFlight(t: SlotTask, issued: seq<JudgeId>, written: seq<JudgeId>) {
    && t.attempt <= MAX_JUDGMENT_RESAMPLES
    && IdAt(t, t.attempt) in issued && IdAt(t, t.attempt) !in written && Unasked(t, issued, t.attempt + 1)
  }

  ghost predicate Books(p: Phase) {
    && NoDup(p.issued) && (forall id :: id in p.issued ==> id !in p.ledger && id.attempt <= MAX_JUDGMENT_RESAMPLES)
    && NoDup(RowIds(p.rows)) && (forall id :: id in RowIds(p.rows) ==> id in p.issued)
  }

  ghost predicate Durable(p: Phase) {
    && Books(p) && DistinctSlots(p.tasks)
    && forall j :: 0 <= j < |p.tasks| ==> TaskOk(p.tasks[j], p.issued, RowIds(p.rows))
  }

  lemma OtherKept(t: SlotTask, u: SlotTask, id: JudgeId, issued: seq<JudgeId>, written: seq<JudgeId>, issued': seq<JudgeId>, written': seq<JudgeId>)
    requires TaskOk(t, issued, written) && !SameSlot(t, u) && id == IdAt(u, id.attempt)
    requires issued' == issued || issued' == issued + [id]
    requires written' == written || written' == written + [id]
    ensures TaskOk(t, issued', written')
  {
    assert IdAt(t, t.attempt) != id;
  }

  /** One task moves, its own identity is requested or written, the other tasks keep their place. */
  lemma MoveDurable(p: Phase, p': Phase, i: nat, id: JudgeId)
    requires Durable(p) && i < |p.tasks| && |p'.tasks| == |p.tasks| && p'.ledger == p.ledger
    requires p'.tasks == p.tasks[i := p'.tasks[i]] && SameSlot(p'.tasks[i], p.tasks[i]) && id == IdAt(p.tasks[i], id.attempt)
    requires p'.issued == p.issued || p'.issued == p.issued + [id]
    requires RowIds(p'.rows) == RowIds(p.rows) || RowIds(p'.rows) == RowIds(p.rows) + [id]
    requires Books(p') && TaskOk(p'.tasks[i], p'.issued, RowIds(p'.rows))
    ensures Durable(p')
  {
    forall j | 0 <= j < |p.tasks| ensures TaskOk(p'.tasks[j], p'.issued, RowIds(p'.rows)) {
      if j != i {
        assert !SameSlot(p.tasks[j], p.tasks[i]);
        OtherKept(p.tasks[j], p.tasks[i], id, p.issued, RowIds(p.rows), p'.issued, RowIds(p'.rows));
      }
    }
    forall x, y | 0 <= x < y < |p'.tasks| ensures !SameSlot(p'.tasks[x], p'.tasks[y]) {
      assert !SameSlot(p.tasks[x], p.tasks[y]);
    }
  }

  lemma LookDurable(score: Response -> Option<real>, p: Phase, i: nat)
    requires Durable(p) && Enabled(p, Look(i))
    ensures Durable(Next(score, p, Look(i)))
  {
    var t, p' := p.tasks[i], Next(score, p, Look(i));
    var id := IdAt(t, t.attempt);
    assert TaskOk(t, p.issued, RowIds(p.rows));
    if t.attempt <= MAX_JUDGMENT_RESAMPLES && id !in p.ledger { NoDupAppend(p.issued, id); }
    MoveDurable(p, p', i, id);
  }

  lemma SaveDurable(score: Response -> Option<real>, p: Phase, i: nat)
    requires Durable(p) && Enabled(p, Save(i))
    ensures Durable(Next(score, p, Save(i)))
  {
    var t, p' := p.tasks[i], Next(score, p, Save(i));
    var id := IdAt(t, t.attempt);
    assert TaskOk(t, p.issued, RowIds(p.rows));
    assert RowIds(p'.rows) == RowIds(p.rows) + [id];
    NoDupAppend(RowIds(p.rows), id);
    MoveDurable(p, p', i, id);
  }

  lemma StepDurable(score: Response -> Option<real>, p: Phase, ev: Event)
    requires Durable(p) && Enabled(p, ev)
    ensures Durable(Next(score, p, ev))
  {
    var t := p.tasks[ev.i];
    assert TaskOk(t, p.issued, RowIds(p.rows));
    match ev
    case Look(i) => LookDurable(score, p, i);
    case Save(i) => SaveDurable(score, p, i);
    case _ => MoveDurable(p, Next(score, p, ev), ev.i, IdAt(t, t.attempt));
  }

  lemma {:induction false} RunDurable(score: Response -> Option<real>, p: Phase, run: seq<Event>)
    requires Durable(p) && Legal(score, p, run)
    ensures Durable(Exec(score, p, run)) && Exec(score, p, run).ledger == p.ledger
    decreases run
  {
    if run != [] {
      StepDurable(score, p, run[0]);
      RunDurable(score, Next(score, p, run[0]), run[1..]);
    }
  }

  // ---- distinct slots ---------------------------------------------------------------------------

  ghost predicate SlotsFrom(tasks: seq<SlotTask>, proofs: seq<string>, judges: seq<JudgeSpec>) {
    DistinctSlots(tasks) && forall t :: t in tasks ==> t.proof in proofs && OfJudges(t, judges) && t.attempt == 0 && t.stage == Ready
  }

  predicate OfJudges(t: SlotTask, judges: seq<JudgeSpec>) {
    exists j :: 0 <= j < |judges| && judges[j].id == t.judge && judges[j].judgments == t.n && t.slot < t.n
  }

  ghost predicate DistinctJudges(judges: seq<JudgeSpec>) {
    forall i, j :: 0 <= i < j < |judges| ==> judges[i].id != judges[j].id
  }

  lemma DistinctConcat(a: seq<SlotTask>, b: seq<SlotTask>)
    requires DistinctSlots(a) && DistinctSlots(b)
    requires forall t, u :: t in a && u in b ==> !SameSlot(t, u)
    ensures DistinctSlots(a + b)
  {
    forall i, j | 0 <= i < j < |a + b| ensures !SameSlot((a + b)[i], (a + b)[j]) {
      if i < |a| <= j { assert (a + b)[i] in a && (a + b)[j] in b; }
    }
  }

  lemma OfMoreJudges(t: SlotTask, judges: seq<JudgeSpec>)
    requires judges != [] && OfJudges(t, judges[1..])
    ensures OfJudges(t, judges)
  {
    var j :| 0 <= j < |judges[1..]| && judges[1..][j].id == t.judge && judges[1..][j].judgments == t.n && t.slot < t.n;
    assert judges[j + 1].id == t.judge;
  }

  lemma {:induction false} JudgesDistinct(proof: string, judges: seq<JudgeSpec>)
    requires DistinctJudges(judges)
    ensures SlotsFrom(JudgesOf(proof, judges), [proof], judges)
  {
    if judges != [] {
      var rest := judges[1..];
      var a, b := SlotsOf(proof, judges[0]), JudgesOf(proof, rest);
      assert forall k :: 0 <= k < |rest| ==> rest[k] == judges[k + 1];
      JudgesDistinct(proof, rest);
      forall t | t in a ensures t.judge == judges[0].id && OfJudges(t, judges) {
        assert judges[0].id == t.judge && judges[0].judgments == t.n;
      }
      forall t | t in b ensures t.judge != judges[0].id && OfJudges(t, judges) {
        OfMoreJudges(t, judges);
        var j :| 0 <= j < |rest| && rest[j].id == t.judge && rest[j].judgments == t.n && t.slot < t.n;
        assert judges[j + 1].id != judges[0].id;
      }
      DistinctConcat(a, b);
    }
  }

  lemma {:induction false} SlotsDistinct(proofs: seq<string>, judges: seq<JudgeSpec>)
    requires NoDup(proofs) && DistinctJudges(judges)
    ensures SlotsFrom(SlotTasks(proofs, judges), proofs, judges)
  {
    if proofs != [] {
      var rest := proofs[1..];
      assert forall k :: 0 <= k < |rest| ==> rest[k] == proofs[k + 1];
      JudgesDistinct(proofs[0], judges);
      SlotsDistinct(rest, judges);
      assert proofs[0] !in rest && forall q :: q in rest ==> q in proofs;
      DistinctConcat(JudgesOf(proofs[0], judges), SlotTasks(rest, judges));
    }
  }

  lemma StartDurable(ledger: map<JudgeId, Response>, proofs: seq<string>, judges: seq<JudgeSpec>)
    requires NoDup(proofs) && DistinctJudges(judges)
    ensures Durable(Start(ledger, proofs, judges))
  {
    SlotsDistinct(proofs, judges);
    var p := Start(ledger, proofs, judges);
    forall j | 0 <= j < |p.tasks| ensures TaskOk(p.tasks[j], p.issued, RowIds(p.rows)) {
      assert p.tasks[j] in p.tasks;
    }
  }

  /**
   * However the slots of all finalists interleave and wherever the launch dies: no judgment is requested twice, none
   * with a row on disk is requested at all, and each request leaves at most one row.
   */
  lemma OneRequestPerJudgment(score: Response -> Option<real>, ledger: map<JudgeId, Response>, proofs: seq<string>, judges: seq<JudgeSpec>, run: seq<Event>)
    requires NoDup(proofs) && DistinctJudges(judges) && Legal(score, Start(ledger, proofs, judges), run)
    ensures var p := Exec(score, Start(ledger, proofs, judges), run);
      && NoDup(p.issued) && (forall id :: id in p.issued ==> id !in ledger && id.attempt <= MAX_JUDGMENT_RESAMPLES)
      && NoDup(RowIds(p.rows)) && (forall id :: id in RowIds(p.rows) ==> id in p.issued)
  {
    StartDurable(ledger, proofs, judges);
    RunDurable(score, Start(ledger, proofs, judges), run);
  }

  /** A result once given stays: no later step, cancellation or crash takes it back. */
  lemma {:induction false} FinishedSlotsStay(score: Response -> Option<real>, p: Phase, run: seq<Event>, i: nat)
    requires Legal(score, p, run) && i < |p.tasks| && p.tasks[i].stage.Finished?
    ensures i < |Exec(score, p, run).tasks| && Exec(score, p, run).tasks[i] == p.tasks[i]
    decreases run
  {
    if run != [] {
      assert Next(score, p, run[0]).tasks[i] == p.tasks[i];
      FinishedSlotsStay(score, Next(score, p, run[0]), run[1..], i);
    }
  }

  // ---- what a scan answers -----------------------------------------------------------------------

  ghost predicate NoRow(rows: seq<JudgeRow>, n: nat, id: JudgeId)
    requires n <= |rows|
  {
    forall j :: 0 <= j < n ==> rows[j].id != id
  }

  ghost predicate NoCompleteRow(rows: seq<JudgeRow>, n: nat, id: JudgeId)
    requires n <= |rows|
  {
    forall j :: 0 <= j < n && rows[j].id == id ==> !Complete(rows[j].resp)
  }

  /** Row `k` is the first complete row of the judgment, or without one its first row. */
  ghost predicate Wins(rows: seq<JudgeRow>, k: nat, id: JudgeId) {
    && k < |rows| && rows[k].id == id
    && if Complete(rows[k].resp) then NoCompleteRow(rows, k, id) else NoRow(rows, k, id) && NoCompleteRow(rows, |rows|, id)
  }

  lemma PrefixRows(rows: seq<JudgeRow>, m: nat, n: nat, id: JudgeId)
    requires m <= n <= |rows|
    ensures NoRow(rows[..n], m, id) == NoRow(rows, m, id) && NoCompleteRow(rows[..n], m, id) == NoCompleteRow(rows, m, id)
  {
    assert forall j :: 0 <= j < m ==> rows[..n][j] == rows[j];
  }

  /** The scan of any judge file answers exactly the judgments with a row, each with its winner. */
  lemma {:induction false} ScanRowsMeaning(rows: seq<JudgeRow>, id: JudgeId)
    ensures id in ScanRows(rows) <==> !NoRow(rows, |rows|, id)
    ensures id in ScanRows(rows) ==> exists k: nat :: Wins(rows, k, id) && ScanRows(rows)[id] == rows[k].resp
  {
    if rows != [] {
      var n := |rows| - 1;
      ScanRowsMeaning(rows[..n], id);
      PrefixRows(rows, n, n, id);
      if id in ScanRows(rows[..n]) {
        var k: nat :| Wins(rows[..n], k, id) && ScanRows(rows[..n])[id] == rows[..n][k].resp;
        PrefixRows(rows, k, n, id);
        OneMoreRow(rows, k, id);
      } else if rows[n].id == id {
        assert Wins(rows, n, id) && ScanRows(rows)[id] == rows[n].resp;
      }
    }
  }

  /** One more row takes over only if it is the first complete one of its judgment. */
  lemma OneMoreRow(rows: seq<JudgeRow>, k: nat, id: JudgeId)
    requires rows != [] && Wins(rows[..|rows| - 1], k, id) && id in ScanRows(rows[..|rows| - 1]) && ScanRows(rows[..|rows| - 1])[id] == rows[k].resp
    requires NoCompleteRow(rows[..|rows| - 1], |rows| - 1, id) == NoCompleteRow(rows, |rows| - 1, id)
    requires NoRow(rows[..|rows| - 1], k, id) == NoRow(rows, k, id) && NoCompleteRow(rows[..|rows| - 1], k, id) == NoCompleteRow(rows, k, id)
    ensures id in ScanRows(rows) && exists w: nat :: Wins(rows, w, id) && ScanRows(rows)[id] == rows[w].resp
  {
    var n := |rows| - 1;
    if rows[n].id == id && !Complete(rows[k].resp) && Complete(rows[n].resp) {
      assert Wins(rows, n, id) && ScanRows(rows)[id] == rows[n].resp;
    } else {
      assert Wins(rows, k, id) && ScanRows(rows)[id] == rows[k].resp;
    }
  }

  // ---- every judgment has its task ---------------------------------------------------------------

  lemma {:induction false} JudgeSlotsCover(proof: string, judges: seq<JudgeSpec>, judge: JudgeSpec, slot: nat)
    requires judge in judges && slot < judge.judgments
    ensures SlotTask(proof, judge.id, judge.judgments, slot, 0, Ready) in JudgesOf(proof, judges)
  {
    assert judges == [judges[0]] + judges[1..];
    if judge == judges[0] {
      assert SlotsOf(proof, judge)[slot] == SlotTask(proof, judge.id, judge.judgments, slot, 0, Ready);
    } else {
      JudgeSlotsCover(proof, judges[1..], judge, slot);
    }
  }

  /** The phase starts with one task for every finalist, judge and slot, at the first attempt. */
  lemma {:induction false} EveryJudgmentHasItsTask(proofs: seq<string>, judges: seq<JudgeSpec>, proof: string, judge: JudgeSpec, slot: nat)
    requires proof in proofs && judge in judges && slot < judge.judgments
    ensures SlotTask(proof, judge.id, judge.judgments, slot, 0, Ready) in SlotTasks(proofs, judges)
  {
    assert proofs == [proofs[0]] + proofs[1..];
    if proof == proofs[0] {
      JudgeSlotsCover(proof, judges, judge, slot);
    } else {
      EveryJudgmentHasItsTask(proofs[1..], judges, proof, judge, slot);
    }
  }
}
