/** Every slot of the judge phase follows the loop of `_judge_slot`, whatever the other slots do, and replays from disk. */
module JudgeReplay {
  import opened Options
  import opened Judging
  import opened JudgePhase

  /** What the endpoint gives each judgment's request; nothing when it is parked. */
  type Oracle = JudgeId -> Option<Response>

  // ---- one slot's view --------------------------------------------------------------------

  function SlotAt(ask: Oracle, score: Response -> Option<real>, proof: string, judge: string, n: nat, slot: nat): Slot {
    Slot(n, slot, (a: nat) => ask(JudgeId(proof, judge, slot, a)), score)
  }

  /** The slot's persisted attempts. */
  function DiskOf(ledger: map<JudgeId, Response>, proof: string, judge: string, slot: nat): map<nat, Response> {
    map a: nat | a <= MAX_JUDGMENT_RESAMPLES && JudgeId(proof, judge, slot, a) in ledger :: ledger[JudgeId(proof, judge, slot, a)]
  }

  predicate OfSlot(id: JudgeId, proof: string, judge: string, slot: nat) {
    id.proof == proof && id.judge == judge && id.slot == slot
  }

  /** The slot's rows among those written. */
  function RowsOf(rows: seq<JudgeRow>, proof: string, judge: string, slot: nat): seq<Judgment> {
    if rows == [] then []
    else
      var last := rows[|rows| - 1];
      RowsOf(rows[..|rows| - 1], proof, judge, slot) +
      (if OfSlot(last.id, proof, judge, slot) then [Judgment(last.id.attempt, last.resp)] else [])
  }

  lemma RowsSnoc(rows: seq<JudgeRow>, r: JudgeRow, proof: string, judge: string, slot: nat)
    ensures RowsOf(rows + [r], proof, judge, slot) ==
      RowsOf(rows, proof, judge, slot) + (if OfSlot(r.id, proof, judge, slot) then [Judgment(r.id.attempt, r.resp)] else [])
  {
    assert (rows + [r])[..|rows|] == rows;
  }

  // ---- the slot follows the loop --------------------------------------------------------------

  /** From `attempt` on the slot has to do what the loop has still to do there. */
  ghost predicate OnTrack(s: Slot, disk: map<nat, Response>, mine: seq<Judgment>, attempt: nat) {
    && attempt <= MAX_JUDGMENT_RESAMPLES + 1
    && Judge(s, disk).result == From(s, disk, attempt).result
    && Judge(s, disk).written == mine + From(s, disk, attempt).written
  }

  ghost predicate Follows(s: Slot, disk: map<nat, Response>, mine: seq<Judgment>, t: SlotTask) {
    match t.stage
    case Ready => OnTrack(s, disk, mine, t.attempt)
    case Waiting => OnTrack(s, disk, mine, t.attempt) && t.attempt <= MAX_JUDGMENT_RESAMPLES && t.attempt !in disk
    case Saving(resp) =>
      OnTrack(s, disk, mine, t.attempt) && t.attempt <= MAX_JUDGMENT_RESAMPLES && t.attempt !in disk && s.ask(t.attempt) == Some(resp)
    case Finished(result) => result == Judge(s, disk).result && mine == Judge(s, disk).written
    case Gone => mine <= Judge(s, disk).written
  }

  ghost predicate TaskFollows(ask: Oracle, score: Response -> Option<real>, p: Phase, t: SlotTask) {
    Follows(SlotAt(ask, score, t.proof, t.judge, t.n, t.slot), DiskOf(p.ledger, t.proof, t.judge, t.slot),
            RowsOf(p.rows, t.proof, t.judge, t.slot), t)
  }

  ghost predicate AllFollow(ask: Oracle, score: Response -> Option<real>, p: Phase) {
    forall j :: 0 <= j < |p.tasks| ==> TaskFollows(ask, score, p, p.tasks[j])
  }

  /** The event answers as the oracle does. */
  predicate Answers(ask: Oracle, p: Phase, ev: Event)
    requires Enabled(p, ev)
  {
    var id := IdAt(p.tasks[ev.i], p.tasks[ev.i].attempt);
    (ev.Deliver? ==> ask(id) == Some(ev.resp)) && (ev.Park? ==> ask(id) == None)
  }

  ghost predicate Answered(ask: Oracle, score: Response -> Option<real>, p: Phase, run: seq<Event>)
    requires Legal(score, p, run)
    decreases run
  {
    run == [] || (Answers(ask, p, run[0]) && Answered(ask, score, Next(score, p, run[0]), run[1..]))
  }

  /** The attempt gave no score: the loop goes on. */
  lemma GoesOn(s: Slot, disk: map<nat, Response>, mine: seq<Judgment>, t: SlotTask, resp: Response)
    requires OnTrack(s, disk, mine, t.attempt) && t.attempt <= MAX_JUDGMENT_RESAMPLES && t.slot == s.slot && t.n == s.n
    requires t.attempt in disk && disk[t.attempt] == resp
    ensures Follows(s, disk, mine, Settled(t, s.score(resp)))
  {
    assert mine + [] == mine;
  }

  /** A fresh answer is saved: one row more, and the loop goes on or ends with it. */
  lemma SavesOne(s: Slot, disk: map<nat, Response>, mine: seq<Judgment>, t: SlotTask, resp: Response)
    requires OnTrack(s, disk, mine, t.attempt) && t.attempt <= MAX_JUDGMENT_RESAMPLES && t.slot == s.slot && t.n == s.n
    requires t.attempt !in disk && s.ask(t.attempt) == Some(resp)
    ensures Follows(s, disk, mine + [Judgment(t.attempt, resp)], Settled(t, s.score(resp)))
  {
    var j := Judgment(t.attempt, resp);
    if s.score(resp).None? {
      Assoc(mine, [j], From(s, disk, t.attempt + 1).written);
    }
  }

  lemma LooksAt(s: Slot, disk: map<nat, Response>, mine: seq<Judgment>, t: SlotTask)
    requires OnTrack(s, disk, mine, MAX_JUDGMENT_RESAMPLES + 1) && t.slot == s.slot && t.n == s.n
    ensures Follows(s, disk, mine,
      t.(stage := Finished(SlotResult(MAX_JUDGMENT_RESAMPLES + 1, None, false, SeedOf(t, MAX_JUDGMENT_RESAMPLES)))))
  {
    assert mine + [] == mine;
  }

  lemma Parks(s: Slot, disk: map<nat, Response>, mine: seq<Judgment>, t: SlotTask)
    requires OnTrack(s, disk, mine, t.attempt) && t.attempt <= MAX_JUDGMENT_RESAMPLES && t.slot == s.slot && t.n == s.n
    requires t.attempt !in disk && s.ask(t.attempt) == None
    ensures Follows(s, disk, mine, t.(stage := Finished(SlotResult(t.attempt + 1, None, false, SeedOf(t, t.attempt)))))
  {
    assert mine + [] == mine;
  }

  lemma LookFollows(ask: Oracle, score: Response -> Option<real>, p: Phase, i: nat)
    requires Enabled(p, Look(i)) && TaskFollows(ask, score, p, p.tasks[i])
    ensures TaskFollows(ask, score, Next(score, p, Look(i)), Next(score, p, Look(i)).tasks[i])
  {
    var t := p.tasks[i];
    var s, disk, mine := SlotAt(ask, score, t.proof, t.judge, t.n, t.slot), DiskOf(p.ledger, t.proof, t.judge, t.slot),
                         RowsOf(p.rows, t.proof, t.judge, t.slot);
    if t.attempt == MAX_JUDGMENT_RESAMPLES + 1 {
      LooksAt(s, disk, mine, t);
    } else if IdAt(t, t.attempt) in p.ledger {
      GoesOn(s, disk, mine, t, p.ledger[IdAt(t, t.attempt)]);
    }
  }

  lemma SaveFollows(ask: Oracle, score: Response -> Option<real>, p: Phase, i: nat)
    requires Enabled(p, Save(i)) && TaskFollows(ask, score, p, p.tasks[i])
    ensures TaskFollows(ask, score, Next(score, p, Save(i)), Next(score, p, Save(i)).tasks[i])
  {
    var t := p.tasks[i];
    RowsSnoc(p.rows, JudgeRow(IdAt(t, t.attempt), t.stage.resp), t.proof, t.judge, t.slot);
    SavesOne(SlotAt(ask, score, t.proof, t.judge, t.n, t.slot), DiskOf(p.ledger, t.proof, t.judge, t.slot),
             RowsOf(p.rows, t.proof, t.judge, t.slot), t, t.stage.resp);
  }

  lemma ParkFollows(ask: Oracle, score: Response -> Option<real>, p: Phase, i: nat)
    requires Enabled(p, Park(i)) && TaskFollows(ask, score, p, p.tasks[i]) && Answers(ask, p, Park(i))
    ensures TaskFollows(ask, score, Next(score, p, Park(i)), Next(score, p, Park(i)).tasks[i])
  {
    var t := p.tasks[i];
    Parks(SlotAt(ask, score, t.proof, t.judge, t.n, t.slot), DiskOf(p.ledger, t.proof, t.judge, t.slot),
          RowsOf(p.rows, t.proof, t.judge, t.slot), t);
  }

  /** The task that moves keeps following its loop. */
  lemma MoverFollows(ask: Oracle, score: Response -> Option<real>, p: Phase, ev: Event)
    requires Enabled(p, ev) && TaskFollows(ask, score, p, p.tasks[ev.i]) && Answers(ask, p, ev)
    ensures TaskFollows(ask, score, Next(score, p, ev), Next(score, p, ev).tasks[ev.i])
  {
    match ev
    case Look(i) => LookFollows(ask, score, p, i);
    case Park(i) => ParkFollows(ask, score, p, i);
    case Save(i) => SaveFollows(ask, score, p, i);
    case _ =>
  }

  lemma OthersFollow(ask: Oracle, score: Response -> Option<real>, p: Phase, ev: Event, j: nat)
    requires AllFollow(ask, score, p) && Enabled(p, ev) && DistinctSlots(p.tasks) && j < |p.tasks| && j != ev.i
    ensures TaskFollows(ask, score, Next(score, p, ev), Next(score, p, ev).tasks[j])
  {
    var t, u := p.tasks[ev.i], p.tasks[j];
    assert TaskFollows(ask, score, p, u) && !SameSlot(t, u);
    if ev.Save? {
      RowsSnoc(p.rows, JudgeRow(IdAt(t, t.attempt), t.stage.resp), u.proof, u.judge, u.slot);
      assert RowsOf(p.rows, u.proof, u.judge, u.slot) + [] == RowsOf(p.rows, u.proof, u.judge, u.slot);
    }
  }

  lemma StepFollows(ask: Oracle, score: Response -> Option<real>, p: Phase, ev: Event)
    requires AllFollow(ask, score, p) && Durable(p) && Enabled(p, ev) && Answers(ask, p, ev)
    ensures AllFollow(ask, score, Next(score, p, ev))
  {
    forall j | 0 <= j < |p.tasks| ensures TaskFollows(ask, score, Next(score, p, ev), Next(score, p, ev).tasks[j]) {
      if j == ev.i { MoverFollows(ask, score, p, ev); } else { OthersFollow(ask, score, p, ev, j); }
    }
  }

  lemma {:induction false} RunFollows(ask: Oracle, score: Response -> Option<real>, p: Phase, run: seq<Event>)
    requires AllFollow(ask, score, p) && Durable(p) && Legal(score, p, run) && Answered(ask, score, p, run)
    ensures AllFollow(ask, score, Exec(score, p, run))
    decreases run
  {
    if run != [] {
      StepFollows(ask, score, p, run[0]);
      StepDurable(score, p, run[0]);
      RunFollows(ask, score, Next(score, p, run[0]), run[1..]);
    }
  }

  lemma StartFollows(ask: Oracle, score: Response -> Option<real>, ledger: map<JudgeId, Response>, proofs: seq<string>, judges: seq<JudgeSpec>)
    requires NoDup(proofs) && DistinctJudges(judges)
    ensures AllFollow(ask, score, Start(ledger, proofs, judges))
  {
    var p := Start(ledger, proofs, judges);
    SlotsDistinct(proofs, judges);
    forall j | 0 <= j < |p.tasks| ensures TaskFollows(ask, score, p, p.tasks[j]) {
      var t := p.tasks[j];
      assert t in p.tasks;
      var s, disk := SlotAt(ask, score, t.proof, t.judge, t.n, t.slot), DiskOf(p.ledger, t.proof, t.judge, t.slot);
      assert [] + From(s, disk, 0).written == From(s, disk, 0).written;
    }
  }

  /**
   * In any interleaving answered by the oracle, at any moment: a finished slot has the result of its own loop over its
   * own persisted attempts, and the rows of any slot are a prefix of those its loop writes.
   */
  lemma EverySlotFollowsItsLoop(ask: Oracle, score: Response -> Option<real>, ledger: map<JudgeId, Response>, proofs: seq<string>,
                                judges: seq<JudgeSpec>, run: seq<Event>)
    requires NoDup(proofs) && DistinctJudges(judges)
    requires Legal(score, Start(ledger, proofs, judges), run) && Answered(ask, score, Start(ledger, proofs, judges), run)
    ensures var p := Exec(score, Start(ledger, proofs, judges), run);
      forall t :: t in p.tasks ==>
        var r := Judge(SlotAt(ask, score, t.proof, t.judge, t.n, t.slot), DiskOf(ledger, t.proof, t.judge, t.slot));
        && (t.stage.Finished? ==> t.stage.result == r.result)
        && RowsOf(p.rows, t.proof, t.judge, t.slot) <= r.written
  {
    StartDurable(ledger, proofs, judges);
    StartFollows(ask, score, ledger, proofs, judges);
    RunFollows(ask, score, Start(ledger, proofs, judges), run);
    RunDurable(score, Start(ledger, proofs, judges), run);
    var p := Exec(score, Start(ledger, proofs, judges), run);
    forall t | t in p.tasks
      ensures var r := Judge(SlotAt(ask, score, t.proof, t.judge, t.n, t.slot), DiskOf(ledger, t.proof, t.judge, t.slot));
        (t.stage.Finished? ==> t.stage.result == r.result) && RowsOf(p.rows, t.proof, t.judge, t.slot) <= r.written
    {
      var j :| 0 <= j < |p.tasks| && p.tasks[j] == t;
      assert TaskFollows(ask, score, p, t);
    }
  }

  // ---- the next launch finds what was written ------------------------------------------------------

  lemma {:induction false} ScanKeys(rows: seq<JudgeRow>)
    ensures forall id :: id in ScanRows(rows) <==> id in RowIds(rows)
  {
    if rows != [] {
      var front := rows[..|rows| - 1];
      ScanKeys(front);
      assert RowIds(rows) == RowIds(front) + [rows[|rows| - 1].id];
    }
  }

  lemma AppendSnoc(disk: map<nat, Response>, rows: seq<Judgment>, j: Judgment)
    ensures Append(disk, rows + [j]) ==
      var d := Append(disk, rows); if j.attempt in d then d else d[j.attempt := j.resp]
  {
    AppendTwice(disk, rows, [j]);
    assert [j][1..] == [];
  }

  /** Fresh rows extend each slot's persisted attempts by the slot's own rows. */
  lemma {:induction false} DiskGrows(base: seq<JudgeRow>, rows: seq<JudgeRow>, proof: string, judge: string, slot: nat)
    requires NoDup(RowIds(rows)) && forall id :: id in RowIds(rows) ==> id !in RowIds(base)
    requires forall id :: id in RowIds(rows) ==> id.attempt <= MAX_JUDGMENT_RESAMPLES
    ensures DiskOf(ScanRows(base + rows), proof, judge, slot) == Append(DiskOf(ScanRows(base), proof, judge, slot), RowsOf(rows, proof, judge, slot))
    decreases rows
  {
    if rows == [] {
      assert base + rows == base;
    } else {
      var front, last := rows[..|rows| - 1], rows[|rows| - 1];
      assert rows == front + [last];
      FrontFresh(base, front, last);
      DiskGrows(base, front, proof, judge, slot);
      DiskGrowsOne(base + front, last, proof, judge, slot);
      assert base + rows == (base + front) + [last];
      RowsSnoc(front, last, proof, judge, slot);
      if OfSlot(last.id, proof, judge, slot) {
        AppendSnoc(DiskOf(ScanRows(base), proof, judge, slot), RowsOf(front, proof, judge, slot), Judgment(last.id.attempt, last.resp));
      } else {
        assert RowsOf(front, proof, judge, slot) + [] == RowsOf(front, proof, judge, slot);
      }
    }
  }

  lemma FrontFresh(base: seq<JudgeRow>, front: seq<JudgeRow>, last: JudgeRow)
    requires NoDup(RowIds(front + [last])) && forall id :: id in RowIds(front + [last]) ==> id !in RowIds(base)
    ensures NoDup(RowIds(front)) && (forall id :: id in RowIds(front) ==> id in RowIds(front + [last]))
    ensures last.id !in RowIds(base + front) && last.id in RowIds(front + [last])
  {
    var all := RowIds(front + [last]);
    assert all == RowIds(front) + [last.id] && all[|front|] == last.id;
    assert RowIds(base + front) == RowIds(base) + RowIds(front);
    forall i, j | 0 <= i < j < |front| ensures RowIds(front)[i] != RowIds(front)[j] {
      assert all[i] != all[j];
    }
    forall i | 0 <= i < |front| ensures RowIds(front)[i] != last.id {
      assert all[i] != all[|front|];
    }
  }

  lemma DiskGrowsOne(base: seq<JudgeRow>, r: JudgeRow, proof: string, judge: string, slot: nat)
    requires r.id !in RowIds(base) && r.id.attempt <= MAX_JUDGMENT_RESAMPLES
    ensures var d := DiskOf(ScanRows(base), proof, judge, slot);
      DiskOf(ScanRows(base + [r]), proof, judge, slot) == if OfSlot(r.id, proof, judge, slot) then d[r.id.attempt := r.resp] else d
    ensures OfSlot(r.id, proof, judge, slot) ==> r.id.attempt !in DiskOf(ScanRows(base), proof, judge, slot)
  {
    ScanKeys(base);
    assert (base + [r])[..|base|] == base;
  }

  // ---- whose rows they are ------------------------------------------------------------------------

  /** The tasks are those the phase began with, and every row is one of theirs. */
  ghost predicate Steady(was: seq<SlotTask>, p: Phase) {
    && |p.tasks| == |was|
    && (forall j :: 0 <= j < |was| ==> SameSlot(p.tasks[j], was[j]) && p.tasks[j].n == was[j].n)
    && forall r :: r in p.rows ==> exists j :: 0 <= j < |was| && OfSlot(r.id, was[j].proof, was[j].judge, was[j].slot)
  }

  lemma StepSteady(score: Response -> Option<real>, was: seq<SlotTask>, p: Phase, ev: Event)
    requires Steady(was, p) && Enabled(p, ev)
    ensures Steady(was, Next(score, p, ev))
  {
    var p' := Next(score, p, ev);
    forall r | r in p'.rows ensures exists j :: 0 <= j < |was| && OfSlot(r.id, was[j].proof, was[j].judge, was[j].slot) {
      if r !in p.rows {
        assert OfSlot(r.id, was[ev.i].proof, was[ev.i].judge, was[ev.i].slot);
      }
    }
  }

  lemma {:induction false} RunSteady(score: Response -> Option<real>, was: seq<SlotTask>, p: Phase, run: seq<Event>)
    requires Steady(was, p) && Legal(score, p, run)
    ensures Steady(was, Exec(score, p, run))
    decreases run
  {
    if run != [] {
      StepSteady(score, was, p, run[0]);
      RunSteady(score, was, Next(score, p, run[0]), run[1..]);
    }
  }

  lemma {:induction false} NoRowsOf(rows: seq<JudgeRow>, proof: string, judge: string, slot: nat)
    requires forall r :: r in rows ==> !OfSlot(r.id, proof, judge, slot)
    ensures RowsOf(rows, proof, judge, slot) == []
  {
    if rows != [] {
      assert rows[|rows| - 1] in rows && forall r :: r in rows[..|rows| - 1] ==> r in rows;
      NoRowsOf(rows[..|rows| - 1], proof, judge, slot);
    }
  }

  /**
   * For any slot of a configured judge, judged in this phase or not: the phase writes a prefix of what the slot's loop
   * writes over its persisted attempts.
   */
  lemma PhaseWritesPrefix(ask: Oracle, score: Response -> Option<real>, ledger: map<JudgeId, Response>, proofs: seq<string>,
                          judges: seq<JudgeSpec>, run: seq<Event>, proof: string, spec: JudgeSpec, slot: nat)
    requires NoDup(proofs) && DistinctJudges(judges) && spec in judges
    requires Legal(score, Start(ledger, proofs, judges), run) && Answered(ask, score, Start(ledger, proofs, judges), run)
    ensures RowsOf(Exec(score, Start(ledger, proofs, judges), run).rows, proof, spec.id, slot) <=
      Judge(SlotAt(ask, score, proof, spec.id, spec.judgments, slot), DiskOf(ledger, proof, spec.id, slot)).written
  {
    var was := Start(ledger, proofs, judges);
    var p := Exec(score, was, run);
    EverySlotFollowsItsLoop(ask, score, ledger, proofs, judges, run);
    RunSteady(score, was.tasks, was, run);
    SlotsDistinct(proofs, judges);
    if j :| 0 <= j < |p.tasks| && p.tasks[j].proof == proof && p.tasks[j].judge == spec.id && p.tasks[j].slot == slot {
      assert was.tasks[j] in was.tasks && SameSlot(p.tasks[j], was.tasks[j]);
      OneJudgePerId(was.tasks[j], judges, spec);
      assert p.tasks[j] in p.tasks;
    } else {
      forall r | r in p.rows ensures !OfSlot(r.id, proof, spec.id, slot) {
        var j :| 0 <= j < |was.tasks| && OfSlot(r.id, was.tasks[j].proof, was.tasks[j].judge, was.tasks[j].slot);
        assert SameSlot(p.tasks[j], was.tasks[j]);
      }
      NoRowsOf(p.rows, proof, spec.id, slot);
    }
  }

  lemma OneJudgePerId(t: SlotTask, judges: seq<JudgeSpec>, spec: JudgeSpec)
    requires DistinctJudges(judges) && OfJudges(t, judges) && spec in judges && t.judge == spec.id
    ensures t.n == spec.judgments
  {
    var j :| 0 <= j < |judges| && judges[j].id == t.judge && judges[j].judgments == t.n && t.slot < t.n;
    var k :| 0 <= k < |judges| && judges[k] == spec;
  }

  lemma PrefixIsTake<T>(a: seq<T>, b: seq<T>)
    requires a <= b
    ensures b[..|a|] == a
  {
  }

  /** A phase is one interrupted run of the slot's loop: the next scan finds the loop's disk with some of its rows added. */
  lemma PhaseAppends(ask: Oracle, score: Response -> Option<real>, base: seq<JudgeRow>, proofs: seq<string>, judges: seq<JudgeSpec>,
                     run: seq<Event>, rows: seq<JudgeRow>, proof: string, spec: JudgeSpec, slot: nat) returns (k: nat)
    requires NoDup(proofs) && DistinctJudges(judges) && spec in judges
    requires Legal(score, Start(ScanRows(base), proofs, judges), run) && Answered(ask, score, Start(ScanRows(base), proofs, judges), run)
    requires rows == Exec(score, Start(ScanRows(base), proofs, judges), run).rows
    requires NoDup(RowIds(rows)) && forall id :: id in RowIds(rows) ==> id !in RowIds(base) && id.attempt <= MAX_JUDGMENT_RESAMPLES
    ensures var disk := DiskOf(ScanRows(base), proof, spec.id, slot);
      var r := Judge(SlotAt(ask, score, proof, spec.id, spec.judgments, slot), disk);
      k <= |r.written| && DiskOf(ScanRows(base + rows), proof, spec.id, slot) == Append(disk, r.written[..k])
  {
    PhaseWritesPrefix(ask, score, ScanRows(base), proofs, judges, run, proof, spec, slot);
    DiskGrows(base, rows, proof, spec.id, slot);
    k := |RowsOf(rows, proof, spec.id, slot)|;
    PrefixIsTake(RowsOf(rows, proof, spec.id, slot),
                 Judge(SlotAt(ask, score, proof, spec.id, spec.judgments, slot), DiskOf(ScanRows(base), proof, spec.id, slot)).written);
  }
}
