/** What a cancellation, by a stop or by an abort, does to the task it reaches: no sample of it is admitted, no panel judged. */
module Cancelling {
  import opened Options
  import opened Search
  import opened Durability
  import Conservation
  import Launching
  import Outcome
  import Safety
  import Verdicts

  // ---- panels --------------------------------------------------------------------------------------

  /** The task's panel will end without a verdict. */
  predicate CutShort(t: Task) {
    t.cancelled || (t.pc.Recording? && t.pc.interrupted)
  }

  /** No verdict yet, and no panel that could give one. */
  ghost predicate Barred(s: State, at: nat) {
    && at < |s.pool| && s.pool[at].verdict.None?
    && forall j :: 0 <= j < |s.tasks| && HasPanel(s.tasks[j].pc) && s.tasks[j].pc.at == at ==> CutShort(s.tasks[j])
  }

  lemma MovedBarred(s: State, s': State, i: nat, at: nat)
    requires Barred(s, at) && i < |s.tasks| == |s'.tasks| && |s.pool| <= |s'.pool| && s'.pool[at].verdict == s.pool[at].verdict
    requires forall j :: 0 <= j < |s.tasks| && j != i ==> s'.tasks[j].pc == s.tasks[j].pc && (s.tasks[j].cancelled ==> s'.tasks[j].cancelled)
    requires HasPanel(s'.tasks[i].pc) && s'.tasks[i].pc.at == at ==> CutShort(s'.tasks[i])
    ensures Barred(s', at)
  {
  }

  lemma MergeBarred(s: State, i: nat, k: nat, at: nat)
    requires Barred(s, at) && i < |s.tasks| && k < |s.pool|
    ensures Barred(SetPc(s.(pool := s.pool[k := Merge(s.pool[k], s.tasks[i])]), i, Done), at)
  {
  }

  lemma RegisterBarred(s: State, i: nat, rec: Record, seats: seq<seq<Seat>>, at: nat)
    requires Barred(s, at) && i < |s.tasks|
    ensures Barred(SetPc(s.(pool := s.pool + [rec]), i, Voting(|s.pool|, seats)), at)
  {
  }

  /** Only pool and tasks matter. */
  lemma BarredAlike(s: State, s': State, at: nat)
    requires Barred(s, at) && s'.pool == s.pool && s'.tasks == s.tasks
    ensures Barred(s', at)
  {
  }

  lemma AdmitBarred(cfg: Config, s: State, i: nat, resp: Response, at: nat)
    requires Barred(s, at) && i < |s.tasks|
    ensures Barred(Admit(cfg, s, i, resp), at)
  {
    var t, p, s' := s.tasks[i], cfg.parseProof(resp), Admit(cfg, s, i, resp);
    if t.model in s.stopped || !p.valid {
      MovedBarred(s, s', i, at);
    } else {
      match Find(s.pool, p.proof)
      case Some(k) =>
        MergeBarred(s, i, k, at);
        BarredAlike(SetPc(s.(pool := s.pool[k := Merge(s.pool[k], t)]), i, Done), s', at);
      case None =>
        var rec := NewRecord(p, t, s.nextId);
        RegisterBarred(s, i, rec, EmptyPanel(cfg), at);
        BarredAlike(SetPc(s.(pool := s.pool + [rec]), i, Voting(|s.pool|, EmptyPanel(cfg))), s', at);
    }
  }

  lemma SettleBarred(s: State, i: nat, rec: Record, at: nat)
    requires Barred(s, at) && i < |s.tasks| && s.tasks[i].pc.Recording? && s.tasks[i].pc.at < |s.pool| && s.tasks[i].pc.at != at && rec.verdict.Some?
    ensures Barred(Settle(s, i, rec), at)
  {
    var s' := Settle(s, i, rec);
    Verdicts.SettleMovesOne(s, i, rec);
    assert forall j :: 0 <= j < |s.tasks| ==> (s.tasks[j].cancelled ==> s'.tasks[j].cancelled);
    MovedBarred(s, s', i, at);
  }

  lemma ConcludeBarred(cfg: Config, s: State, i: nat, at: nat)
    requires Barred(s, at) && Enabled(cfg, s, Conclude(i))
    ensures Barred(Conclusion(cfg, s, i), at)
  {
    var pc := s.tasks[i].pc;
    if SomeSeat(pc.seats, Seat.Fatal) || pc.interrupted {
      MovedBarred(s, Conclusion(cfg, s, i), i, at);
    } else {
      SettleBarred(s, i, Judged(cfg, s.pool[pc.at], pc.seats), at);
    }
  }

  lemma SampleBarred(cfg: Config, s: State, ev: Event, at: nat)
    requires Barred(s, at) && Enabled(cfg, s, ev) && (ev.Start? || ev.Resume?)
    ensures Barred(Next(cfg, s, ev), at)
  {
    if ev.Resume? {
      AdmitBarred(cfg, s, ev.i, s.tasks[ev.i].pc.resp, at);
    } else if s.tasks[ev.i].id in s.ledger {
      AdmitBarred(cfg, s, ev.i, s.ledger[s.tasks[ev.i].id], at);
    }
  }

  lemma PanelBarred(cfg: Config, s: State, ev: Event, at: nat)
    requires Barred(s, at) && Enabled(cfg, s, ev)
    requires ev.SeatStart? || ev.SeatDeliver? || ev.SeatPark? || ev.SeatFail? || ev.SeatDrop? || ev.Gather? || ev.WriteVote?
    ensures Barred(Next(cfg, s, ev), at)
  {
    MovedBarred(s, Next(cfg, s, ev), ev.i, at);
  }

  lemma AllTasksBarred(cfg: Config, s: State, ev: Event, at: nat)
    requires ValidConfig(cfg) && Barred(s, at) && Enabled(cfg, s, ev) && (ev.NextRound? || ev.Abort?)
    ensures Barred(Next(cfg, s, ev), at)
  {
    var s' := Next(cfg, s, ev);
    if ev.NextRound? {
      Launching.NextTasks(cfg, s);
    } else {
      assert forall j :: 0 <= j < |s'.tasks| ==> s'.tasks[j].pc == s.tasks[j].pc && (s.tasks[j].cancelled ==> s'.tasks[j].cancelled);
    }
  }

  lemma StepBarred(cfg: Config, s: State, ev: Event, at: nat)
    requires ValidConfig(cfg) && Barred(s, at) && Enabled(cfg, s, ev)
    ensures Barred(Next(cfg, s, ev), at)
  {
    if ev.Start? || ev.Resume? {
      SampleBarred(cfg, s, ev, at);
    } else if ev.Conclude? {
      ConcludeBarred(cfg, s, ev.i, at);
    } else if ev.NextRound? || ev.Abort? {
      AllTasksBarred(cfg, s, ev, at);
    } else if ev.Deliver? || ev.Park? || ev.Fail? || ev.Drop? || ev.Write? || ev.LoseWrite? || ev.Leave? {
      MovedBarred(s, Next(cfg, s, ev), ev.i, at);
    } else {
      PanelBarred(cfg, s, ev, at);
    }
  }

  lemma {:induction false} RunBarred(cfg: Config, s: State, run: seq<Event>, at: nat)
    requires ValidConfig(cfg) && Barred(s, at) && Legal(cfg, s, run)
    ensures Barred(Exec(cfg, s, run), at)
    decreases run
  {
    if run != [] {
      StepBarred(cfg, s, run[0], at);
      RunBarred(cfg, Next(cfg, s, run[0]), run[1..], at);
    }
  }

  /** A record whose panel's task is cancelled before the verdict is never judged, whatever the run does later. */
  lemma CancelledIsNeverJudged(cfg: Config, disk: seq<Entry>, before: seq<Event>, later: seq<Event>, i: nat)
    requires ValidConfig(cfg) && Legal(cfg, Init(cfg, disk), before)
    requires Legal(cfg, Exec(cfg, Init(cfg, disk), before), later) && i < |Exec(cfg, Init(cfg, disk), before).tasks|
    requires var t := Exec(cfg, Init(cfg, disk), before).tasks[i]; HasPanel(t.pc) && t.cancelled
    ensures var s := Exec(cfg, Init(cfg, disk), before);
      var v := Exec(cfg, s, later);
      s.tasks[i].pc.at < |v.pool| && v.pool[s.tasks[i].pc.at].verdict.None?
  {
    var s := Exec(cfg, Init(cfg, disk), before);
    Outcome.InitReached(cfg, disk);
    Outcome.RunReached(cfg, disk, Init(cfg, disk), before);
    assert Safety.TaskSafe(s, s.tasks[i]);
    assert forall j :: 0 <= j < |s.tasks| && j != i && HasPanel(s.tasks[j].pc) ==> s.tasks[j].pc.at != s.tasks[i].pc.at;
    RunBarred(cfg, s, later, s.tasks[i].pc.at);
  }

  /**
   * A gather that ends in a cancellation keeps the responses and nothing else: every other call, one that failed for good
   * included, counts as dropped, so this panel neither judges nor fails the launch.
   */
  lemma CancelledGatherKeepsResponses(cfg: Config, s: State, i: nat)
    requires Enabled(cfg, s, Gather(i)) && s.tasks[i].cancelled
    ensures var was, t := s.tasks[i].pc.seats, Next(cfg, s, Gather(i)).tasks[i];
      && t.pc.Recording? && t.pc.at == s.tasks[i].pc.at && t.pc.interrupted && !t.cancelled && |t.pc.seats| == |was|
      && (forall a, b :: 0 <= a < |was| && 0 <= b < |was[a]| ==>
           |t.pc.seats[a]| == |was[a]| && t.pc.seats[a][b] == (if was[a][b].Got? then was[a][b] else Dropped))
      && !SomeSeat(t.pc.seats, Seat.Fatal)
  {
  }

  // ---- samples -------------------------------------------------------------------------------------

  /** The sample of this identity is in no record. */
  ghost predicate Unlisted(pool: seq<Record>, id: WorkId) {
    forall p, k :: 0 <= p < |pool| && 0 <= k < |pool[p].origins| ==> pool[p].origins[k].id != id
  }

  /** Task `i` is cancelled with its response still to come or still to be admitted, or has ended since. */
  ghost predicate Held(s: State, i: nat, id: WorkId) {
    && i < |s.tasks| && s.tasks[i].id == id && !id.Vote? && (s.aborting || s.finalists != map[])
    && (s.tasks[i].pc == Done || (s.tasks[i].cancelled && (s.tasks[i].pc.Idle? || s.tasks[i].pc.Saving? || s.tasks[i].pc.Saved?)))
    && Unlisted(s.pool, id) && forall j :: 0 <= j < |s.tasks| && j != i ==> s.tasks[j].id != id
  }

  lemma UnlistedMerge(pool: seq<Record>, k: nat, t: Task, id: WorkId)
    requires Unlisted(pool, id) && k < |pool| && t.id != id
    ensures Unlisted(pool[k := Merge(pool[k], t)], id)
  {
    var pool' := pool[k := Merge(pool[k], t)];
    forall q, m | 0 <= q < |pool'| && 0 <= m < |pool'[q].origins| ensures pool'[q].origins[m].id != id {
      if m < |pool[q].origins| { assert pool'[q].origins[m] == pool[q].origins[m]; }
    }
  }

  lemma UnlistedRegister(pool: seq<Record>, p: Parsed, t: Task, next: nat, id: WorkId)
    requires Unlisted(pool, id) && t.id != id
    ensures Unlisted(pool + [NewRecord(p, t, next)], id)
  {
  }

  /** Another task moved, or this one ended. */
  lemma MovedHeld(s: State, s': State, j: nat, i: nat, id: WorkId)
    requires Held(s, i, id) && j < |s.tasks| == |s'.tasks| && s'.aborting == s.aborting && (s.finalists != map[] ==> s'.finalists != map[])
    requires Unlisted(s'.pool, id) && forall k :: 0 <= k < |s.tasks| ==> s'.tasks[k].id == s.tasks[k].id
    requires forall k :: 0 <= k < |s.tasks| && k != j ==> s'.tasks[k].pc == s.tasks[k].pc && (s.tasks[k].cancelled ==> s'.tasks[k].cancelled)
    requires j == i ==> s'.tasks[i].pc == Done
    ensures Held(s', i, id)
  {
  }

  lemma MergeHeld(s: State, s': State, j: nat, k: nat, i: nat, id: WorkId)
    requires Held(s, i, id) && j < |s.tasks| && j != i && k < |s.pool| && s'.aborting == s.aborting && s'.finalists == s.finalists
    requires s'.pool == s.pool[k := Merge(s.pool[k], s.tasks[j])] && s'.tasks == SetPc(s, j, Done).tasks
    ensures Held(s', i, id)
  {
    UnlistedMerge(s.pool, k, s.tasks[j], id);
    MovedHeld(s, s', j, i, id);
  }

  lemma RegisterHeld(s: State, s': State, j: nat, p: Parsed, pc: Pc, i: nat, id: WorkId)
    requires Held(s, i, id) && j < |s.tasks| && j != i && s'.aborting == s.aborting && s'.finalists == s.finalists
    requires s'.pool == s.pool + [NewRecord(p, s.tasks[j], s.nextId)] && s'.tasks == SetPc(s, j, pc).tasks
    ensures Held(s', i, id)
  {
    UnlistedRegister(s.pool, p, s.tasks[j], s.nextId, id);
    MovedHeld(s, s', j, i, id);
  }

  lemma AdmitHeld(cfg: Config, s: State, i: nat, id: WorkId, j: nat, resp: Response)
    requires Held(s, i, id) && j < |s.tasks| && j != i
    ensures Held(Admit(cfg, s, j, resp), i, id)
  {
    var t, p, s' := s.tasks[j], cfg.parseProof(resp), Admit(cfg, s, j, resp);
    if t.model in s.stopped || !p.valid {
      MovedHeld(s, s', j, i, id);
    } else {
      match Find(s.pool, p.proof)
      case Some(k) => MergeHeld(s, s', j, k, i, id);
      case None => RegisterHeld(s, s', j, p, Voting(|s.pool|, EmptyPanel(cfg)), i, id);
    }
  }

  lemma BeginHeld(cfg: Config, s: State, j: nat, i: nat, id: WorkId)
    requires Held(s, i, id) && Enabled(cfg, s, Start(j))
    ensures Held(Begin(cfg, s, j), i, id)
  {
    var t := s.tasks[j];
    if t.cancelled || t.model in s.stopped || t.id !in s.ledger {
      MovedHeld(s, Begin(cfg, s, j), j, i, id);
    } else {
      AdmitHeld(cfg, s, i, id, j, s.ledger[t.id]);
    }
  }

  lemma ResumeHeld(cfg: Config, s: State, j: nat, i: nat, id: WorkId)
    requires Held(s, i, id) && Enabled(cfg, s, Resume(j))
    ensures Held(Next(cfg, s, Resume(j)), i, id)
  {
    if s.tasks[j].cancelled {
      MovedHeld(s, SetPc(s, j, Done), j, i, id);
    } else {
      AdmitHeld(cfg, s, i, id, j, s.tasks[j].pc.resp);
    }
  }

  lemma ConcludeHeld(cfg: Config, s: State, j: nat, i: nat, id: WorkId)
    requires Held(s, i, id) && Enabled(cfg, s, Conclude(j))
    ensures Held(Conclusion(cfg, s, j), i, id)
  {
    var pc := s.tasks[j].pc;
    if SomeSeat(pc.seats, Seat.Fatal) || pc.interrupted {
      MovedHeld(s, Conclusion(cfg, s, j), j, i, id);
    } else {
      SettleHeld(s, j, Judged(cfg, s.pool[pc.at], pc.seats), i, id);
    }
  }

  lemma SettleHeld(s: State, j: nat, rec: Record, i: nat, id: WorkId)
    requires Held(s, i, id) && j < |s.tasks| && s.tasks[j].pc.Recording? && s.tasks[j].pc.at < |s.pool|
    requires rec.verdict.Some? && rec.origins == s.pool[s.tasks[j].pc.at].origins
    ensures Held(Settle(s, j, rec), i, id)
  {
    var s' := Settle(s, j, rec);
    Verdicts.SettleMovesOne(s, j, rec);
    UnlistedAlike(s.pool, s'.pool, id);
    MovedHeld(s, s', j, i, id);
  }

  lemma UnlistedAlike(pool: seq<Record>, pool': seq<Record>, id: WorkId)
    requires Unlisted(pool, id) && |pool'| == |pool| && forall q :: 0 <= q < |pool| ==> pool'[q].origins == pool[q].origins
    ensures Unlisted(pool', id)
  {
  }

  lemma PanelHeld(cfg: Config, s: State, ev: Event, i: nat, id: WorkId)
    requires Held(s, i, id) && Enabled(cfg, s, ev)
    requires ev.SeatStart? || ev.SeatDeliver? || ev.SeatPark? || ev.SeatFail? || ev.SeatDrop? || ev.Gather? || ev.WriteVote?
    ensures Held(Next(cfg, s, ev), i, id)
  {
    if ev.SeatStart? {
      BeginSeatHeld(cfg, s, ev.i, ev.a, ev.b, i, id);
    } else {
      MovedHeld(s, Next(cfg, s, ev), ev.i, i, id);
    }
  }

  lemma BeginSeatHeld(cfg: Config, s: State, j: nat, a: nat, b: nat, i: nat, id: WorkId)
    requires Held(s, i, id) && Enabled(cfg, s, SeatStart(j, a, b))
    ensures Held(BeginSeat(cfg, s, j, a, b), i, id)
  {
    MovedHeld(s, BeginSeat(cfg, s, j, a, b), j, i, id);
  }

  lemma StepHeld(cfg: Config, s: State, ev: Event, i: nat, id: WorkId)
    requires Held(s, i, id) && Enabled(cfg, s, ev)
    ensures Held(Next(cfg, s, ev), i, id)
  {
    if ev.Start? {
      BeginHeld(cfg, s, ev.i, i, id);
    } else if ev.Resume? {
      ResumeHeld(cfg, s, ev.i, i, id);
    } else if ev.Conclude? {
      ConcludeHeld(cfg, s, ev.i, i, id);
    } else if ev.Abort? || ev.Deliver? || ev.Park? || ev.Fail? || ev.Drop? || ev.Write? || ev.LoseWrite? || ev.Leave? {
    } else {
      PanelHeld(cfg, s, ev, i, id);
    }
  }

  lemma AdmitIssuesNothing(cfg: Config, s: State, i: nat, resp: Response)
    requires i < |s.tasks|
    ensures Admit(cfg, s, i, resp).issued == s.issued
  {
  }

  lemma ConcludeIssuesNothing(cfg: Config, s: State, i: nat)
    requires Enabled(cfg, s, Conclude(i))
    ensures Conclusion(cfg, s, i).issued == s.issued
  {
    var pc := s.tasks[i].pc;
    SettleIssuesNothing(s, i, Judged(cfg, s.pool[pc.at], pc.seats));
  }

  lemma SettleIssuesNothing(s: State, i: nat, rec: Record)
    requires i < |s.tasks| && s.tasks[i].pc.Recording? && s.tasks[i].pc.at < |s.pool| && rec.verdict.Some?
    ensures Settle(s, i, rec).issued == s.issued
  {
  }

  /** What a step may request: the sample of its own task, or a vote. */
  lemma StepIssues(cfg: Config, s: State, ev: Event, id: WorkId)
    requires Enabled(cfg, s, ev) && id in Next(cfg, s, ev).issued && id !in s.issued && !id.Vote?
    ensures ev.Start? && id == s.tasks[ev.i].id && !s.tasks[ev.i].cancelled
  {
    if ev.Start? {
      var t := s.tasks[ev.i];
      if t.id in s.ledger { AdmitIssuesNothing(cfg, s, ev.i, s.ledger[t.id]); }
    } else if ev.Resume? {
      AdmitIssuesNothing(cfg, s, ev.i, s.tasks[ev.i].pc.resp);
    } else if ev.Conclude? {
      ConcludeIssuesNothing(cfg, s, ev.i);
    }
  }

  lemma {:induction false} RunHeld(cfg: Config, s: State, run: seq<Event>, i: nat, id: WorkId)
    requires Held(s, i, id) && Legal(cfg, s, run)
    ensures Held(Exec(cfg, s, run), i, id) && (id !in s.issued ==> id !in Exec(cfg, s, run).issued)
    decreases run
  {
    if run != [] {
      var next := Next(cfg, s, run[0]);
      StepHeld(cfg, s, run[0], i, id);
      if id in next.issued && id !in s.issued { StepIssues(cfg, s, run[0], id); }
      RunHeld(cfg, next, run[1..], i, id);
    }
  }

  /**
   * A task cancelled before its request, or while its response is written or waits to be admitted, adds its sample to no
   * record in any later state; and one cancelled before its request never sends it.
   */
  lemma CancelledIsNeverAdmitted(cfg: Config, disk: seq<Entry>, before: seq<Event>, later: seq<Event>, i: nat)
    requires ValidConfig(cfg) && Legal(cfg, Init(cfg, disk), before)
    requires Legal(cfg, Exec(cfg, Init(cfg, disk), before), later) && i < |Exec(cfg, Init(cfg, disk), before).tasks|
    requires var t := Exec(cfg, Init(cfg, disk), before).tasks[i]; t.cancelled && (t.pc.Idle? || t.pc.Saving? || t.pc.Saved?)
    ensures var s := Exec(cfg, Init(cfg, disk), before);
      var v := Exec(cfg, s, later);
      Unlisted(v.pool, s.tasks[i].id) && (s.tasks[i].pc.Idle? ==> s.tasks[i].id !in v.issued)
  {
    var s0, s := Init(cfg, disk), Exec(cfg, Init(cfg, disk), before);
    Outcome.InitReached(cfg, disk);
    Outcome.RunReached(cfg, disk, s0, before);
    Conservation.InitConserved(cfg, disk);
    Conservation.RunConserved(cfg, disk, s0, before);
    NotListedYet(s, s.tasks[i].id, i);
    assert Safety.TaskSafe(s, s.tasks[i]);
    RunHeld(cfg, s, later, i, s.tasks[i].id);
  }

  /** A sample still waiting is in no record. */
  lemma NotListedYet(s: State, id: WorkId, i: nat)
    requires Conservation.Conserved(s) && i < |s.tasks| && s.tasks[i].id == id && Conservation.Waiting(s.tasks[i].pc)
    ensures Unlisted(s.pool, id)
  {
    assert s.tasks[i] in s.tasks;
    forall p, k | 0 <= p < |s.pool| && 0 <= k < |s.pool[p].origins| ensures s.pool[p].origins[k].id != id {
      Conservation.OriginIsAdmitted(s, p, k);
    }
  }

  // ---- nothing else is lost ------------------------------------------------------------------------

  /** Steps that lose a request or a written row. */
  predicate Loses(ev: Event) {
    ev.Drop? || ev.SeatDrop? || ev.LoseWrite? || ev.Leave?
  }

  /** Work is lost only after an abort, or to the stop of its own checkpoint; a response in hand only after an abort. */
  lemma OnlyCancelledWorkIsLost(cfg: Config, disk: seq<Entry>, run: seq<Event>, ev: Event)
    requires ValidConfig(cfg) && Legal(cfg, Init(cfg, disk), run)
    requires Enabled(cfg, Exec(cfg, Init(cfg, disk), run), ev) && Loses(ev)
    ensures var s := Exec(cfg, Init(cfg, disk), run);
      (s.aborting || s.tasks[ev.i].model in s.finalists) && (ev.LoseWrite? ==> s.aborting)
  {
    var s := Exec(cfg, Init(cfg, disk), run);
    Outcome.InitReached(cfg, disk);
    Outcome.RunReached(cfg, disk, Init(cfg, disk), run);
    assert Safety.TaskSafe(s, s.tasks[ev.i]);
  }
}
