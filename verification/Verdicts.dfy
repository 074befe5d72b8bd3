/**
 * How a panel's requests decide its verdict: what each way a seat can settle means for the record, in every later state
 * of the run, and what keeps a record from ever being judged.
 */
module Verdicts {
  import opened Options
  import opened Search
  import opened Durability
  import Launching
  import Outcome
  import Panels
  import Safety

  // ---- one seat ------------------------------------------------------------------------------

  /** The same outcome, saved or not. */
  ghost predicate SameAnswer(x: Seat, y: Seat) {
    x == y || (x.Got? && y.Got? && x.resp == y.resp)
  }

  /** A panel of the record at `at` still holds the outcome, or was interrupted; a dropped request interrupts it. */
  ghost predicate Holds(pc: Pc, at: nat, a: nat, b: nat, seat: Seat) {
    HasPanel(pc) && pc.at == at ==>
      || (pc.Recording? && pc.interrupted)
      || (a < |pc.seats| && b < |pc.seats[a]| && SameAnswer(pc.seats[a][b], seat) && (pc.Recording? ==> !seat.Dropped?))
  }

  /**
   * What a verdict says of one seat: a failed or dropped request leaves none; a parked one leaves the panel incomplete; a
   * response stands with its score in a complete panel, leaves it incomplete without one, and keeps it from acceptance
   * unless the score is 1.
   */
  ghost predicate Tells(cfg: Config, rec: Record, a: nat, b: nat, seat: Seat) {
    rec.verdict.Some? ==>
      && (seat.Got? || seat.Parked?)
      && (rec.verdict.value.complete ==>
           && seat.Got? && cfg.parseVote(seat.resp).Some?
           && a < |rec.scores| && b < |rec.scores[a]| && rec.scores[a][b] == cfg.parseVote(seat.resp))
      && (rec.verdict.value.accepted ==> seat.Got? && cfg.parseVote(seat.resp) == Some(1.0))
  }

  ghost predicate Fate(cfg: Config, s: State, at: nat, a: nat, b: nat, seat: Seat) {
    && InPanel(cfg, a, b) && Settled(seat) && at < |s.pool| && Tells(cfg, s.pool[at], a, b, seat)
    && forall j :: 0 <= j < |s.tasks| ==> Holds(s.tasks[j].pc, at, a, b, seat)
  }

  /** Only one task moved, and the record's verdict did not change. */
  lemma MovedFate(cfg: Config, s: State, s': State, i: nat, at: nat, a: nat, b: nat, seat: Seat)
    requires Fate(cfg, s, at, a, b, seat) && i < |s.tasks| == |s'.tasks| && |s.pool| <= |s'.pool|
    requires s'.pool[at].verdict == s.pool[at].verdict && s'.pool[at].scores == s.pool[at].scores
    requires forall j :: 0 <= j < |s.tasks| && j != i ==> s'.tasks[j].pc == s.tasks[j].pc
    requires Holds(s'.tasks[i].pc, at, a, b, seat)
    ensures Fate(cfg, s', at, a, b, seat)
  {
  }

  /** Admission leaves verdicts alone and opens a panel for a new record only. */
  lemma AdmitSpares(cfg: Config, s: State, i: nat, resp: Response, at: nat)
    requires i < |s.tasks| && at < |s.pool|
    ensures var s' := Admit(cfg, s, i, resp);
      && |s'.tasks| == |s.tasks| && |s.pool| <= |s'.pool|
      && s'.pool[at].verdict == s.pool[at].verdict && s'.pool[at].scores == s.pool[at].scores
      && (forall j :: 0 <= j < |s.tasks| && j != i ==> s'.tasks[j].pc == s.tasks[j].pc)
      && (HasPanel(s'.tasks[i].pc) ==> s'.tasks[i].pc.at != at)
  {
    var t, p := s.tasks[i], cfg.parseProof(resp);
    if t.model !in s.stopped && p.valid {
      match Find(s.pool, p.proof)
      case Some(k) => assert Admit(cfg, s, i, resp).pool == s.pool[k := Merge(s.pool[k], t)];
      case None => assert Admit(cfg, s, i, resp).pool == s.pool + [NewRecord(p, t, s.nextId)];
    }
  }

  lemma AdmitFate(cfg: Config, s: State, i: nat, resp: Response, at: nat, a: nat, b: nat, seat: Seat)
    requires Fate(cfg, s, at, a, b, seat) && i < |s.tasks|
    ensures Fate(cfg, Admit(cfg, s, i, resp), at, a, b, seat)
  {
    AdmitSpares(cfg, s, i, resp, at);
    MovedFate(cfg, s, Admit(cfg, s, i, resp), i, at, a, b, seat);
  }

  lemma SeatFate(cfg: Config, s: State, s': State, i: nat, x: nat, y: nat, was: Seat, now: Seat, at: nat, a: nat, b: nat, seat: Seat)
    requires Fate(cfg, s, at, a, b, seat) && SeatAt(cfg, s, i, x, y, was) && !Settled(was)
    requires s'.pool == s.pool && s'.tasks == SettleSeat(s, i, x, y, now).tasks
    ensures Fate(cfg, s', at, a, b, seat)
  {
    assert Holds(s.tasks[i].pc, at, a, b, seat);
    MovedFate(cfg, s, s', i, at, a, b, seat);
  }

  lemma BeginSeatFate(cfg: Config, s: State, i: nat, x: nat, y: nat, at: nat, a: nat, b: nat, seat: Seat)
    requires Fate(cfg, s, at, a, b, seat) && Enabled(cfg, s, SeatStart(i, x, y))
    ensures Fate(cfg, BeginSeat(cfg, s, i, x, y), at, a, b, seat)
  {
    var s' := BeginSeat(cfg, s, i, x, y);
    SeatFate(cfg, s, s', i, x, y, Unsent, s'.tasks[i].pc.seats[x][y], at, a, b, seat);
  }

  lemma GatherFate(cfg: Config, s: State, i: nat, at: nat, a: nat, b: nat, seat: Seat)
    requires Fate(cfg, s, at, a, b, seat) && Enabled(cfg, s, Gather(i))
    ensures Fate(cfg, Gathered(s, i), at, a, b, seat)
  {
    assert Holds(s.tasks[i].pc, at, a, b, seat);
    MovedFate(cfg, s, Gathered(s, i), i, at, a, b, seat);
  }

  lemma WriteVoteFate(cfg: Config, s: State, i: nat, x: nat, y: nat, at: nat, a: nat, b: nat, seat: Seat)
    requires Fate(cfg, s, at, a, b, seat) && Enabled(cfg, s, WriteVote(i, x, y))
    ensures Fate(cfg, Next(cfg, s, WriteVote(i, x, y)), at, a, b, seat)
  {
    assert Holds(s.tasks[i].pc, at, a, b, seat);
    MovedFate(cfg, s, Next(cfg, s, WriteVote(i, x, y)), i, at, a, b, seat);
  }

  /** The verdict a panel reaches tells the seat it held. */
  lemma JudgedTells(cfg: Config, rec: Record, seats: seq<seq<Seat>>, a: nat, b: nat, seat: Seat)
    requires Shaped(cfg, seats) && |cfg.verifiers| > 0 && cfg.judgments > 0 && InPanel(cfg, a, b)
    requires SameAnswer(seats[a][b], seat) && (seat.Got? || seat.Parked?)
    ensures Tells(cfg, Judged(cfg, rec, seats), a, b, seat)
    ensures Tells(cfg, Judged(cfg, rec, seats).(accepted := true), a, b, seat)
  {
    Panels.JudgedMeaning(cfg, rec, seats);
    Panels.RowsMeaning(cfg, seats);
    var r := Judged(cfg, rec, seats);
    if r.verdict.value.complete { assert Panels.Scored(cfg, seats[a][b]); }
    if r.verdict.value.accepted { assert Panels.Votes(cfg, seats[a][b], 1.0); }
  }

  lemma SettleMovesOne(s: State, i: nat, rec: Record)
    requires i < |s.tasks| && s.tasks[i].pc.Recording? && s.tasks[i].pc.at < |s.pool| && rec.verdict.Some?
    ensures var s' := Settle(s, i, rec);
      && |s'.tasks| == |s.tasks| && s'.tasks[i].pc == Done && (forall j :: 0 <= j < |s.tasks| && j != i ==> s'.tasks[j].pc == s.tasks[j].pc)
      && s'.pool == s.pool[s.tasks[i].pc.at := s'.pool[s.tasks[i].pc.at]]
      && (s'.pool[s.tasks[i].pc.at] == rec || s'.pool[s.tasks[i].pc.at] == rec.(accepted := true))
  {
  }

  lemma SettleFate(cfg: Config, s: State, i: nat, rec: Record, at: nat, a: nat, b: nat, seat: Seat)
    requires Fate(cfg, s, at, a, b, seat) && i < |s.tasks| && s.tasks[i].pc.Recording? && s.tasks[i].pc.at < |s.pool| && rec.verdict.Some?
    requires s.tasks[i].pc.at == at ==> Tells(cfg, rec, a, b, seat) && Tells(cfg, rec.(accepted := true), a, b, seat)
    ensures Fate(cfg, Settle(s, i, rec), at, a, b, seat)
  {
    SettleMovesOne(s, i, rec);
    var s' := Settle(s, i, rec);
    forall j | 0 <= j < |s'.tasks| ensures Holds(s'.tasks[j].pc, at, a, b, seat) {
      assert Holds(s.tasks[j].pc, at, a, b, seat);
    }
  }

  lemma ConcludeFate(cfg: Config, s: State, i: nat, at: nat, a: nat, b: nat, seat: Seat)
    requires Fate(cfg, s, at, a, b, seat) && Enabled(cfg, s, Conclude(i))
    ensures Fate(cfg, Conclusion(cfg, s, i), at, a, b, seat)
  {
    var pc := s.tasks[i].pc;
    assert Holds(pc, at, a, b, seat);
    assert pc.at == at && seat.Fatal? ==> pc.interrupted || SomeSeat(pc.seats, Seat.Fatal);
    if SomeSeat(pc.seats, Seat.Fatal) || pc.interrupted {
      MovedFate(cfg, s, Conclusion(cfg, s, i), i, at, a, b, seat);
    } else {
      if pc.at == at {
        JudgedTells(cfg, s.pool[at], pc.seats, a, b, seat);
      }
      SettleFate(cfg, s, i, Judged(cfg, s.pool[pc.at], pc.seats), at, a, b, seat);
    }
  }

  lemma FlaggedFate(cfg: Config, s: State, s': State, at: nat, a: nat, b: nat, seat: Seat)
    requires Fate(cfg, s, at, a, b, seat) && s'.pool == s.pool
    requires forall j :: 0 <= j < |s'.tasks| ==> s'.tasks[j].pc == Idle || (j < |s.tasks| && s'.tasks[j].pc == s.tasks[j].pc)
    ensures Fate(cfg, s', at, a, b, seat)
  {
  }

  lemma RoundFate(cfg: Config, s: State, at: nat, a: nat, b: nat, seat: Seat)
    requires ValidConfig(cfg) && Fate(cfg, s, at, a, b, seat) && Enabled(cfg, s, NextRound)
    ensures Fate(cfg, Next(cfg, s, NextRound), at, a, b, seat)
  {
    var s' := Next(cfg, s, NextRound);
    Launching.NextTasks(cfg, s);
    FlaggedFate(cfg, s, s', at, a, b, seat);
  }

  lemma SeatStepFate(cfg: Config, s: State, ev: Event, at: nat, a: nat, b: nat, seat: Seat)
    requires Fate(cfg, s, at, a, b, seat) && Enabled(cfg, s, ev)
    requires ev.SeatStart? || ev.SeatDeliver? || ev.SeatPark? || ev.SeatFail? || ev.SeatDrop?
    ensures Fate(cfg, Next(cfg, s, ev), at, a, b, seat)
  {
    match ev
    case SeatStart(i, x, y) => BeginSeatFate(cfg, s, i, x, y, at, a, b, seat);
    case SeatDeliver(i, x, y, resp) => SeatFate(cfg, s, Next(cfg, s, ev), i, x, y, Sent, Got(resp, true), at, a, b, seat);
    case SeatPark(i, x, y) => SeatFate(cfg, s, Next(cfg, s, ev), i, x, y, Sent, Parked, at, a, b, seat);
    case SeatFail(i, x, y) => SeatFate(cfg, s, Next(cfg, s, ev), i, x, y, Sent, Seat.Fatal, at, a, b, seat);
    case SeatDrop(i, x, y) => SeatFate(cfg, s, Next(cfg, s, ev), i, x, y, s.tasks[i].pc.seats[x][y], Dropped, at, a, b, seat);
  }

  lemma PlainFate(cfg: Config, s: State, ev: Event, at: nat, a: nat, b: nat, seat: Seat)
    requires Fate(cfg, s, at, a, b, seat) && Enabled(cfg, s, ev)
    requires ev.Deliver? || ev.Park? || ev.Fail? || ev.Drop? || ev.Write? || ev.LoseWrite? || ev.Leave?
    ensures Fate(cfg, Next(cfg, s, ev), at, a, b, seat)
  {
    MovedFate(cfg, s, Next(cfg, s, ev), ev.i, at, a, b, seat);
  }

  lemma AbortFate(cfg: Config, s: State, at: nat, a: nat, b: nat, seat: Seat)
    requires Fate(cfg, s, at, a, b, seat)
    ensures Fate(cfg, Next(cfg, s, Abort), at, a, b, seat)
  {
    FlaggedFate(cfg, s, Next(cfg, s, Abort), at, a, b, seat);
  }

  lemma StepFate(cfg: Config, s: State, ev: Event, at: nat, a: nat, b: nat, seat: Seat)
    requires ValidConfig(cfg) && Fate(cfg, s, at, a, b, seat) && Enabled(cfg, s, ev)
    ensures Fate(cfg, Next(cfg, s, ev), at, a, b, seat)
  {
    if ev.Start? {
      BeginFate(cfg, s, ev.i, at, a, b, seat);
    } else if ev.Resume? {
      ResumeFate(cfg, s, ev.i, at, a, b, seat);
    } else if ev.Gather? {
      GatherFate(cfg, s, ev.i, at, a, b, seat);
    } else if ev.WriteVote? {
      WriteVoteFate(cfg, s, ev.i, ev.a, ev.b, at, a, b, seat);
    } else if ev.Conclude? {
      ConcludeFate(cfg, s, ev.i, at, a, b, seat);
    } else if ev.NextRound? {
      RoundFate(cfg, s, at, a, b, seat);
    } else if ev.Abort? {
      AbortFate(cfg, s, at, a, b, seat);
    } else if ev.Deliver? || ev.Park? || ev.Fail? || ev.Drop? || ev.Write? || ev.LoseWrite? || ev.Leave? {
      PlainFate(cfg, s, ev, at, a, b, seat);
    } else {
      SeatStepFate(cfg, s, ev, at, a, b, seat);
    }
  }

  lemma BeginFate(cfg: Config, s: State, i: nat, at: nat, a: nat, b: nat, seat: Seat)
    requires Fate(cfg, s, at, a, b, seat) && Enabled(cfg, s, Start(i))
    ensures Fate(cfg, Begin(cfg, s, i), at, a, b, seat)
  {
    var t := s.tasks[i];
    if !t.cancelled && t.model !in s.stopped && t.id in s.ledger {
      AdmitFate(cfg, s, i, s.ledger[t.id], at, a, b, seat);
    } else {
      MovedFate(cfg, s, Begin(cfg, s, i), i, at, a, b, seat);
    }
  }

  lemma ResumeFate(cfg: Config, s: State, i: nat, at: nat, a: nat, b: nat, seat: Seat)
    requires Fate(cfg, s, at, a, b, seat) && Enabled(cfg, s, Resume(i))
    ensures Fate(cfg, Next(cfg, s, Resume(i)), at, a, b, seat)
  {
    if s.tasks[i].cancelled {
      MovedFate(cfg, s, SetPc(s, i, Done), i, at, a, b, seat);
    } else {
      AdmitFate(cfg, s, i, s.tasks[i].pc.resp, at, a, b, seat);
    }
  }

  lemma {:induction false} RunFate(cfg: Config, s: State, run: seq<Event>, at: nat, a: nat, b: nat, seat: Seat)
    requires ValidConfig(cfg) && Fate(cfg, s, at, a, b, seat) && Legal(cfg, s, run)
    ensures Fate(cfg, Exec(cfg, s, run), at, a, b, seat)
    decreases run
  {
    if run != [] {
      StepFate(cfg, s, run[0], at, a, b, seat);
      RunFate(cfg, Next(cfg, s, run[0]), run[1..], at, a, b, seat);
    }
  }

  // ---- the steps that settle a seat ---------------------------------------------------------------

  /** How the step settles its seat, if it does. */
  ghost predicate Settles(cfg: Config, s: State, ev: Event, seat: Seat)
    requires Enabled(cfg, s, ev)
  {
    match ev
    case SeatDeliver(_, _, _, resp) => seat == Got(resp, true)
    case SeatPark(_, _, _) => seat == Parked
    case SeatFail(_, _, _) => seat == Seat.Fatal
    case SeatDrop(_, _, _) => seat == Dropped
    case SeatStart(i, a, b) =>
      var rec := s.pool[s.tasks[i].pc.at];
      var id := Vote(rec.round, rec.proof, cfg.verifiers[a], b);
      id in s.ledger && seat == Got(s.ledger[id], false)
    case _ => false
  }

  /**
   * A panel request that is answered, from the ledger or fresh, or that parks, fails or is dropped, decides the same for
   * its record in every later state of the run, through gathering, writing and further rounds: no verdict after a failed
   * or dropped request, no complete one after a parked request or a response without score, no acceptance unless the score
   * is 1, and in a complete verdict the response's score at the seat.
   */
  lemma SeatsDecide(cfg: Config, disk: seq<Entry>, before: seq<Event>, ev: Event, seat: Seat, later: seq<Event>)
    requires ValidConfig(cfg) && Legal(cfg, Init(cfg, disk), before)
    requires Enabled(cfg, Exec(cfg, Init(cfg, disk), before), ev) && Settles(cfg, Exec(cfg, Init(cfg, disk), before), ev, seat)
    requires Legal(cfg, Next(cfg, Exec(cfg, Init(cfg, disk), before), ev), later)
    ensures var s := Exec(cfg, Init(cfg, disk), before);
      var v := Exec(cfg, Next(cfg, s, ev), later);
      s.tasks[ev.i].pc.at < |v.pool| && Tells(cfg, v.pool[s.tasks[ev.i].pc.at], ev.a, ev.b, seat)
  {
    var s := Exec(cfg, Init(cfg, disk), before);
    Outcome.InitReached(cfg, disk);
    Outcome.RunReached(cfg, disk, Init(cfg, disk), before);
    SettledFate(cfg, s, ev, seat);
    RunFate(cfg, Next(cfg, s, ev), later, s.tasks[ev.i].pc.at, ev.a, ev.b, seat);
  }

  /** The step moved only its own seat. */
  lemma SettlesOne(cfg: Config, s: State, ev: Event, seat: Seat) returns (was: Seat)
    requires Enabled(cfg, s, ev) && Settles(cfg, s, ev, seat)
    ensures SeatAt(cfg, s, ev.i, ev.a, ev.b, was) && Settled(seat)
    ensures Next(cfg, s, ev).pool == s.pool && Next(cfg, s, ev).tasks == SettleSeat(s, ev.i, ev.a, ev.b, seat).tasks
  {
    was := s.tasks[ev.i].pc.seats[ev.a][ev.b];
  }

  lemma SettledFate(cfg: Config, s: State, ev: Event, seat: Seat)
    requires Safety.Sound(cfg, s) && Enabled(cfg, s, ev) && Settles(cfg, s, ev, seat)
    ensures Fate(cfg, Next(cfg, s, ev), s.tasks[ev.i].pc.at, ev.a, ev.b, seat)
  {
    var was := SettlesOne(cfg, s, ev, seat);
    OwnPanelFate(cfg, s, Next(cfg, s, ev), ev.i, ev.a, ev.b, was, seat);
  }

  lemma OwnPanelFate(cfg: Config, s: State, s': State, i: nat, a: nat, b: nat, was: Seat, seat: Seat)
    requires Safety.Sound(cfg, s) && SeatAt(cfg, s, i, a, b, was) && Settled(seat)
    requires s'.pool == s.pool && s'.tasks == SettleSeat(s, i, a, b, seat).tasks
    ensures Fate(cfg, s', s.tasks[i].pc.at, a, b, seat)
  {
    var at := s.tasks[i].pc.at;
    assert Safety.TaskSafe(s, s.tasks[i]);
    forall j | 0 <= j < |s'.tasks| ensures Holds(s'.tasks[j].pc, at, a, b, seat) {
      if j != i && HasPanel(s.tasks[j].pc) { assert s.tasks[j].pc.at != at; }
    }
  }

  // ---- and nothing else ---------------------------------------------------------------------------------

  /** No request of a panel failed for good or was dropped, and no panel was cancelled at its gather. */
  ghost predicate Undisturbed(cfg: Config, s: State, run: seq<Event>)
    requires Legal(cfg, s, run)
    decreases run
  {
    run == [] || (!run[0].SeatFail? && !run[0].SeatDrop? && !(run[0].Gather? && s.tasks[run[0].i].cancelled) &&
                  Undisturbed(cfg, Next(cfg, s, run[0]), run[1..]))
  }

  ghost predicate Whole(seats: seq<seq<Seat>>) {
    forall a, b :: 0 <= a < |seats| && 0 <= b < |seats[a]| ==> !seats[a][b].Fatal? && !seats[a][b].Dropped?
  }

  ghost predicate Clean(s: State) {
    forall j :: 0 <= j < |s.tasks| && HasPanel(s.tasks[j].pc) ==>
      Whole(s.tasks[j].pc.seats) && (s.tasks[j].pc.Recording? ==> !s.tasks[j].pc.interrupted)
  }

  lemma MovedClean(s: State, s': State, i: nat)
    requires Clean(s) && i < |s.tasks| == |s'.tasks| && forall j :: 0 <= j < |s.tasks| && j != i ==> s'.tasks[j].pc == s.tasks[j].pc
    requires HasPanel(s'.tasks[i].pc) ==> Whole(s'.tasks[i].pc.seats) && (s'.tasks[i].pc.Recording? ==> !s'.tasks[i].pc.interrupted)
    ensures Clean(s')
  {
  }

  lemma AdmitClean(cfg: Config, s: State, i: nat, resp: Response)
    requires Clean(s) && i < |s.tasks|
    ensures Clean(Admit(cfg, s, i, resp))
  {
    MovedClean(s, Admit(cfg, s, i, resp), i);
  }

  lemma SampleClean(cfg: Config, s: State, ev: Event)
    requires Clean(s) && Enabled(cfg, s, ev) && (ev.Start? || ev.Resume?)
    ensures Clean(Next(cfg, s, ev))
  {
    if ev.Resume? {
      AdmitClean(cfg, s, ev.i, s.tasks[ev.i].pc.resp);
    } else if s.tasks[ev.i].id in s.ledger {
      AdmitClean(cfg, s, ev.i, s.ledger[s.tasks[ev.i].id]);
    }
  }

  lemma PanelClean(cfg: Config, s: State, ev: Event)
    requires Clean(s) && Enabled(cfg, s, ev) && (ev.SeatStart? || ev.SeatDeliver? || ev.SeatPark? || ev.WriteVote?)
    ensures Clean(Next(cfg, s, ev))
  {
    assert Whole(s.tasks[ev.i].pc.seats);
    if ev.SeatStart? {
      BeginSeatClean(cfg, s, ev.i, ev.a, ev.b);
    } else {
      MovedClean(s, Next(cfg, s, ev), ev.i);
    }
  }

  lemma BeginSeatClean(cfg: Config, s: State, i: nat, a: nat, b: nat)
    requires Clean(s) && Enabled(cfg, s, SeatStart(i, a, b))
    ensures Clean(BeginSeat(cfg, s, i, a, b))
  {
    assert Whole(s.tasks[i].pc.seats);
    MovedClean(s, BeginSeat(cfg, s, i, a, b), i);
  }

  lemma GatherClean(cfg: Config, s: State, i: nat)
    requires Clean(s) && Enabled(cfg, s, Gather(i)) && !s.tasks[i].cancelled
    ensures Clean(Next(cfg, s, Gather(i)))
  {
    assert Whole(s.tasks[i].pc.seats) && !SomeSeat(s.tasks[i].pc.seats, Dropped);
    MovedClean(s, Next(cfg, s, Gather(i)), i);
  }

  lemma AllTasksClean(cfg: Config, s: State, ev: Event)
    requires ValidConfig(cfg) && Clean(s) && Enabled(cfg, s, ev) && (ev.NextRound? || ev.Abort?)
    ensures Clean(Next(cfg, s, ev))
  {
    var s' := Next(cfg, s, ev);
    if ev.NextRound? {
      Launching.NextTasks(cfg, s);
    } else {
      assert forall j :: 0 <= j < |s'.tasks| ==> s'.tasks[j].pc == s.tasks[j].pc;
    }
  }

  lemma StepClean(cfg: Config, s: State, ev: Event)
    requires ValidConfig(cfg) && Clean(s) && Enabled(cfg, s, ev)
    requires !ev.SeatFail? && !ev.SeatDrop? && !(ev.Gather? && s.tasks[ev.i].cancelled)
    ensures Clean(Next(cfg, s, ev))
  {
    if ev.Start? || ev.Resume? {
      SampleClean(cfg, s, ev);
    } else if ev.Conclude? {
      ConcludeClean(cfg, s, ev.i);
    } else if ev.NextRound? || ev.Abort? {
      AllTasksClean(cfg, s, ev);
    } else if ev.Gather? {
      GatherClean(cfg, s, ev.i);
    } else if ev.Deliver? || ev.Park? || ev.Fail? || ev.Drop? || ev.Write? || ev.LoseWrite? || ev.Leave? {
      MovedClean(s, Next(cfg, s, ev), ev.i);
    } else {
      PanelClean(cfg, s, ev);
    }
  }

  lemma ConcludeClean(cfg: Config, s: State, i: nat)
    requires Clean(s) && Enabled(cfg, s, Conclude(i))
    ensures Clean(Next(cfg, s, Conclude(i)))
    ensures Next(cfg, s, Conclude(i)).pool[s.tasks[i].pc.at].verdict.Some? && Next(cfg, s, Conclude(i)).failed == s.failed
  {
    assert Whole(s.tasks[i].pc.seats) && !SomeSeat(s.tasks[i].pc.seats, Seat.Fatal);
    SettleMovesOne(s, i, Judged(cfg, s.pool[s.tasks[i].pc.at], s.tasks[i].pc.seats));
    MovedClean(s, Next(cfg, s, Conclude(i)), i);
  }

  lemma {:induction false} RunClean(cfg: Config, s: State, run: seq<Event>)
    requires ValidConfig(cfg) && Clean(s) && Legal(cfg, s, run) && Undisturbed(cfg, s, run)
    ensures Clean(Exec(cfg, s, run))
    decreases run
  {
    if run != [] {
      StepClean(cfg, s, run[0]);
      RunClean(cfg, Next(cfg, s, run[0]), run[1..]);
    }
  }

  /** In a run without such a disturbance every panel that concludes gives its record a verdict, and none fails the launch. */
  lemma UndisturbedPanelsAreJudged(cfg: Config, disk: seq<Entry>, run: seq<Event>, i: nat)
    requires ValidConfig(cfg) && Legal(cfg, Init(cfg, disk), run) && Undisturbed(cfg, Init(cfg, disk), run)
    requires Enabled(cfg, Exec(cfg, Init(cfg, disk), run), Conclude(i))
    ensures var s := Exec(cfg, Init(cfg, disk), run);
      Next(cfg, s, Conclude(i)).pool[s.tasks[i].pc.at].verdict.Some? && Next(cfg, s, Conclude(i)).failed == s.failed
  {
    var s := Init(cfg, disk);
    Launching.Round1TasksFacts(cfg.prompts, cfg.checkpoints, 0);
    forall j | 0 <= j < |s.tasks| ensures s.tasks[j].pc == Idle {
      assert s.tasks[j] in s.tasks && Launching.GenerationTask(s.tasks[j], cfg.prompts, cfg.checkpoints);
    }
    RunClean(cfg, s, run);
    ConcludeClean(cfg, Exec(cfg, s, run), i);
  }
}
