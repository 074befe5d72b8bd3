/** What every panel keeps while it is gathered and written: no verdict without every seat, and votes on disk in panel order. */
module PanelRules {
  import opened Options
  import opened Search
  import opened Durability
  import opened Steps
  import Launching
  import Outcome
  import Safety
  import Verdicts

  // ---- the invariant ------------------------------------------------------------

  /**
   * Once gathered, every seat has settled, and a dropped one has interrupted the panel. A response counts as saved when
   * the launch found its row, or once every response before it in the panel is saved too.
   */
  ghost predicate SeatSo(cfg: Config, s: State, pc: Pc, a: nat, b: nat)
    requires HasPanel(pc) && pc.at < |s.pool| && Shaped(cfg, pc.seats) && InPanel(cfg, a, b)
  {
    var seat := pc.seats[a][b];
    && (pc.Recording? ==> Settled(seat) && (seat.Dropped? ==> pc.interrupted))
    && (seat.Got? && !seat.unsaved ==> VoteId(cfg, s.pool[pc.at], a, b) in s.ledger || (pc.Recording? && EarlierSaved(pc.seats, a, b)))
  }

  ghost predicate PanelSo(cfg: Config, s: State, pc: Pc) {
    HasPanel(pc) ==> pc.at < |s.pool| && Shaped(cfg, pc.seats) && forall a: nat, b: nat :: InPanel(cfg, a, b) ==> SeatSo(cfg, s, pc, a, b)
  }

  ghost predicate Kept(cfg: Config, s: State) {
    forall j :: 0 <= j < |s.tasks| ==> PanelSo(cfg, s, s.tasks[j].pc)
  }

  lemma SamePanel(cfg: Config, s: State, s': State, pc: Pc)
    requires PanelSo(cfg, s, pc) && s'.ledger == s.ledger && Extends(s.pool, s'.pool)
    ensures PanelSo(cfg, s', pc)
  {
    if HasPanel(pc) {
      forall a: nat, b: nat | InPanel(cfg, a, b) ensures SeatSo(cfg, s', pc, a, b) {
        assert SeatSo(cfg, s, pc, a, b) && VoteId(cfg, s'.pool[pc.at], a, b) == VoteId(cfg, s.pool[pc.at], a, b);
      }
    }
  }

  lemma MovedKept(cfg: Config, s: State, s': State, i: nat)
    requires Kept(cfg, s) && Moved(s, s', i) && PanelSo(cfg, s', s'.tasks[i].pc)
    ensures Kept(cfg, s')
  {
    forall j | 0 <= j < |s'.tasks| ensures PanelSo(cfg, s', s'.tasks[j].pc) {
      if j != i { SamePanel(cfg, s, s', s.tasks[j].pc); }
    }
  }

  // ---- the steps of a panel -----------------------------------------------------------

  lemma SeatKept(cfg: Config, s: State, s': State, i: nat, a: nat, b: nat, was: Seat, seat: Seat)
    requires Kept(cfg, s) && SeatAt(cfg, s, i, a, b, was)
    requires s'.pool == s.pool && s'.ledger == s.ledger && s'.tasks == SettleSeat(s, i, a, b, seat).tasks
    requires seat.Got? && !seat.unsaved ==> VoteId(cfg, s.pool[s.tasks[i].pc.at], a, b) in s.ledger
    ensures PanelSo(cfg, s', s'.tasks[i].pc)
  {
    var pc := s'.tasks[i].pc;
    forall x: nat, y: nat | InPanel(cfg, x, y) ensures SeatSo(cfg, s', pc, x, y) {
      assert SeatSo(cfg, s, s.tasks[i].pc, x, y);
    }
  }

  lemma BeginSeatKept(cfg: Config, s: State, i: nat, a: nat, b: nat)
    requires Kept(cfg, s) && Enabled(cfg, s, SeatStart(i, a, b))
    ensures PanelSo(cfg, BeginSeat(cfg, s, i, a, b), BeginSeat(cfg, s, i, a, b).tasks[i].pc)
  {
    var s' := BeginSeat(cfg, s, i, a, b);
    SeatKept(cfg, s, s', i, a, b, Unsent, s'.tasks[i].pc.seats[a][b]);
  }

  lemma GatherKept(cfg: Config, s: State, i: nat)
    requires Kept(cfg, s) && Enabled(cfg, s, Gather(i))
    ensures PanelSo(cfg, Gathered(s, i), Gathered(s, i).tasks[i].pc)
  {
    var was, pc := s.tasks[i].pc, Gathered(s, i).tasks[i].pc;
    assert PanelSo(cfg, s, was);
    forall a: nat, b: nat | InPanel(cfg, a, b) ensures SeatSo(cfg, Gathered(s, i), pc, a, b) {
      assert SeatSo(cfg, s, was, a, b);
      assert Settled(was.seats[a][b]);
    }
  }

  lemma WriteVoteKept(cfg: Config, s: State, i: nat, a: nat, b: nat)
    requires Kept(cfg, s) && Enabled(cfg, s, WriteVote(i, a, b))
    ensures PanelSo(cfg, Next(cfg, s, WriteVote(i, a, b)), Next(cfg, s, WriteVote(i, a, b)).tasks[i].pc)
  {
    var s' := Next(cfg, s, WriteVote(i, a, b));
    var was, pc := s.tasks[i].pc, s'.tasks[i].pc;
    forall x: nat, y: nat | InPanel(cfg, x, y) ensures SeatSo(cfg, s', pc, x, y) {
      assert SeatSo(cfg, s, was, x, y);
      if x == a && y == b { assert EarlierSaved(pc.seats, a, b); }
    }
  }

  lemma PanelStepKept(cfg: Config, s: State, ev: Event)
    requires Kept(cfg, s) && Enabled(cfg, s, ev)
    requires ev.SeatStart? || ev.SeatDeliver? || ev.SeatPark? || ev.SeatFail? || ev.SeatDrop? || ev.Gather? || ev.WriteVote?
    ensures PanelSo(cfg, Next(cfg, s, ev), Next(cfg, s, ev).tasks[ev.i].pc)
  {
    match ev
    case SeatStart(i, a, b) => BeginSeatKept(cfg, s, i, a, b);
    case SeatDeliver(i, a, b, resp) => SeatKept(cfg, s, Next(cfg, s, ev), i, a, b, Sent, Got(resp, true));
    case SeatPark(i, a, b) => SeatKept(cfg, s, Next(cfg, s, ev), i, a, b, Sent, Parked);
    case SeatFail(i, a, b) => SeatKept(cfg, s, Next(cfg, s, ev), i, a, b, Sent, Fatal);
    case SeatDrop(i, a, b) => SeatKept(cfg, s, Next(cfg, s, ev), i, a, b, s.tasks[i].pc.seats[a][b], Dropped);
    case Gather(i) => GatherKept(cfg, s, i);
    case WriteVote(i, a, b) => WriteVoteKept(cfg, s, i, a, b);
  }

  // ---- the other steps ------------------------------------------------------------------

  lemma AdmitKept(cfg: Config, s: State, i: nat, resp: Response)
    requires i < |s.tasks|
    ensures PanelSo(cfg, Admit(cfg, s, i, resp), Admit(cfg, s, i, resp).tasks[i].pc)
  {
  }

  lemma SampleKept(cfg: Config, s: State, ev: Event)
    requires Enabled(cfg, s, ev) && (ev.Start? || ev.Resume?)
    ensures PanelSo(cfg, Next(cfg, s, ev), Next(cfg, s, ev).tasks[ev.i].pc)
  {
    if ev.Resume? {
      AdmitKept(cfg, s, ev.i, s.tasks[ev.i].pc.resp);
    } else if s.tasks[ev.i].id in s.ledger {
      AdmitKept(cfg, s, ev.i, s.ledger[s.tasks[ev.i].id]);
    }
  }

  lemma PlainKept(cfg: Config, s: State, ev: Event)
    requires Enabled(cfg, s, ev)
    requires ev.Deliver? || ev.Park? || ev.Fail? || ev.Drop? || ev.Write? || ev.LoseWrite? || ev.Leave?
    ensures !HasPanel(Next(cfg, s, ev).tasks[ev.i].pc)
  {
  }

  lemma ConcludeKept(cfg: Config, s: State, i: nat)
    requires Enabled(cfg, s, Conclude(i))
    ensures Conclusion(cfg, s, i).tasks[i].pc == Done
  {
    var pc := s.tasks[i].pc;
    if !SomeSeat(pc.seats, Fatal) && !pc.interrupted {
      Verdicts.SettleMovesOne(s, i, Judged(cfg, s.pool[pc.at], pc.seats));
    }
  }

  lemma AbortKept(cfg: Config, s: State)
    requires Kept(cfg, s)
    ensures Kept(cfg, Next(cfg, s, Abort))
  {
    var s' := Next(cfg, s, Abort);
    forall j | 0 <= j < |s'.tasks| ensures PanelSo(cfg, s', s'.tasks[j].pc) {
      SamePanel(cfg, s, s', s.tasks[j].pc);
    }
  }

  lemma StepKept(cfg: Config, s: State, ev: Event)
    requires ValidConfig(cfg) && Kept(cfg, s) && Enabled(cfg, s, ev)
    ensures Kept(cfg, Next(cfg, s, ev))
  {
    if ev.NextRound? {
      Launching.NextTasks(cfg, s);
    } else if ev.Abort? {
      AbortKept(cfg, s);
    } else {
      TaskStep(cfg, s, ev);
      if ev.Start? || ev.Resume? {
        SampleKept(cfg, s, ev);
      } else if ev.Conclude? {
        ConcludeKept(cfg, s, ev.i);
      } else if ev.Deliver? || ev.Park? || ev.Fail? || ev.Drop? || ev.Write? || ev.LoseWrite? || ev.Leave? {
        PlainKept(cfg, s, ev);
      } else {
        PanelStepKept(cfg, s, ev);
      }
      MovedKept(cfg, s, Next(cfg, s, ev), ev.i);
    }
  }

  lemma {:induction false} RunKept(cfg: Config, s: State, run: seq<Event>)
    requires ValidConfig(cfg) && Kept(cfg, s) && Legal(cfg, s, run)
    ensures Kept(cfg, Exec(cfg, s, run))
    decreases run
  {
    if run != [] {
      StepKept(cfg, s, run[0]);
      RunKept(cfg, Next(cfg, s, run[0]), run[1..]);
    }
  }

  lemma InitKept(cfg: Config, disk: seq<Entry>)
    requires ValidConfig(cfg)
    ensures Kept(cfg, Init(cfg, disk))
  {
    var s := Init(cfg, disk);
    Launching.Round1TasksFacts(cfg.prompts, cfg.checkpoints, 0);
    forall j | 0 <= j < |s.tasks| ensures s.tasks[j].pc == Idle {
      assert s.tasks[j] in s.tasks && Launching.GenerationTask(s.tasks[j], cfg.prompts, cfg.checkpoints);
    }
  }

  // ---- what follows -------------------------------------------------------------------------

  /**
   * While a panel is written, a response that the launch did not find on disk is there only when every response before
   * it in the panel is: a crash leaves a beginning of the panel.
   */
  lemma VotesAreWrittenInOrder(cfg: Config, disk: seq<Entry>, run: seq<Event>, i: nat, a: nat, b: nat)
    requires ValidConfig(cfg) && Legal(cfg, Init(cfg, disk), run) && InPanel(cfg, a, b)
    requires var s := Exec(cfg, Init(cfg, disk), run); i < |s.tasks| && s.tasks[i].pc.Recording?
    ensures var s := Exec(cfg, Init(cfg, disk), run);
      var pc := s.tasks[i].pc;
      && pc.at < |s.pool| && Shaped(cfg, pc.seats)
      && (pc.seats[a][b].Got? && !pc.seats[a][b].unsaved && VoteId(cfg, s.pool[pc.at], a, b) !in s.ledger ==>
            forall x: nat, y: nat :: InPanel(cfg, x, y) && (x < a || (x == a && y < b)) && pc.seats[x][y].Got? ==> !pc.seats[x][y].unsaved)
  {
    var s := Exec(cfg, Init(cfg, disk), run);
    InitKept(cfg, disk);
    RunKept(cfg, Init(cfg, disk), run);
    assert PanelSo(cfg, s, s.tasks[i].pc) && SeatSo(cfg, s, s.tasks[i].pc, a, b);
  }

  /** A verdict is given only to a panel in which every request was answered or parked, with no seat outstanding. */
  lemma VerdictNeedsEverySeat(cfg: Config, disk: seq<Entry>, run: seq<Event>, i: nat)
    requires ValidConfig(cfg) && Legal(cfg, Init(cfg, disk), run)
    requires Enabled(cfg, Exec(cfg, Init(cfg, disk), run), Conclude(i))
    requires var s := Exec(cfg, Init(cfg, disk), run); Next(cfg, s, Conclude(i)).pool[s.tasks[i].pc.at].verdict.Some?
    ensures var s := Exec(cfg, Init(cfg, disk), run);
      forall a: nat, b: nat :: InPanel(cfg, a, b) ==> s.tasks[i].pc.seats[a][b].Got? || s.tasks[i].pc.seats[a][b].Parked?
  {
    var s := Exec(cfg, Init(cfg, disk), run);
    InitKept(cfg, disk);
    RunKept(cfg, Init(cfg, disk), run);
    Outcome.InitReached(cfg, disk);
    Outcome.RunReached(cfg, disk, Init(cfg, disk), run);
    assert Safety.TaskSafe(s, s.tasks[i]) && PanelSo(cfg, s, s.tasks[i].pc);
    VerdictMeansWhole(cfg, s, i);
    forall a: nat, b: nat | InPanel(cfg, a, b) ensures s.tasks[i].pc.seats[a][b].Got? || s.tasks[i].pc.seats[a][b].Parked? {
      assert SeatSo(cfg, s, s.tasks[i].pc, a, b);
    }
  }

  lemma VerdictMeansWhole(cfg: Config, s: State, i: nat)
    requires Enabled(cfg, s, Conclude(i)) && s.pool[s.tasks[i].pc.at].verdict.None?
    requires Next(cfg, s, Conclude(i)).pool[s.tasks[i].pc.at].verdict.Some?
    ensures !s.tasks[i].pc.interrupted
    ensures forall a: nat, b: nat :: InPanel(cfg, a, b) ==> !s.tasks[i].pc.seats[a][b].Fatal?
  {
    assert !SomeSeat(s.tasks[i].pc.seats, Fatal);
  }
}
