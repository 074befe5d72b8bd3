/** Every schedule of a launch comes to an end, and none gets stuck before its tasks are done. */
module Termination {
  import opened Options
  import opened Search
  import opened Durability
  import Launching
  import Outcome
  import Scoring

  // ---- work left --------------------------------------------------------------------

  function SeatWork(seat: Seat): nat {
    match seat
    case Unsent => 2
    case Sent => 1
    case _ => 0
  }

  function UnsavedSeat(seat: Seat): nat {
    if seat.Got? && seat.unsaved then 1 else 0
  }

  function SumRow(f: Seat -> nat, row: seq<Seat>): nat {
    if row == [] then 0 else SumRow(f, row[..|row| - 1]) + f(row[|row| - 1])
  }

  function SumSeats(f: Seat -> nat, seats: seq<seq<Seat>>): nat {
    if seats == [] then 0 else SumSeats(f, seats[..|seats| - 1]) + SumRow(f, seats[|seats| - 1])
  }

  /** `n` times `each`, added up. */
  function Total(n: nat, each: nat): nat {
    if n == 0 then 0 else Total(n - 1, each) + each
  }

  function PanelSize(cfg: Config): nat {
    Total(|cfg.verifiers|, cfg.judgments)
  }

  /** The most steps a task can still take. */
  function TaskWork(cfg: Config, t: Task): nat {
    match t.pc
    case Idle => 6 + 3 * PanelSize(cfg)
    case Asking => 5 + 3 * PanelSize(cfg)
    case Saving(_) => 4 + 3 * PanelSize(cfg)
    case Saved(_) => 3 + 3 * PanelSize(cfg)
    case Voting(_, seats) => 2 + PanelSize(cfg) + SumSeats(SeatWork, seats)
    case Recording(_, seats, _) => 1 + SumSeats(UnsavedSeat, seats)
    case Done => 0
  }

  function TasksWork(cfg: Config, tasks: seq<Task>): nat {
    if tasks == [] then 0 else TasksWork(cfg, tasks[..|tasks| - 1]) + TaskWork(cfg, tasks[|tasks| - 1])
  }

  /** The most a refinement round can add, and one step to begin it. */
  function RoundWork(cfg: Config): nat {
    Total(Total(cfg.parentsPerRound, RefinementSum(cfg.checkpoints)), 6 + 3 * PanelSize(cfg)) + 1
  }

  function Work(cfg: Config, s: State): nat
    requires s.round <= cfg.maxRounds
  {
    Total(cfg.maxRounds - s.round, RoundWork(cfg)) + TasksWork(cfg, s.tasks)
  }

  // ---- sums ----------------------------------------------------------------------------

  lemma {:induction false} TotalIsProduct(n: nat, each: nat)
    ensures Total(n, each) == n * each
  {
    if n > 0 {
      TotalIsProduct(n - 1, each);
      Scoring.Times(n - 1, each);
    }
  }

  lemma {:induction false} TotalGrows(n: nat, m: nat, each: nat)
    requires n <= m
    ensures Total(n, each) <= Total(m, each)
  {
    if n < m { TotalGrows(n, m - 1, each); }
  }

  lemma {:induction false} TotalDoubles(n: nat, each: nat, c: nat)
    ensures Total(n, c * each) == c * Total(n, each)
  {
    if n > 0 {
      TotalDoubles(n - 1, each, c);
      assert c * (Total(n - 1, each) + each) == c * Total(n - 1, each) + c * each;
    }
  }

  lemma {:induction false} SumRowUpdate(f: Seat -> nat, row: seq<Seat>, b: nat, seat: Seat)
    requires b < |row|
    ensures SumRow(f, row[b := seat]) + f(row[b]) == SumRow(f, row) + f(seat)
  {
    var n := |row| - 1;
    if b == n {
      assert row[b := seat][..n] == row[..n];
    } else {
      SumRowUpdate(f, row[..n], b, seat);
      assert row[b := seat][..n] == row[..n][b := seat];
    }
  }

  lemma {:induction false} SumSeatsUpdate(f: Seat -> nat, seats: seq<seq<Seat>>, a: nat, row: seq<Seat>)
    requires a < |seats|
    ensures SumSeats(f, seats[a := row]) + SumRow(f, seats[a]) == SumSeats(f, seats) + SumRow(f, row)
  {
    var n := |seats| - 1;
    if a == n {
      assert seats[a := row][..n] == seats[..n];
    } else {
      SumSeatsUpdate(f, seats[..n], a, row);
      assert seats[a := row][..n] == seats[..n][a := row];
    }
  }

  lemma SumSetSeat(f: Seat -> nat, seats: seq<seq<Seat>>, a: nat, b: nat, seat: Seat)
    requires a < |seats| && b < |seats[a]|
    ensures SumSeats(f, SetSeat(seats, a, b, seat)) + f(seats[a][b]) == SumSeats(f, seats) + f(seat)
  {
    SumRowUpdate(f, seats[a], b, seat);
    SumSeatsUpdate(f, seats, a, seats[a][b := seat]);
  }

  lemma {:induction false} SumRowBound(f: Seat -> nat, row: seq<Seat>, c: nat)
    requires forall b :: 0 <= b < |row| ==> f(row[b]) <= c
    ensures SumRow(f, row) <= c * |row|
  {
    if row != [] {
      SumRowBound(f, row[..|row| - 1], c);
      Scoring.Times(|row| - 1, c);
    }
  }

  lemma {:induction false} SumSeatsBound(f: Seat -> nat, seats: seq<seq<Seat>>, c: nat, width: nat)
    requires forall a :: 0 <= a < |seats| ==> |seats[a]| == width && forall b :: 0 <= b < width ==> f(seats[a][b]) <= c
    ensures SumSeats(f, seats) <= Total(|seats|, c * width)
  {
    if seats != [] {
      var n := |seats| - 1;
      SumSeatsBound(f, seats[..n], c, width);
      SumRowBound(f, seats[n], c);
    }
  }

  lemma PanelBound(cfg: Config, f: Seat -> nat, seats: seq<seq<Seat>>, c: nat)
    requires Shaped(cfg, seats) && forall seat :: f(seat) <= c
    ensures SumSeats(f, seats) <= c * PanelSize(cfg)
  {
    SumSeatsBound(f, seats, c, cfg.judgments);
    TotalDoubles(|cfg.verifiers|, cfg.judgments, c);
  }

  lemma {:induction false} TasksUpdate(cfg: Config, tasks: seq<Task>, i: nat, t: Task)
    requires i < |tasks|
    ensures TasksWork(cfg, tasks[i := t]) + TaskWork(cfg, tasks[i]) == TasksWork(cfg, tasks) + TaskWork(cfg, t)
  {
    var n := |tasks| - 1;
    if i == n {
      assert tasks[i := t][..n] == tasks[..n];
    } else {
      TasksUpdate(cfg, tasks[..n], i, t);
      assert tasks[i := t][..n] == tasks[..n][i := t];
    }
  }

  /** Flags do not count. */
  lemma {:induction false} TasksSame(cfg: Config, tasks: seq<Task>, tasks': seq<Task>)
    requires |tasks'| == |tasks| && forall j :: 0 <= j < |tasks| ==> tasks'[j].pc == tasks[j].pc
    ensures TasksWork(cfg, tasks') == TasksWork(cfg, tasks)
  {
    if tasks != [] { TasksSame(cfg, tasks[..|tasks| - 1], tasks'[..|tasks| - 1]); }
  }

  lemma {:induction false} TasksIdle(cfg: Config, tasks: seq<Task>)
    requires forall j :: 0 <= j < |tasks| ==> tasks[j].pc == Idle
    ensures TasksWork(cfg, tasks) == Total(|tasks|, 6 + 3 * PanelSize(cfg))
  {
    if tasks != [] { TasksIdle(cfg, tasks[..|tasks| - 1]); }
  }

  // ---- every step works off --------------------------------------------------------------

  /** Task `i` has less to do, the others as much. */
  lemma LessWork(cfg: Config, s: State, s': State, i: nat)
    requires i < |s.tasks| == |s'.tasks| && s.round == s'.round <= cfg.maxRounds
    requires forall j :: 0 <= j < |s.tasks| && j != i ==> s'.tasks[j].pc == s.tasks[j].pc
    requires TaskWork(cfg, s'.tasks[i]) < TaskWork(cfg, s.tasks[i])
    ensures Work(cfg, s') < Work(cfg, s)
  {
    TasksUpdate(cfg, s.tasks, i, s'.tasks[i]);
    TasksSame(cfg, s.tasks[i := s'.tasks[i]], s'.tasks);
  }

  lemma OpenedPanel(cfg: Config)
    ensures SumSeats(SeatWork, EmptyPanel(cfg)) <= 2 * PanelSize(cfg)
  {
    PanelBound(cfg, SeatWork, EmptyPanel(cfg), 2);
  }

  lemma DoneWorks(cfg: Config, s: State, i: nat)
    requires s.round <= cfg.maxRounds && i < |s.tasks| && s.tasks[i].pc != Done
    ensures Work(cfg, SetPc(s, i, Done)) < Work(cfg, s) && Work(cfg, SetPc(s, i, Done).(failed := true)) < Work(cfg, s)
  {
    LessWork(cfg, s, SetPc(s, i, Done), i);
  }

  lemma AdmitWorks(cfg: Config, s: State, i: nat, resp: Response)
    requires s.round <= cfg.maxRounds && i < |s.tasks| && TaskWork(cfg, s.tasks[i]) >= 3 + 3 * PanelSize(cfg)
    ensures Work(cfg, Admit(cfg, s, i, resp)) < Work(cfg, s)
  {
    var t, p := s.tasks[i], cfg.parseProof(resp);
    if t.model in s.stopped || !p.valid {
      DoneWorks(cfg, s, i);
    } else {
      match Find(s.pool, p.proof)
      case Some(_) => LessWork(cfg, s, Admit(cfg, s, i, resp), i);
      case None => OpenedPanel(cfg); LessWork(cfg, s, Admit(cfg, s, i, resp), i);
    }
  }

  lemma BeginWorks(cfg: Config, s: State, i: nat)
    requires s.round <= cfg.maxRounds && Enabled(cfg, s, Start(i))
    ensures Work(cfg, Begin(cfg, s, i)) < Work(cfg, s)
  {
    var t := s.tasks[i];
    if !t.cancelled && t.model !in s.stopped && t.id in s.ledger {
      AdmitWorks(cfg, s, i, s.ledger[t.id]);
    } else {
      LessWork(cfg, s, Begin(cfg, s, i), i);
    }
  }

  lemma DeliverWorks(cfg: Config, s: State, i: nat, resp: Response)
    requires s.round <= cfg.maxRounds && Enabled(cfg, s, Deliver(i, resp))
    ensures Work(cfg, Next(cfg, s, Deliver(i, resp))) < Work(cfg, s)
  {
    LessWork(cfg, s, Next(cfg, s, Deliver(i, resp)), i);
  }

  lemma WriteWorks(cfg: Config, s: State, i: nat)
    requires s.round <= cfg.maxRounds && Enabled(cfg, s, Write(i))
    ensures Work(cfg, Next(cfg, s, Write(i))) < Work(cfg, s)
  {
    LessWork(cfg, s, Next(cfg, s, Write(i)), i);
  }

  lemma SeatWorks(cfg: Config, s: State, s': State, i: nat, a: nat, b: nat, was: Seat, seat: Seat)
    requires s.round <= cfg.maxRounds && SeatAt(cfg, s, i, a, b, was) && SeatWork(seat) < SeatWork(was)
    requires s' == SettleSeat(s, i, a, b, seat).(issued := s'.issued)
    ensures Work(cfg, s') < Work(cfg, s)
  {
    SumSetSeat(SeatWork, s.tasks[i].pc.seats, a, b, seat);
    LessWork(cfg, s, s', i);
  }

  lemma BeginSeatWorks(cfg: Config, s: State, i: nat, a: nat, b: nat)
    requires s.round <= cfg.maxRounds && Enabled(cfg, s, SeatStart(i, a, b))
    ensures Work(cfg, BeginSeat(cfg, s, i, a, b)) < Work(cfg, s)
  {
    var s' := BeginSeat(cfg, s, i, a, b);
    var id := VoteId(cfg, s.pool[s.tasks[i].pc.at], a, b);
    SeatWorks(cfg, s, s', i, a, b, Unsent, if id in s.ledger then Got(s.ledger[id], false) else Sent);
  }

  lemma SettleSeatWorks(cfg: Config, s: State, i: nat, a: nat, b: nat, was: Seat, seat: Seat)
    requires s.round <= cfg.maxRounds && SeatAt(cfg, s, i, a, b, was) && SeatWork(seat) < SeatWork(was)
    ensures Work(cfg, SettleSeat(s, i, a, b, seat)) < Work(cfg, s)
  {
    SeatWorks(cfg, s, SettleSeat(s, i, a, b, seat), i, a, b, was, seat);
  }

  lemma GatherWorks(cfg: Config, s: State, i: nat)
    requires s.round <= cfg.maxRounds && Enabled(cfg, s, Gather(i)) && Shaped(cfg, s.tasks[i].pc.seats)
    ensures Work(cfg, Gathered(s, i)) < Work(cfg, s)
  {
    PanelBound(cfg, UnsavedSeat, Gathered(s, i).tasks[i].pc.seats, 1);
    LessWork(cfg, s, Gathered(s, i), i);
  }

  lemma WriteVoteWorks(cfg: Config, s: State, i: nat, a: nat, b: nat)
    requires s.round <= cfg.maxRounds && Enabled(cfg, s, WriteVote(i, a, b))
    ensures Work(cfg, Next(cfg, s, WriteVote(i, a, b))) < Work(cfg, s)
  {
    var pc := s.tasks[i].pc;
    SumSetSeat(UnsavedSeat, pc.seats, a, b, Got(pc.seats[a][b].resp, false));
    LessWork(cfg, s, Next(cfg, s, WriteVote(i, a, b)), i);
  }

  lemma SettleWorks(cfg: Config, s: State, i: nat, rec: Record)
    requires s.round <= cfg.maxRounds && i < |s.tasks| && s.tasks[i].pc.Recording? && s.tasks[i].pc.at < |s.pool| && rec.verdict.Some?
    ensures Work(cfg, Settle(s, i, rec)) < Work(cfg, s)
  {
    LessWork(cfg, s, Settle(s, i, rec), i);
  }

  lemma ConcludeWorks(cfg: Config, s: State, i: nat)
    requires s.round <= cfg.maxRounds && Enabled(cfg, s, Conclude(i))
    ensures Work(cfg, Conclusion(cfg, s, i)) < Work(cfg, s)
  {
    DoneWorks(cfg, s, i);
    SettleWorks(cfg, s, i, Judged(cfg, s.pool[s.tasks[i].pc.at], s.tasks[i].pc.seats));
  }

  lemma RoundSize(cfg: Config, parents: nat, size: nat)
    requires parents <= cfg.parentsPerRound && size == Total(parents, RefinementSum(cfg.checkpoints))
    ensures Total(size, 6 + 3 * PanelSize(cfg)) < RoundWork(cfg)
  {
    TotalGrows(parents, cfg.parentsPerRound, RefinementSum(cfg.checkpoints));
    TotalGrows(size, Total(cfg.parentsPerRound, RefinementSum(cfg.checkpoints)), 6 + 3 * PanelSize(cfg));
  }

  lemma RoundTasks(cfg: Config, round: nat, tasks: seq<Task>, parents: seq<nat>)
    requires ValidConfig(cfg) && |parents| <= cfg.parentsPerRound && tasks == RefineTasks(round, 0, cfg.checkpoints, 0, parents)
    ensures TasksWork(cfg, tasks) < RoundWork(cfg)
  {
    Launching.FreshTasks(round, cfg.checkpoints, parents);
    assert forall j :: 0 <= j < |tasks| ==> tasks[j] in tasks;
    TasksIdle(cfg, tasks);
    Launching.RefineCount(round, 0, cfg.checkpoints, 0, parents);
    TotalIsProduct(|parents|, RefinementSum(cfg.checkpoints));
    RoundSize(cfg, |parents|, |tasks|);
  }

  lemma RoundWorks(cfg: Config, s: State, parents: seq<nat>)
    requires ValidConfig(cfg) && s.round < cfg.maxRounds && |parents| <= cfg.parentsPerRound
    ensures Work(cfg, BeginRound(cfg, s, parents)) < Work(cfg, s)
  {
    RoundTasks(cfg, s.round + 1, BeginRound(cfg, s, parents).tasks, parents);
  }

  lemma AbortKeepsWork(cfg: Config, s: State)
    requires s.round <= cfg.maxRounds
    ensures Work(cfg, Next(cfg, s, Abort)) == Work(cfg, s)
  {
    TasksSame(cfg, s.tasks, Next(cfg, s, Abort).tasks);
  }

  predicate OfSeat(ev: Event) {
    ev.SeatStart? || ev.SeatDeliver? || ev.SeatPark? || ev.SeatFail? || ev.SeatDrop? || ev.WriteVote?
  }

  lemma SeatStepWorks(cfg: Config, s: State, ev: Event)
    requires s.round <= cfg.maxRounds && Enabled(cfg, s, ev) && OfSeat(ev)
    ensures Next(cfg, s, ev).round <= cfg.maxRounds && Work(cfg, Next(cfg, s, ev)) < Work(cfg, s)
  {
    match ev
    case SeatStart(i, a, b) => BeginSeatWorks(cfg, s, i, a, b);
    case SeatDeliver(i, a, b, resp) => SettleSeatWorks(cfg, s, i, a, b, Sent, Got(resp, true));
    case SeatPark(i, a, b) => SettleSeatWorks(cfg, s, i, a, b, Sent, Parked);
    case SeatFail(i, a, b) => SettleSeatWorks(cfg, s, i, a, b, Sent, Fatal);
    case SeatDrop(i, a, b) => SettleSeatWorks(cfg, s, i, a, b, s.tasks[i].pc.seats[a][b], Dropped);
    case WriteVote(i, a, b) => WriteVoteWorks(cfg, s, i, a, b);
  }

  lemma ResumeWorks(cfg: Config, s: State, i: nat)
    requires s.round <= cfg.maxRounds && Enabled(cfg, s, Resume(i))
    ensures Work(cfg, Next(cfg, s, Resume(i))) < Work(cfg, s)
  {
    DoneWorks(cfg, s, i);
    AdmitWorks(cfg, s, i, s.tasks[i].pc.resp);
  }

  predicate Ends(ev: Event) {
    ev.Park? || ev.Fail? || ev.Drop? || ev.LoseWrite? || ev.Leave?
  }

  lemma EndWorks(cfg: Config, s: State, ev: Event)
    requires s.round <= cfg.maxRounds && Enabled(cfg, s, ev) && Ends(ev)
    ensures Next(cfg, s, ev).round <= cfg.maxRounds && Work(cfg, Next(cfg, s, ev)) < Work(cfg, s)
  {
    DoneWorks(cfg, s, ev.i);
  }

  lemma SaveStepWorks(cfg: Config, s: State, ev: Event)
    requires s.round <= cfg.maxRounds && Enabled(cfg, s, ev) && (ev.Deliver? || ev.Write? || ev.Gather?)
    requires ev.Gather? ==> Shaped(cfg, s.tasks[ev.i].pc.seats)
    ensures Next(cfg, s, ev).round <= cfg.maxRounds && Work(cfg, Next(cfg, s, ev)) < Work(cfg, s)
  {
    match ev
    case Deliver(i, resp) => DeliverWorks(cfg, s, i, resp);
    case Write(i) => WriteWorks(cfg, s, i);
    case Gather(i) => GatherWorks(cfg, s, i);
  }

  lemma PoolStepWorks(cfg: Config, s: State, ev: Event)
    requires s.round <= cfg.maxRounds && Enabled(cfg, s, ev) && (ev.Start? || ev.Resume?)
    ensures Next(cfg, s, ev).round <= cfg.maxRounds && Work(cfg, Next(cfg, s, ev)) < Work(cfg, s)
  {
    match ev
    case Start(i) => BeginWorks(cfg, s, i);
    case Resume(i) => ResumeWorks(cfg, s, i);
  }

  lemma ConcludeStepWorks(cfg: Config, s: State, i: nat)
    requires s.round <= cfg.maxRounds && Enabled(cfg, s, Conclude(i))
    ensures Next(cfg, s, Conclude(i)).round <= cfg.maxRounds && Work(cfg, Next(cfg, s, Conclude(i))) < Work(cfg, s)
  {
    ConcludeWorks(cfg, s, i);
  }

  lemma RoundStepWorks(cfg: Config, s: State)
    requires ValidConfig(cfg) && Enabled(cfg, s, NextRound)
    ensures Next(cfg, s, NextRound).round <= cfg.maxRounds && Work(cfg, Next(cfg, s, NextRound)) < Work(cfg, s)
  {
    RoundWorks(cfg, s, Parents(cfg, s.pool));
  }

  lemma StepWorks(cfg: Config, base: seq<Entry>, s: State, ev: Event)
    requires ValidConfig(cfg) && Durable(cfg, base, s) && s.round <= cfg.maxRounds && Enabled(cfg, s, ev) && !ev.Abort?
    ensures Next(cfg, s, ev).round <= cfg.maxRounds && Work(cfg, Next(cfg, s, ev)) < Work(cfg, s)
  {
    if OfSeat(ev) {
      SeatStepWorks(cfg, s, ev);
    } else if Ends(ev) {
      EndWorks(cfg, s, ev);
    } else if ev.NextRound? {
      RoundStepWorks(cfg, s);
    } else if ev.Conclude? {
      ConcludeStepWorks(cfg, s, ev.i);
    } else if ev.Start? || ev.Resume? {
      PoolStepWorks(cfg, s, ev);
    } else {
      assert ev.Gather? ==> TaskOk(cfg, s.pool, s.issued, Ids(s.rows), s.tasks[ev.i]);
      SaveStepWorks(cfg, s, ev);
    }
  }

  // ---- whole runs ------------------------------------------------------------------------------

  /** The steps of a run that are not aborts. */
  function Steps(run: seq<Event>): nat {
    if run == [] then 0 else (if run[0].Abort? then 0 else 1) + Steps(run[1..])
  }

  lemma {:induction false} RunWorks(cfg: Config, base: seq<Entry>, s: State, run: seq<Event>)
    requires ValidConfig(cfg) && Durable(cfg, base, s) && s.round <= cfg.maxRounds && Legal(cfg, s, run)
    ensures Exec(cfg, s, run).round <= cfg.maxRounds && Work(cfg, Exec(cfg, s, run)) + Steps(run) <= Work(cfg, s)
    decreases run
  {
    if run != [] {
      StepDurable(cfg, base, s, run[0]);
      if run[0].Abort? { AbortKeepsWork(cfg, s); } else { StepWorks(cfg, base, s, run[0]); }
      RunWorks(cfg, base, Next(cfg, s, run[0]), run[1..]);
    }
  }

  function Round1Work(cfg: Config): nat {
    Total(Total(|cfg.prompts|, GenerationSum(cfg.checkpoints)), 6 + 3 * PanelSize(cfg))
  }

  lemma InitialWork(cfg: Config, tasks: seq<Task>)
    requires ValidConfig(cfg) && tasks == Round1Tasks(cfg.prompts, cfg.checkpoints, 0)
    ensures TasksWork(cfg, tasks) == Round1Work(cfg)
  {
    Launching.Round1TasksFacts(cfg.prompts, cfg.checkpoints, 0);
    Launching.Round1Count(cfg.prompts, cfg.checkpoints, 0);
    forall j | 0 <= j < |tasks| ensures tasks[j].pc == Idle {
      assert tasks[j] in tasks && Launching.GenerationTask(tasks[j], cfg.prompts, cfg.checkpoints);
    }
    TasksIdle(cfg, tasks);
    TotalIsProduct(|cfg.prompts|, GenerationSum(cfg.checkpoints));
  }

  /** What a launch starts with: its round-1 samples and the rounds after them. */
  lemma LaunchWork(cfg: Config, disk: seq<Entry>)
    requires ValidConfig(cfg)
    ensures Work(cfg, Init(cfg, disk)) == Total(cfg.maxRounds - 1, RoundWork(cfg)) + Round1Work(cfg)
  {
    InitialWork(cfg, Init(cfg, disk).tasks);
  }

  /** No launch takes more steps than its configuration allows, whatever the schedule and the disk. */
  lemma EveryLaunchEnds(cfg: Config, disk: seq<Entry>, run: seq<Event>)
    requires ValidConfig(cfg) && Legal(cfg, Init(cfg, disk), run)
    ensures Steps(run) <= Total(cfg.maxRounds - 1, RoundWork(cfg)) + Round1Work(cfg)
  {
    var s := Init(cfg, disk);
    InitDurable(cfg, disk);
    RunWorks(cfg, disk, s, run);
    LaunchWork(cfg, disk);
  }

  // ---- nothing gets stuck -----------------------------------------------------------------------

  /** Some unsaved vote has only saved votes before it. */
  lemma {:induction false} FirstUnsaved(seats: seq<seq<Seat>>, a: nat, b: nat) returns (x: nat, y: nat)
    requires a < |seats| && b < |seats[a]| && seats[a][b].Got? && seats[a][b].unsaved
    ensures x < |seats| && y < |seats[x]| && seats[x][y].Got? && seats[x][y].unsaved && EarlierSaved(seats, x, y)
    decreases a, b
  {
    if EarlierSaved(seats, a, b) {
      x, y := a, b;
    } else {
      var c, d :| 0 <= c < |seats| && 0 <= d < |seats[c]| && (c < a || (c == a && d < b)) && seats[c][d].Got? && seats[c][d].unsaved;
      x, y := FirstUnsaved(seats, c, d);
    }
  }

  lemma VotingMoves(cfg: Config, s: State, i: nat) returns (ev: Event)
    requires i < |s.tasks| && s.tasks[i].pc.Voting? && s.tasks[i].pc.at < |s.pool| && Shaped(cfg, s.tasks[i].pc.seats)
    ensures Enabled(cfg, s, ev) && !ev.Abort?
  {
    var seats: seq<seq<Seat>> := s.tasks[i].pc.seats;
    if AllSettled(seats) {
      ev := Gather(i);
    } else {
      var a, b :| 0 <= a < |seats| && 0 <= b < |seats[a]| && !Settled(seats[a][b]);
      ev := if s.tasks[i].cancelled then SeatDrop(i, a, b) else if seats[a][b] == Sent then SeatPark(i, a, b) else SeatStart(i, a, b);
    }
  }

  lemma RecordingMoves(cfg: Config, s: State, i: nat) returns (ev: Event)
    requires i < |s.tasks| && s.tasks[i].pc.Recording? && s.tasks[i].pc.at < |s.pool| && Shaped(cfg, s.tasks[i].pc.seats)
    requires |cfg.verifiers| > 0 && cfg.judgments > 0
    ensures Enabled(cfg, s, ev) && !ev.Abort?
  {
    var seats: seq<seq<Seat>> := s.tasks[i].pc.seats;
    if NothingUnsaved(seats) {
      ev := if s.tasks[i].cancelled then Leave(i) else Conclude(i);
    } else {
      var a, b :| 0 <= a < |seats| && 0 <= b < |seats[a]| && seats[a][b].Got? && seats[a][b].unsaved;
      var x, y := FirstUnsaved(seats, a, b);
      ev := WriteVote(i, x, y);
    }
  }

  lemma TaskMoves(cfg: Config, base: seq<Entry>, s: State, i: nat) returns (ev: Event)
    requires ValidConfig(cfg) && Durable(cfg, base, s) && i < |s.tasks| && s.tasks[i].pc != Done
    ensures Enabled(cfg, s, ev) && !ev.Abort?
  {
    assert TaskOk(cfg, s.pool, s.issued, Ids(s.rows), s.tasks[i]);
    match s.tasks[i].pc
    case Idle => ev := Start(i);
    case Asking => ev := Park(i);
    case Saving(_) => ev := Write(i);
    case Saved(_) => ev := Resume(i);
    case Voting(_, _) => ev := VotingMoves(cfg, s, i);
    case Recording(_, _, _) => ev := RecordingMoves(cfg, s, i);
  }

  /**
   * Wherever a launch stands, some step is possible until every task is done; and a launch without a fatal error or
   * an abort that can take no further step is over: it has a finalist, or it has run its last round.
   */
  lemma NothingGetsStuck(cfg: Config, disk: seq<Entry>, run: seq<Event>)
    requires ValidConfig(cfg) && Legal(cfg, Init(cfg, disk), run)
    ensures var s := Exec(cfg, Init(cfg, disk), run);
      && (!AllDone(s) ==> exists ev :: Enabled(cfg, s, ev) && !ev.Abort?)
      && (!s.failed && !s.aborting && (forall ev :: Enabled(cfg, s, ev) ==> ev.Abort?) ==>
            Outcome.Over(cfg, s) && (s.finalists != map[] || s.round == cfg.maxRounds))
  {
    InitDurable(cfg, disk);
    RunDurable(cfg, disk, Init(cfg, disk), run);
    RunWorks(cfg, disk, Init(cfg, disk), run);
    var s := Exec(cfg, Init(cfg, disk), run);
    if !AllDone(s) {
      var i :| 0 <= i < |s.tasks| && s.tasks[i].pc != Done;
      var ev := TaskMoves(cfg, disk, s, i);
    }
  }
}
