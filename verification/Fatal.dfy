/** A fatal request error ends the launch: what follows it, and what has to happen before a launch fails. */
module Fatal {
  import opened Options
  import opened Search
  import Outcome
  import Termination

  /** A sample's request fails for good, or a panel concludes in which a call did. */
  ghost predicate EndsFatally(s: State, ev: Event) {
    || ev.Fail?
    || (ev.Conclude? && ev.i < |s.tasks| && s.tasks[ev.i].pc.Recording? && HoldsFatal(s.tasks[ev.i].pc.seats))
  }

  ghost predicate HoldsFatal(seats: seq<seq<Seat>>) {
    exists a, b :: 0 <= a < |seats| && 0 <= b < |seats[a]| && seats[a][b].Fatal?
  }

  /** Some step of the run is fatal. */
  ghost predicate MeetsFatal(cfg: Config, s: State, run: seq<Event>)
    requires Legal(cfg, s, run)
    decreases run
  {
    run != [] && (EndsFatally(s, run[0]) || MeetsFatal(cfg, Next(cfg, s, run[0]), run[1..]))
  }

  lemma AdmitFailsNothing(cfg: Config, s: State, i: nat, resp: Response)
    requires i < |s.tasks|
    ensures Admit(cfg, s, i, resp).failed == s.failed
  {
  }

  lemma ConcludeFails(cfg: Config, s: State, i: nat)
    requires Enabled(cfg, s, Conclude(i))
    ensures Next(cfg, s, Conclude(i)).failed <==> s.failed || HoldsFatal(s.tasks[i].pc.seats)
  {
    assert HoldsFatal(s.tasks[i].pc.seats) <==> SomeSeat(s.tasks[i].pc.seats, Seat.Fatal);
  }

  lemma StepFails(cfg: Config, s: State, ev: Event)
    requires Enabled(cfg, s, ev)
    ensures Next(cfg, s, ev).failed <==> s.failed || EndsFatally(s, ev)
  {
    match ev
    case Start(i) => if s.tasks[i].id in s.ledger { AdmitFailsNothing(cfg, s, i, s.ledger[s.tasks[i].id]); }
    case Resume(i) => AdmitFailsNothing(cfg, s, i, s.tasks[i].pc.resp);
    case Conclude(i) => ConcludeFails(cfg, s, i);
    case _ =>
  }

  lemma {:induction false} RunFails(cfg: Config, s: State, run: seq<Event>)
    requires Legal(cfg, s, run)
    ensures Exec(cfg, s, run).failed <==> s.failed || MeetsFatal(cfg, s, run)
    decreases run
  {
    if run != [] {
      StepFails(cfg, s, run[0]);
      RunFails(cfg, Next(cfg, s, run[0]), run[1..]);
    }
  }

  /** What a step leaves of the search's own progress. */
  ghost predicate SameProgress(s: State, s': State) {
    s'.round == s.round && s'.aborting == s.aborting
  }

  lemma SampleProgress(cfg: Config, s: State, ev: Event)
    requires Enabled(cfg, s, ev) && (ev.Start? || ev.Resume?)
    ensures SameProgress(s, Next(cfg, s, ev))
  {
  }

  lemma SeatProgress(cfg: Config, s: State, ev: Event)
    requires Enabled(cfg, s, ev) && (ev.SeatStart? || ev.SeatDeliver? || ev.SeatPark? || ev.SeatFail? || ev.SeatDrop?)
    ensures SameProgress(s, Next(cfg, s, ev))
  {
  }

  lemma PlainProgress(cfg: Config, s: State, ev: Event)
    requires Enabled(cfg, s, ev)
    requires ev.Deliver? || ev.Park? || ev.Fail? || ev.Drop? || ev.Write? || ev.LoseWrite? || ev.Leave? || ev.Gather? || ev.WriteVote?
    ensures SameProgress(s, Next(cfg, s, ev))
  {
  }

  lemma ConcludeProgress(cfg: Config, s: State, i: nat)
    requires Enabled(cfg, s, Conclude(i))
    ensures SameProgress(s, Next(cfg, s, Conclude(i)))
  {
  }

  lemma TaskProgress(cfg: Config, s: State, ev: Event)
    requires Enabled(cfg, s, ev) && !ev.NextRound? && !ev.Abort?
    ensures SameProgress(s, Next(cfg, s, ev))
  {
    if ev.Start? || ev.Resume? {
      SampleProgress(cfg, s, ev);
    } else if ev.Conclude? {
      ConcludeProgress(cfg, s, ev.i);
    } else if ev.SeatStart? || ev.SeatDeliver? || ev.SeatPark? || ev.SeatFail? || ev.SeatDrop? {
      SeatProgress(cfg, s, ev);
    } else {
      PlainProgress(cfg, s, ev);
    }
  }

  lemma RoundKept(cfg: Config, s: State, ev: Event)
    requires Enabled(cfg, s, ev) && !ev.NextRound?
    ensures Next(cfg, s, ev).round == s.round
  {
    if !ev.Abort? { TaskProgress(cfg, s, ev); }
  }

  lemma {:induction false} FailedStays(cfg: Config, s: State, run: seq<Event>)
    requires Legal(cfg, s, run) && s.failed
    ensures Exec(cfg, s, run).failed && Exec(cfg, s, run).round == s.round
    decreases run
  {
    if run != [] {
      StepFails(cfg, s, run[0]);
      RoundKept(cfg, s, run[0]);
      FailedStays(cfg, Next(cfg, s, run[0]), run[1..]);
    }
  }

  /**
   * From a fatal error on, at any state and under any schedule, the round stays the one it happened in, no further round
   * begins, and the search never counts as over: it has no result.
   */
  lemma FatalEndsTheSearch(cfg: Config, s: State, ev: Event, later: seq<Event>)
    requires Enabled(cfg, s, ev) && EndsFatally(s, ev) && Legal(cfg, Next(cfg, s, ev), later)
    ensures var v := Exec(cfg, Next(cfg, s, ev), later);
      v.round == s.round && !Enabled(cfg, v, NextRound) && !Outcome.Over(cfg, v)
  {
    StepFails(cfg, s, ev);
    RoundKept(cfg, s, ev);
    FailedStays(cfg, Next(cfg, s, ev), later);
  }

  lemma {:induction false} RunAborts(cfg: Config, s: State, run: seq<Event>)
    requires Legal(cfg, s, run)
    ensures Exec(cfg, s, run).aborting <==> s.aborting || Abort in run
    decreases run
  {
    if run != [] {
      StepAborts(cfg, s, run[0]);
      RunAborts(cfg, Next(cfg, s, run[0]), run[1..]);
      assert run == [run[0]] + run[1..];
    }
  }

  lemma StepAborts(cfg: Config, s: State, ev: Event)
    requires Enabled(cfg, s, ev)
    ensures Next(cfg, s, ev).aborting <==> s.aborting || ev == Abort
  {
    if !ev.NextRound? && !ev.Abort? { TaskProgress(cfg, s, ev); }
  }

  /**
   * A launch that can take no further step is over, with a finalist or after its last round, exactly when no step of it
   * was fatal and nobody aborted it.
   */
  lemma OverIffNothingFatal(cfg: Config, disk: seq<Entry>, run: seq<Event>)
    requires ValidConfig(cfg) && Legal(cfg, Init(cfg, disk), run)
    requires forall ev :: Enabled(cfg, Exec(cfg, Init(cfg, disk), run), ev) ==> ev.Abort?
    ensures var s := Exec(cfg, Init(cfg, disk), run);
      && (Outcome.Over(cfg, s) <==> !MeetsFatal(cfg, Init(cfg, disk), run) && Abort !in run)
      && (Outcome.Over(cfg, s) ==> s.finalists != map[] || s.round == cfg.maxRounds)
  {
    RunFails(cfg, Init(cfg, disk), run);
    RunAborts(cfg, Init(cfg, disk), run);
    Termination.NothingGetsStuck(cfg, disk, run);
  }
}
