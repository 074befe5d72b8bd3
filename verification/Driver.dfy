/**
 * The run driver (driver.py): one task per unfinished problem, the two log files it appends to, its exit code, and
 * what relaunches make of them. A step is the code between two awaits of one task or of the main loop, or something
 * the outside does.
 */
module Driver {
  import opened Options

  /** The problem ids in results.jsonl and submissions.jsonl, in file order. */
  datatype Disk = Disk(results: seq<string>, submissions: seq<string>)

  datatype Phase = Waiting | Running | Written | FatallyEnded | Failed | Cancelled

  /**
   * `free` is the problem semaphore; `stop` the stop event; `closing` says that the main loop has ended and cancels
   * what is left. `asked` records that the outside requested the stop; `torn` that the process died between the two
   * appends of a problem, after which nothing happens any more.
   */
  datatype State = State(
    todo: seq<string>, phases: seq<Phase>, free: nat, disk: Disk,
    stop: bool, asked: bool, fatal: bool, exitCode: nat, closing: bool, torn: Option<string>)

  /** The problems without a results row. */
  function Todo(problems: seq<string>, done: seq<string>): seq<string> {
    if problems == [] then []
    else (if problems[0] in done then [] else [problems[0]]) + Todo(problems[1..], done)
  }

  function Launch(problems: seq<string>, width: nat, disk: Disk): State {
    var todo := Todo(problems, disk.results);
    State(todo, seq(|todo|, i => Waiting), width, disk, false, false, false, 0, todo == [], None)
  }

  predicate Final(p: Phase) {
    p != Waiting && p != Running
  }

  predicate AllFinal(s: State) {
    forall i :: 0 <= i < |s.phases| ==> Final(s.phases[i])
  }

  predicate SomeFailed(s: State) {
    Failed in s.phases
  }

  datatype Event =
    | Begin(i: nat)
    | Finish(i: nat)
    | Tear(i: nat)
    | HitFatal(i: nat)
    | Fail(i: nat)
    | RequestStop
    | Look(sawStop: bool)
    | Cancel(i: nat)

  predicate Enabled(s: State, ev: Event) {
    s.torn.None? && |s.phases| == |s.todo| &&
    match ev
    case Begin(i) => !s.closing && i < |s.phases| && s.phases[i] == Waiting && s.free > 0
    case Finish(i) => !s.closing && i < |s.phases| && s.phases[i] == Running
    case Tear(i) => !s.closing && i < |s.phases| && s.phases[i] == Running
    case HitFatal(i) => !s.closing && i < |s.phases| && s.phases[i] == Running
    case Fail(i) => !s.closing && i < |s.phases| && s.phases[i] == Running
    case RequestStop => true
    case Look(saw) => !s.closing && (saw ==> s.stop)
    case Cancel(i) => i < |s.phases| && s.closing && !Final(s.phases[i])
  }

  function Leave(s: State, i: nat, p: Phase): State
    requires i < |s.phases|
  {
    s.(phases := s.phases[i := p], free := s.free + 1)
  }

  /** One turn of the main loop: a stop it was woken by ends it, then a failed task, then a stop set meanwhile. */
  function Looked(s: State, sawStop: bool): State {
    if sawStop then s.(closing := true)
    else if SomeFailed(s) then s.(exitCode := 1, stop := true, closing := true)
    else s.(closing := s.stop || AllFinal(s))
  }

  function Next(s: State, ev: Event): State
    requires Enabled(s, ev)
  {
    match ev
    case Begin(i) => s.(phases := s.phases[i := Running], free := s.free - 1)
    case Finish(i) => Leave(s, i, Written).(disk := Disk(s.disk.results + [s.todo[i]], s.disk.submissions + [s.todo[i]]))
    case Tear(i) => s.(disk := Disk(s.disk.results, s.disk.submissions + [s.todo[i]]), torn := Some(s.todo[i]))
    case HitFatal(i) => Leave(s, i, FatallyEnded).(fatal := true, stop := true)
    case Fail(i) => Leave(s, i, Failed)
    case RequestStop => s.(stop := true, asked := true)
    case Look(saw) => Looked(s, saw)
    case Cancel(i) => if s.phases[i] == Running then Leave(s, i, Cancelled) else s.(phases := s.phases[i := Cancelled])
  }

  /** The driver has returned. */
  predicate Over(s: State) {
    s.closing && AllFinal(s) && s.torn.None?
  }

  function ExitCode(s: State): nat {
    if s.fatal then 1 else s.exitCode
  }

  ghost predicate Legal(s: State, run: seq<Event>)
    decreases run
  {
    run == [] || (Enabled(s, run[0]) && Legal(Next(s, run[0]), run[1..]))
  }

  ghost function Exec(s: State, run: seq<Event>): State
    requires Legal(s, run)
    decreases run
  {
    if run == [] then s else Exec(Next(s, run[0]), run[1..])
  }

  // ---- the invariant -----------------------------------------------------------------------

  function CountRunning(phases: seq<Phase>): nat {
    if phases == [] then 0
    else CountRunning(phases[..|phases| - 1]) + (if phases[|phases| - 1] == Running then 1 else 0)
  }

  /** What the launch found, what it finished, and what a crash tore. */
  ghost predicate Sound(problems: seq<string>, width: nat, found: Disk, s: State) {
    && |s.phases| == |s.todo| && s.todo == Todo(problems, found.results)
    && s.free + CountRunning(s.phases) == width
    && found.results <= s.disk.results && NoDup(s.disk.results)
    && (forall i :: 0 <= i < |s.todo| ==> (s.todo[i] in s.disk.results <==> s.phases[i] == Written))
    && (s.exitCode != 0 ==> SomeFailed(s))
    && (s.fatal <==> FatallyEnded in s.phases)
    && (s.stop ==> s.asked || s.fatal || s.exitCode != 0)
    && (s.closing ==> s.stop || AllFinal(s))
    && (s.closing && !s.stop ==> !SomeFailed(s))
    && (Cancelled in s.phases ==> s.stop)
  }

  lemma {:induction false} TodoMembers(problems: seq<string>, done: seq<string>)
    ensures forall p :: p in Todo(problems, done) <==> p in problems && p !in done
  {
    if problems != [] { TodoMembers(problems[1..], done); }
  }

  lemma {:induction false} TodoNoDup(problems: seq<string>, done: seq<string>)
    requires NoDup(problems)
    ensures NoDup(Todo(problems, done))
  {
    if problems != [] {
      var rest := problems[1..];
      assert forall k :: 0 <= k < |rest| ==> rest[k] == problems[k + 1];
      TodoNoDup(rest, done);
      TodoMembers(rest, done);
      var tail := Todo(rest, done);
      if problems[0] !in done {
        assert problems[0] !in tail;
        NoDupConcat([problems[0]], tail);
      }
    }
  }

  lemma {:induction false} CountUpdate(phases: seq<Phase>, i: nat, p: Phase)
    requires i < |phases|
    ensures CountRunning(phases[i := p]) + (if phases[i] == Running then 1 else 0) == CountRunning(phases) + (if p == Running then 1 else 0)
  {
    var n := |phases| - 1;
    if i == n {
      assert phases[i := p][..n] == phases[..n];
    } else {
      CountUpdate(phases[..n], i, p);
      assert phases[i := p][..n] == phases[..n][i := p];
    }
  }

  lemma {:induction false} NoneRunning(phases: seq<Phase>)
    requires forall i :: 0 <= i < |phases| ==> phases[i] != Running
    ensures CountRunning(phases) == 0
  {
    if phases != [] { NoneRunning(phases[..|phases| - 1]); }
  }

  lemma LaunchSound(problems: seq<string>, width: nat, disk: Disk)
    requires NoDup(problems) && NoDup(disk.results)
    ensures Sound(problems, width, disk, Launch(problems, width, disk))
  {
    var s := Launch(problems, width, disk);
    TodoMembers(problems, disk.results);
    NoneRunning(s.phases);
    assert forall i :: 0 <= i < |s.todo| ==> s.todo[i] in s.todo;
  }

  lemma FinishSound(problems: seq<string>, width: nat, found: Disk, s: State, i: nat)
    requires NoDup(problems) && Sound(problems, width, found, s) && Enabled(s, Finish(i))
    ensures Sound(problems, width, found, Next(s, Finish(i)))
  {
    var s' := Next(s, Finish(i));
    CountUpdate(s.phases, i, Written);
    TodoNoDup(problems, found.results);
    NoDupAppend(s.disk.results, s.todo[i]);
    PhaseExists(s.phases, i, Written, FatallyEnded);
    PhaseExists(s.phases, i, Written, Failed);
    PhaseExists(s.phases, i, Written, Cancelled);
  }

  /** Moving task `i` to phase `p` changes whether some task is in phase `q` only as far as `i` goes. */
  lemma PhaseExists(phases: seq<Phase>, i: nat, p: Phase, q: Phase)
    requires i < |phases| && !Final(phases[i]) && Final(q)
    ensures q in phases[i := p] <==> p == q || q in phases
  {
    if p == q { assert phases[i := p][i] == q; }
    if q in phases {
      var j :| 0 <= j < |phases| && phases[j] == q;
      assert phases[i := p][j] == q;
    }
  }

  lemma MoveSound(problems: seq<string>, width: nat, found: Disk, s: State, ev: Event)
    requires NoDup(problems) && Sound(problems, width, found, s) && Enabled(s, ev)
    requires ev.Begin? || ev.HitFatal? || ev.Fail? || ev.Cancel?
    ensures Sound(problems, width, found, Next(s, ev))
  {
    var i, p := ev.i, Next(s, ev).phases[ev.i];
    CountUpdate(s.phases, i, p);
    PhaseExists(s.phases, i, p, FatallyEnded);
    PhaseExists(s.phases, i, p, Failed);
    PhaseExists(s.phases, i, p, Cancelled);
  }

  lemma StepSound(problems: seq<string>, width: nat, found: Disk, s: State, ev: Event)
    requires NoDup(problems) && Sound(problems, width, found, s) && Enabled(s, ev)
    ensures Sound(problems, width, found, Next(s, ev))
  {
    match ev
    case Finish(i) => FinishSound(problems, width, found, s, i);
    case Tear(_) =>
    case RequestStop =>
    case Look(_) =>
    case _ => MoveSound(problems, width, found, s, ev);
  }

  lemma {:induction false} RunSound(problems: seq<string>, width: nat, found: Disk, s: State, run: seq<Event>)
    requires NoDup(problems) && Sound(problems, width, found, s) && Legal(s, run)
    ensures Sound(problems, width, found, Exec(s, run))
    decreases run
  {
    if run != [] {
      StepSound(problems, width, found, s, run[0]);
      RunSound(problems, width, found, Next(s, run[0]), run[1..]);
    }
  }

  // ---- one launch -------------------------------------------------------------------------------

  /** No more problems run at once than configured, at any moment of any launch. */
  lemma ProblemsInFlight(problems: seq<string>, width: nat, disk: Disk, run: seq<Event>)
    requires NoDup(problems) && NoDup(disk.results) && Legal(Launch(problems, width, disk), run)
    ensures CountRunning(Exec(Launch(problems, width, disk), run).phases) <= width
  {
    LaunchSound(problems, width, disk);
    RunSound(problems, width, disk, Launch(problems, width, disk), run);
  }

  /**
   * A launch that was not asked to stop exits with 0 exactly when every problem has its result; otherwise a problem
   * met a fatal request error or failed.
   */
  lemma ExitZeroMeansFinished(problems: seq<string>, width: nat, disk: Disk, run: seq<Event>)
    requires NoDup(problems) && NoDup(disk.results) && Legal(Launch(problems, width, disk), run)
    requires var s := Exec(Launch(problems, width, disk), run); Over(s) && !s.asked
    ensures var s := Exec(Launch(problems, width, disk), run);
      && (ExitCode(s) == 0 <==> forall p :: p in problems ==> p in s.disk.results)
      && (ExitCode(s) != 0 <==> FatallyEnded in s.phases || Failed in s.phases)
  {
    LaunchSound(problems, width, disk);
    RunSound(problems, width, disk, Launch(problems, width, disk), run);
    TodoMembers(problems, disk.results);
    var s := Exec(Launch(problems, width, disk), run);
    if ExitCode(s) == 0 {
      AllWritten(problems, width, disk, s);
    } else {
      var i :| 0 <= i < |s.phases| && (s.phases[i] == FatallyEnded || s.phases[i] == Failed);
      assert s.todo[i] in s.todo && s.todo[i] !in s.disk.results;
    }
  }

  lemma AllWritten(problems: seq<string>, width: nat, disk: Disk, s: State)
    requires Sound(problems, width, disk, s) && Over(s) && !s.asked && ExitCode(s) == 0
    ensures forall p :: p in problems ==> p in s.disk.results
  {
    assert !s.stop && !s.fatal;
    forall i | 0 <= i < |s.phases| ensures s.phases[i] == Written {
      assert Final(s.phases[i]) && s.phases[i] != Failed && s.phases[i] != FatallyEnded && s.phases[i] != Cancelled;
    }
    AllOrNot(problems, width, disk, s);
  }

  /** Once the main loop has ended, a task that is over stays so and nothing more is logged. */
  ghost predicate ClosedAfter(s: State, s': State) {
    && s'.closing && s'.disk == s.disk && |s'.phases| == |s.phases| && s'.todo == s.todo
    && s'.fatal == s.fatal && s'.exitCode == s.exitCode
    && forall i :: 0 <= i < |s.phases| ==> (Final(s.phases[i]) ==> s'.phases[i] == s.phases[i]) && (!Final(s.phases[i]) ==> s'.phases[i] != Written)
  }

  lemma {:induction false} ClosedRun(s: State, run: seq<Event>)
    requires Legal(s, run) && s.closing
    ensures ClosedAfter(s, Exec(s, run))
    decreases run
  {
    if run != [] {
      ClosedRun(Next(s, run[0]), run[1..]);
    }
  }

  /**
   * Any launch, stopped or not: at the turn of the main loop that ends it, every task has written its result exactly
   * when, in the end, every problem has its result; and then the exit code is 0.
   */
  lemma FinishedMeansAllWrittenAtTheEnd(problems: seq<string>, width: nat, disk: Disk, before: seq<Event>, saw: bool, later: seq<Event>)
    requires NoDup(problems) && NoDup(disk.results) && Legal(Launch(problems, width, disk), before)
    requires var u := Exec(Launch(problems, width, disk), before);
      Enabled(u, Look(saw)) && Next(u, Look(saw)).closing && Legal(Next(u, Look(saw)), later) && Over(Exec(Next(u, Look(saw)), later))
    ensures var u := Exec(Launch(problems, width, disk), before);
      var s := Exec(Next(u, Look(saw)), later);
      && ((forall p :: p in problems ==> p in s.disk.results) <==> (forall i :: 0 <= i < |u.phases| ==> u.phases[i] == Written))
      && ((forall p :: p in problems ==> p in s.disk.results) ==> ExitCode(s) == 0)
  {
    var u := Exec(Launch(problems, width, disk), before);
    var v := Next(u, Look(saw));
    var s := Exec(v, later);
    LaunchSound(problems, width, disk);
    RunSound(problems, width, disk, Launch(problems, width, disk), before);
    StepSound(problems, width, disk, u, Look(saw));
    RunSound(problems, width, disk, v, later);
    ClosedRun(v, later);
    TodoMembers(problems, disk.results);
    AllOrNot(problems, width, disk, s);
  }

  /** Every problem has its result exactly when every task has written one. */
  lemma AllOrNot(problems: seq<string>, width: nat, disk: Disk, s: State)
    requires Sound(problems, width, disk, s)
    ensures (forall p :: p in problems ==> p in s.disk.results) <==> (forall i :: 0 <= i < |s.phases| ==> s.phases[i] == Written)
    ensures (forall i :: 0 <= i < |s.phases| ==> s.phases[i] == Written) ==> ExitCode(s) == 0
  {
    TodoMembers(problems, disk.results);
    if forall p :: p in problems ==> p in s.disk.results {
      forall i | 0 <= i < |s.phases| ensures s.phases[i] == Written {
        assert s.todo[i] in s.todo;
      }
    }
    if forall i :: 0 <= i < |s.phases| ==> s.phases[i] == Written {
      forall p | p in problems ensures p in s.disk.results {
        if p !in disk.results {
          assert p in s.todo;
          var i :| 0 <= i < |s.todo| && s.todo[i] == p;
        }
      }
    }
  }

  /** After a requested stop, exit code 0 alone says nothing about the problems. */
  lemma StoppedLaunchExitsZero(p: string)
    ensures var s := Launch([p], 1, Disk([], []));
      var run := [RequestStop, Look(true), Cancel(0)];
      Legal(s, run) && Over(Exec(s, run)) && ExitCode(Exec(s, run)) == 0 && Exec(s, run).disk.results == []
  {
    var s := Launch([p], 1, Disk([], []));
    assert Todo([p], []) == [p];
    var s1 := Next(s, RequestStop);
    var s2 := Next(s1, Look(true));
    var s3 := Next(s2, Cancel(0));
    assert Legal(s3, []) && Legal(s2, [Cancel(0)]) && Legal(s1, [Look(true), Cancel(0)]);
    assert [RequestStop, Look(true), Cancel(0)][1..] == [Look(true), Cancel(0)];
    assert [Look(true), Cancel(0)][1..] == [Cancel(0)] && [Cancel(0)][1..] == [];
  }

  /** A turn of the main loop that was not woken by a stop finds a failed task. */
  ghost predicate NoticesFailure(s: State, ev: Event) {
    ev == Look(false) && SomeFailed(s)
  }

  /** A task met a fatal request error, or the main loop noticed a failed one. */
  ghost predicate MeetsTrouble(s: State, run: seq<Event>)
    requires Legal(s, run)
    decreases run
  {
    run != [] && (run[0].HitFatal? || NoticesFailure(s, run[0]) || MeetsTrouble(Next(s, run[0]), run[1..]))
  }

  /**
   * The exit code of any launch: 1 exactly when a task met a fatal request error or a turn not woken by a stop found a
   * failed one, else 0. A failure that a stop overtakes leaves no trace in it.
   */
  lemma {:induction false} ExitCodeMeaning(s: State, run: seq<Event>)
    requires Legal(s, run) && !s.fatal && s.exitCode == 0
    ensures ExitCode(Exec(s, run)) == (if MeetsTrouble(s, run) then 1 else 0)
    decreases run
  {
    if run != [] {
      var next := Next(s, run[0]);
      if run[0].HitFatal? || NoticesFailure(s, run[0]) {
        TroubleStays(next, run[1..]);
      } else {
        ExitCodeMeaning(next, run[1..]);
      }
    }
  }

  lemma {:induction false} TroubleStays(s: State, run: seq<Event>)
    requires Legal(s, run) && (s.fatal || s.exitCode == 1)
    ensures ExitCode(Exec(s, run)) == 1
    decreases run
  {
    if run != [] { TroubleStays(Next(s, run[0]), run[1..]); }
  }

  /** A stop, or a fatal error of any task, ends the main loop at its next turn at the latest, whatever happens before that turn. */
  lemma {:induction false} StopEndsTheLoop(s: State, run: seq<Event>, saw: bool)
    requires Legal(s, run) && s.stop && Enabled(Exec(s, run), Look(saw))
    ensures Next(Exec(s, run), Look(saw)).closing
    decreases run
  {
    if run != [] { StopEndsTheLoop(Next(s, run[0]), run[1..], saw); }
  }

  lemma FatalEndsTheLoop(s: State, i: nat, run: seq<Event>, saw: bool)
    requires Enabled(s, HitFatal(i)) && Legal(Next(s, HitFatal(i)), run) && Enabled(Exec(Next(s, HitFatal(i)), run), Look(saw))
    ensures Next(Exec(Next(s, HitFatal(i)), run), Look(saw)).closing
  {
    StopEndsTheLoop(Next(s, HitFatal(i)), run, saw);
  }

  // ---- the two logs over all launches ------------------------------------------------------------

  /** What a launch leaves behind: both logs, and the problem it tore if it died between two appends. */
  datatype Left = Left(disk: Disk, torn: seq<string>)

  function Tears(s: State): seq<string> {
    if s.torn.Some? then [s.torn.value] else []
  }

  ghost predicate LegalHistory(problems: seq<string>, width: nat, disk: Disk, launches: seq<seq<Event>>)
    decreases launches
  {
    launches == [] ||
    (Legal(Launch(problems, width, disk), launches[0]) &&
     LegalHistory(problems, width, Exec(Launch(problems, width, disk), launches[0]).disk, launches[1..]))
  }

  ghost function After(problems: seq<string>, width: nat, disk: Disk, launches: seq<seq<Event>>): Left
    requires LegalHistory(problems, width, disk, launches)
    decreases launches
  {
    if launches == [] then Left(disk, [])
    else
      var s := Exec(Launch(problems, width, disk), launches[0]);
      var rest := After(problems, width, s.disk, launches[1..]);
      Left(rest.disk, Tears(s) + rest.torn)
  }

  /** Every submission is paired with a result, but for the torn ones. */
  ghost predicate Paired(disk: Disk, torn: seq<string>) {
    multiset(disk.submissions) == multiset(disk.results) + multiset(torn)
  }

  /** What a step appends to the submissions, the results and the torn problems. */
  lemma StepAppends(s: State, ev: Event) returns (submitted: seq<string>, finished: seq<string>, tears: seq<string>)
    requires Enabled(s, ev)
    ensures var s' := Next(s, ev);
      && s'.disk == Disk(s.disk.results + finished, s.disk.submissions + submitted) && Tears(s') == tears
      && ((submitted == finished && tears == []) || (finished == [] && submitted == tears))
  {
    submitted, finished, tears := [], [], [];
    if ev.Finish? {
      submitted, finished := [s.todo[ev.i]], [s.todo[ev.i]];
    } else if ev.Tear? {
      submitted, tears := [s.todo[ev.i]], [s.todo[ev.i]];
    }
  }

  lemma PairBoth(disk: Disk, torn: seq<string>, more: seq<string>)
    requires Paired(disk, torn)
    ensures Paired(Disk(disk.results + more, disk.submissions + more), torn)
  {
  }

  lemma PairTorn(disk: Disk, torn: seq<string>, more: seq<string>)
    requires Paired(disk, torn)
    ensures Paired(Disk(disk.results, disk.submissions + more), torn + more)
  {
  }

  lemma StepPairs(s: State, ev: Event, torn: seq<string>)
    requires Enabled(s, ev) && Paired(s.disk, torn)
    ensures var s' := Next(s, ev); Paired(s'.disk, torn + Tears(s'))
  {
    var submitted, finished, tears := StepAppends(s, ev);
    if tears == [] {
      PairBoth(s.disk, torn, submitted);
      assert torn + [] == torn;
    } else {
      PairTorn(s.disk, torn, submitted);
      assert s.disk.results + [] == s.disk.results;
    }
  }

  lemma {:induction false} RunPairs(s: State, run: seq<Event>, torn: seq<string>)
    requires Legal(s, run) && s.torn.None? && Paired(s.disk, torn)
    ensures Paired(Exec(s, run).disk, torn + Tears(Exec(s, run)))
    decreases run
  {
    if run == [] {
      assert torn + [] == torn;
    } else {
      var s' := Next(s, run[0]);
      StepPairs(s, run[0], torn);
      if s'.torn.None? {
        assert torn + [] == torn;
        RunPairs(s', run[1..], torn);
      } else {
        NothingAfterTear(s', run[1..]);
      }
    }
  }

  /** A process that died takes no further step. */
  lemma NothingAfterTear(s: State, run: seq<Event>)
    requires Legal(s, run) && s.torn.Some?
    ensures run == []
  {
    if run != [] { assert false; }
  }

  lemma {:induction false} HistoryPairs(problems: seq<string>, width: nat, disk: Disk, launches: seq<seq<Event>>, torn: seq<string>)
    requires LegalHistory(problems, width, disk, launches) && Paired(disk, torn)
    ensures var left := After(problems, width, disk, launches); Paired(left.disk, torn + left.torn)
    decreases launches
  {
    if launches == [] {
      assert torn + [] == torn;
    } else {
      var s := Exec(Launch(problems, width, disk), launches[0]);
      RunPairs(Launch(problems, width, disk), launches[0], torn);
      HistoryPairs(problems, width, s.disk, launches[1..], torn + Tears(s));
      Assoc(torn, Tears(s), After(problems, width, s.disk, launches[1..]).torn);
    }
  }

  lemma {:induction false} HistoryResults(problems: seq<string>, width: nat, disk: Disk, launches: seq<seq<Event>>)
    requires NoDup(problems) && NoDup(disk.results) && LegalHistory(problems, width, disk, launches)
    ensures NoDup(After(problems, width, disk, launches).disk.results)
    decreases launches
  {
    if launches != [] {
      var s := Launch(problems, width, disk);
      LaunchSound(problems, width, disk);
      RunSound(problems, width, disk, s, launches[0]);
      HistoryResults(problems, width, Exec(s, launches[0]).disk, launches[1..]);
    }
  }

  lemma {:induction false} CountsInNoDup(xs: seq<string>)
    ensures NoDup(xs) <==> forall x :: multiset(xs)[x] <= 1
  {
    if xs != [] {
      var front, last := xs[..|xs| - 1], xs[|xs| - 1];
      CountsInNoDup(front);
      assert xs == front + [last];
      assert multiset(xs) == multiset(front) + multiset{last};
      if NoDup(xs) {
        assert last !in front;
        assert last !in multiset(front);
      }
      if forall x :: multiset(xs)[x] <= 1 {
        assert multiset(xs)[last] <= 1;
        assert last !in multiset(front) && last !in front;
        assert forall x :: multiset(front)[x] <= multiset(xs)[x];
        NoDupAppend(front, last);
      }
    }
  }

  /**
   * Over any history of launches, cancellations and crashes from empty logs: no problem has two results; every result
   * has its submission; and the submissions are the results and the problems a crash tore. So they hold each problem
   * once exactly when the torn problems differ from one another and have no result.
   */
  lemma LogsStayPaired(problems: seq<string>, width: nat, launches: seq<seq<Event>>)
    requires NoDup(problems) && LegalHistory(problems, width, Disk([], []), launches)
    ensures var left := After(problems, width, Disk([], []), launches);
      && NoDup(left.disk.results) && Paired(left.disk, left.torn)
      && (forall p :: p in left.disk.results ==> p in left.disk.submissions)
      && (NoDup(left.disk.submissions) <==> NoDup(left.torn) && forall p :: p in left.torn ==> p !in left.disk.results)
  {
    var left := After(problems, width, Disk([], []), launches);
    HistoryResults(problems, width, Disk([], []), launches);
    HistoryPairs(problems, width, Disk([], []), launches, []);
    assert [] + left.torn == left.torn;
    PairedMembers(left.disk, left.torn);
    PairedOnce(left.disk, left.torn);
  }

  lemma PairedMembers(disk: Disk, torn: seq<string>)
    requires Paired(disk, torn)
    ensures forall p :: p in disk.results ==> p in disk.submissions
  {
    forall p | p in disk.results ensures p in disk.submissions {
      assert p in multiset(disk.results);
      assert p in multiset(disk.submissions);
    }
  }

  lemma PairedOnce(disk: Disk, torn: seq<string>)
    requires Paired(disk, torn) && NoDup(disk.results)
    ensures NoDup(disk.submissions) <==> NoDup(torn) && forall p :: p in torn ==> p !in disk.results
  {
    CountsInNoDup(disk.submissions);
    CountsInNoDup(torn);
    CountsInNoDup(disk.results);
    assert forall p :: multiset(disk.submissions)[p] == multiset(disk.results)[p] + multiset(torn)[p];
    if NoDup(disk.submissions) {
      forall p | p in torn ensures p !in disk.results {
        assert multiset(torn)[p] >= 1;
        assert p !in multiset(disk.results);
      }
    }
    if NoDup(torn) && forall p :: p in torn ==> p !in disk.results {
      forall p ensures multiset(disk.submissions)[p] <= 1 {
        if p in torn { assert p !in multiset(disk.results); } else { assert p !in multiset(torn); }
      }
    }
  }

  /** A crash between the two appends does duplicate a submission: the next launch runs the problem again. */
  lemma TornSubmissionRepeats(p: string)
    ensures var torn, whole := [Begin(0), Tear(0)], [Begin(0), Finish(0)];
      && LegalHistory([p], 1, Disk([], []), [torn, whole])
      && After([p], 1, Disk([], []), [torn, whole]).disk == Disk([p], [p, p])
  {
    var d0, d1 := Disk([], []), Disk([], [p]);
    var torn, whole := [Begin(0), Tear(0)], [Begin(0), Finish(0)];
    assert Todo([p], []) == [p];
    TwoSteps(p, d0, Tear(0));
    TwoSteps(p, d1, Finish(0));
    assert [torn, whole][1..] == [whole] && [whole][1..] == [];
    assert Exec(Launch([p], 1, d0), torn).disk == d1;
    assert Exec(Launch([p], 1, d1), whole).disk == Disk([p], [p, p]);
    assert LegalHistory([p], 1, Disk([p], [p, p]), []);
    assert LegalHistory([p], 1, d1, [whole]);
    assert After([p], 1, d1, [whole]).disk == After([p], 1, Disk([p], [p, p]), []).disk;
    assert After([p], 1, d0, [torn, whole]).disk == After([p], 1, d1, [whole]).disk;
  }

  lemma TwoSteps(p: string, d: Disk, last: Event)
    requires d.results == [] && (last == Tear(0) || last == Finish(0))
    ensures Legal(Launch([p], 1, d), [Begin(0), last])
    ensures Exec(Launch([p], 1, d), [Begin(0), last]).disk ==
      if last == Tear(0) then Disk([], d.submissions + [p]) else Disk([p], d.submissions + [p])
  {
    var s := Launch([p], 1, d);
    assert Todo([p], []) == [p];
    var s1 := Next(s, Begin(0));
    var s2 := Next(s1, last);
    assert [Begin(0), last][1..] == [last] && [last][1..] == [];
    assert Legal(s2, []) && Legal(s1, [last]);
    assert Exec(s1, [last]) == s2;
  }

  // ---- exactly when a launch repeats a submission ----------------------------------------------------

  /** The problems this launch has finished or torn. */
  predicate Logged(s: State, p: string) {
    exists i :: 0 <= i < |s.todo| && i < |s.phases| && s.todo[i] == p && (s.phases[i] == Written || s.torn == Some(p))
  }

  /** What the launch has submitted so far: the problems it finished or tore, each once. */
  ghost predicate Submitted(found: Disk, s: State, added: seq<string>) {
    && s.disk.submissions == found.submissions + added && NoDup(added) && |s.phases| == |s.todo|
    && forall p :: p in added <==> Logged(s, p)
  }

  lemma LaunchSubmitted(problems: seq<string>, width: nat, disk: Disk)
    ensures Submitted(disk, Launch(problems, width, disk), [])
  {
    assert disk.submissions + [] == disk.submissions;
  }

  /** A step that writes nothing changes no task to or from written. */
  lemma SubmittedKept(found: Disk, s: State, s': State, added: seq<string>)
    requires Submitted(found, s, added) && s'.todo == s.todo && |s'.phases| == |s.phases| && s.torn.None? && s'.torn.None?
    requires s'.disk.submissions == s.disk.submissions
    requires forall i :: 0 <= i < |s.phases| ==> (s'.phases[i] == Written <==> s.phases[i] == Written)
    ensures Submitted(found, s', added)
  {
    forall p ensures p in added <==> Logged(s', p) {
      assert Logged(s, p) <==> Logged(s', p);
    }
  }

  lemma SubmitOne(found: Disk, s: State, s': State, added: seq<string>, i: nat)
    requires Submitted(found, s, added) && s.torn.None? && NoDup(s.todo) && i < |s.todo| && s.phases[i] == Running
    requires s'.todo == s.todo && |s'.phases| == |s.phases| && s'.disk.submissions == s.disk.submissions + [s.todo[i]]
    requires (s'.phases[i] == Written && s'.torn.None?) || s'.torn == Some(s.todo[i])
    requires forall j :: 0 <= j < |s.phases| && j != i ==> s'.phases[j] == s.phases[j]
    ensures Submitted(found, s', added + [s.todo[i]])
  {
    var p := s.todo[i];
    assert !Logged(s, p);
    NoDupAppend(added, p);
    Assoc(found.submissions, added, [p]);
    forall q ensures q in added + [p] <==> Logged(s', q) {
      if q == p {
        assert s'.todo[i] == p;
      } else if Logged(s, q) {
        var j :| 0 <= j < |s.todo| && s.todo[j] == q && s.phases[j] == Written;
        assert s'.todo[j] == q && s'.phases[j] == Written;
      }
    }
  }

  lemma {:induction false} RunSubmits(found: Disk, s: State, run: seq<Event>, added: seq<string>) returns (all: seq<string>)
    requires Legal(s, run) && Submitted(found, s, added) && NoDup(s.todo) && s.torn.None?
    ensures Submitted(found, Exec(s, run), all) && Exec(s, run).todo == s.todo
    decreases run
  {
    all := added;
    if run != [] {
      var ev, s' := run[0], Next(s, run[0]);
      if ev.Finish? || ev.Tear? {
        SubmitOne(found, s, s', added, ev.i);
        all := added + [s.todo[ev.i]];
      } else {
        SubmittedKept(found, s, s', added);
      }
      if s'.torn.None? {
        all := RunSubmits(found, s', run[1..], all);
      } else {
        NothingAfterTear(s', run[1..]);
      }
    }
  }

  /**
   * Given the logs it finds, a launch repeats a submission exactly when it finishes or tears a problem that is already
   * among the submissions.
   */
  lemma RepeatsWhatWasTorn(problems: seq<string>, width: nat, disk: Disk, run: seq<Event>)
    requires NoDup(problems) && NoDup(disk.submissions) && Legal(Launch(problems, width, disk), run)
    ensures var s := Exec(Launch(problems, width, disk), run);
      && (NoDup(s.disk.submissions) <==> forall p :: p in disk.submissions ==> !Logged(s, p))
      && (forall p :: Logged(s, p) ==> p in problems && p !in disk.results)
  {
    TodoNoDup(problems, disk.results);
    TodoMembers(problems, disk.results);
    LaunchSubmitted(problems, width, disk);
    var all := RunSubmits(disk, Launch(problems, width, disk), run, []);
    var s := Exec(Launch(problems, width, disk), run);
    JoinedOnce(disk.submissions, all);
    forall p | Logged(s, p) ensures p in s.todo {
    }
  }

  lemma JoinedOnce(a: seq<string>, b: seq<string>)
    requires NoDup(a) && NoDup(b)
    ensures NoDup(a + b) <==> forall x :: x in a ==> x !in b
  {
    if forall x :: x in a ==> x !in b {
      NoDupConcat(a, b);
    } else {
      var x :| x in a && x in b;
      var i :| 0 <= i < |a| && a[i] == x;
      var j :| 0 <= j < |b| && b[j] == x;
      assert (a + b)[i] == (a + b)[|a| + j];
    }
  }

  /** Every problem submitted before this launch has its result. */
  ghost predicate NothingTorn(problems: seq<string>, disk: Disk) {
    forall p :: p in problems && p in disk.submissions ==> p in disk.results
  }

  /** From logs with a torn problem some run repeats: the one that finishes it. */
  lemma TornLogsRepeat(problems: seq<string>, width: nat, disk: Disk, p: string) returns (run: seq<Event>)
    requires width > 0 && p in problems && p in disk.submissions && p !in disk.results
    ensures Legal(Launch(problems, width, disk), run)
    ensures !NoDup(Exec(Launch(problems, width, disk), run).disk.submissions)
  {
    var s := Launch(problems, width, disk);
    TodoMembers(problems, disk.results);
    var i :| 0 <= i < |s.todo| && s.todo[i] == p;
    var k :| 0 <= k < |disk.submissions| && disk.submissions[k] == p;
    run := [Begin(i), Finish(i)];
    var s1 := Next(s, Begin(i));
    var s2 := Next(s1, Finish(i));
    assert run[1..] == [Finish(i)] && [Finish(i)][1..] == [];
    assert Legal(s2, []) && Legal(s1, [Finish(i)]) && Exec(s1, [Finish(i)]) == s2;
    assert s2.disk.submissions[k] == s2.disk.submissions[|disk.submissions|] == p;
  }

  /**
   * So, from the logs alone: some run of the launch repeats a submission exactly when the logs hold one of its
   * problems submitted but without a result.
   */
  lemma RepeatsExactlyAfterATear(problems: seq<string>, width: nat, disk: Disk)
    requires NoDup(problems) && NoDup(disk.submissions) && width > 0
    ensures NothingTorn(problems, disk) <==>
      forall run :: Legal(Launch(problems, width, disk), run) ==> NoDup(Exec(Launch(problems, width, disk), run).disk.submissions)
  {
    if NothingTorn(problems, disk) {
      forall run | Legal(Launch(problems, width, disk), run) ensures NoDup(Exec(Launch(problems, width, disk), run).disk.submissions) {
        RepeatsWhatWasTorn(problems, width, disk, run);
      }
    } else {
      var p :| p in problems && p in disk.submissions && p !in disk.results;
      var run := TornLogsRepeat(problems, width, disk, p);
      assert Legal(Launch(problems, width, disk), run);
    }
  }
}
