/** The request layer (client.py): error classes, the context budget, the retry loop and the per-role lanes. */
module Client {
  import opened Options

  // ---- what a failed call means -------------------------------------------------------

  const PARK_STATUSES: set<int> := {400, 409, 413, 415, 422}
  const FATAL_STATUSES: set<int> := {401, 403, 404}
  const RETRY_STATUSES: set<int> := {408, 429}

  /** A failure as the classifier sees it. */
  datatype Failure = Failure(status: Option<int>, outOfFiles: bool, contextMessage: bool, timeoutOrConnection: bool)

  datatype Kind = Fatal | Park | Retry

  /** `classify_error`. */
  function Classify(f: Failure): Kind {
    if f.outOfFiles then Fatal
    else if f.status.Some? && f.status.value in FATAL_STATUSES then Fatal
    else if (f.status.Some? && f.status.value in PARK_STATUSES) || f.contextMessage then Park
    else if f.timeoutOrConnection then Retry
    else if f.status.Some? && (f.status.value in RETRY_STATUSES || f.status.value >= 500) then Retry
    else Park
  }

  /** A timeout, a lost connection, 408, 429 or a server error, none of which names the context length. */
  ghost predicate Transient(f: Failure) {
    && !f.outOfFiles && !f.contextMessage
    && (f.status.Some? ==> f.status.value !in {400, 401, 403, 404, 409, 413, 415, 422})
    && (f.timeoutOrConnection || (f.status.Some? && (f.status.value == 408 || f.status.value == 429 || f.status.value >= 500)))
  }

  /** Out of file descriptors, bad credentials, or an unknown model or route. */
  ghost predicate Hopeless(f: Failure) {
    f.outOfFiles || f.status == Some(401) || f.status == Some(403) || f.status == Some(404)
  }

  /** Only a transient failure is retried, only a hopeless one ends the run, and every other one parks its request. */
  lemma RetriesAreTransient(f: Failure)
    ensures Classify(f) == Retry <==> Transient(f)
    ensures Classify(f) == Fatal <==> Hopeless(f)
  {
  }

  // ---- the context budget ------------------------------------------------------------------

  datatype Budget = Budget(promptTokens: Option<int>, effective: int, tooLong: bool)

  function Min(a: int, b: int): int {
    if a <= b then a else b
  }

  function Max(a: int, b: int): int {
    if a >= b then a else b
  }

  /** `ContextBudgeter.budget`; `tokens` is the prompt's token count, or nothing without a tokenizer. */
  function BudgetOf(maxTokens: int, maxLen: int, margin: int, tokens: Option<int>): Budget {
    match tokens
    case None => Budget(None, maxTokens, false)
    case Some(t) =>
      var available := maxLen - t - margin;
      Budget(Some(t), Min(maxTokens, Max(0, available)), available <= 0)
  }

  /**
   * With a tokenizer, a request goes out exactly when some completion budget fits beside prompt and margin; it then
   * asks for the largest budget that fits the model and the configured limit. Without one it asks for the limit.
   */
  lemma BudgetIsLargestThatFits(maxTokens: int, maxLen: int, margin: int, t: int, other: int)
    requires maxTokens > 0
    ensures var b := BudgetOf(maxTokens, maxLen, margin, Some(t));
      && (!b.tooLong <==> t + margin + 1 <= maxLen)
      && (!b.tooLong ==> 1 <= b.effective <= maxTokens && t + b.effective + margin <= maxLen)
      && (!b.tooLong && other <= maxTokens && t + other + margin <= maxLen ==> other <= b.effective)
    ensures !BudgetOf(maxTokens, maxLen, margin, None).tooLong && BudgetOf(maxTokens, maxLen, margin, None).effective == maxTokens
  {
  }

  // ---- waiting between attempts ---------------------------------------------------------------

  function Power(n: nat): real {
    if n == 0 then 1.0 else 2.0 * Power(n - 1)
  }

  function MinReal(a: real, b: real): real {
    if a <= b then a else b
  }

  function MaxReal(a: real, b: real): real {
    if a >= b then a else b
  }

  /** `_backoff` after `attempts` attempts; `draw` in 0 to 1 is the random jitter, `retryAfter` a readable header. */
  function Backoff(base: real, cap: real, attempts: nat, draw: real, retryAfter: Option<real>): real {
    var b, c := MaxReal(0.0, base), MaxReal(0.0, cap);
    if retryAfter.Some? then MinReal(c, MaxReal(0.0, retryAfter.value))
    else draw * MinReal(c, b * Power(if attempts == 0 then 0 else attempts - 1))
  }

  lemma {:induction false} PowerPositive(n: nat)
    ensures Power(n) >= 1.0
  {
    if n > 0 { PowerPositive(n - 1); }
  }

  lemma ProductNonNegative(x: real, y: real)
    requires x >= 0.0 && y >= 0.0
    ensures x * y >= 0.0
  {
  }

  lemma Scaled(x: real, y: real, z: real)
    requires 0.0 <= x <= 1.0 && 0.0 <= y <= z
    ensures 0.0 <= x * y <= z
  {
    ProductNonNegative(x, y);
    ProductNonNegative(1.0 - x, y);
    assert (1.0 - x) * y == y - x * y;
  }

  /** Whatever the header says and however many attempts failed, the wait lies between 0 and the cap. */
  lemma BackoffIsCapped(base: real, cap: real, attempts: nat, draw: real, retryAfter: Option<real>)
    requires 0.0 <= draw <= 1.0
    ensures 0.0 <= Backoff(base, cap, attempts, draw, retryAfter) <= MaxReal(0.0, cap)
    ensures retryAfter.None? && attempts > 0 ==> Backoff(base, cap, attempts, draw, retryAfter) <= MaxReal(0.0, base) * Power(attempts - 1)
  {
    var n: nat := if attempts == 0 then 0 else attempts - 1;
    PowerPositive(n);
    var full := MaxReal(0.0, base) * Power(n);
    ProductNonNegative(MaxReal(0.0, base), Power(n));
    Scaled(draw, MinReal(MaxReal(0.0, cap), full), MaxReal(0.0, cap));
    Scaled(draw, MinReal(MaxReal(0.0, cap), full), full);
  }

  /** A readable header is obeyed exactly, brought into the range from 0 to the cap. */
  lemma HeaderIsObeyed(base: real, cap: real, attempts: nat, draw: real, header: real)
    requires cap >= 0.0
    ensures Backoff(base, cap, attempts, draw, Some(header)) == (if header < 0.0 then 0.0 else if header > cap then cap else header)
  {
  }

  lemma DelayIs(base: real, cap: real, n: nat, draw: real, full: real)
    requires base >= 0.0 && cap >= 0.0 && full == base * Power(n)
    ensures Backoff(base, cap, n + 1, draw, None) == draw * MinReal(cap, full)
  {
  }

  lemma One(x: real)
    ensures 1.0 * x == x
  {
  }

  lemma Doubled(base: real, n: nat)
    requires base >= 0.0
    ensures base * Power(n) >= 0.0 && base * Power(n + 1) == 2.0 * (base * Power(n)) && base * Power(0) == base
  {
    PowerPositive(n);
    ProductNonNegative(base, Power(n));
    var p := Power(n);
    assert Power(n + 1) == 2.0 * p;
    assert base * (2.0 * p) == 2.0 * (base * p);
  }

  /** Without a header the wait is the drawn part of a delay that starts at the base, doubles with every attempt and stops at the cap. */
  lemma DelayDoubles(base: real, cap: real, attempts: nat, draw: real)
    requires base >= 0.0 && cap >= 0.0 && attempts > 0
    ensures Backoff(base, cap, 1, 1.0, None) == (if base <= cap then base else cap)
    ensures var delay := Backoff(base, cap, attempts, 1.0, None);
      && Backoff(base, cap, attempts + 1, 1.0, None) == (if delay + delay <= cap then delay + delay else cap)
      && Backoff(base, cap, attempts, draw, None) == draw * delay
  {
    var n := attempts - 1;
    Doubled(base, n);
    var full := base * Power(n);
    DelayIs(base, cap, n, 1.0, full);
    DelayIs(base, cap, n, draw, full);
    DelayIs(base, cap, n + 1, 1.0, full + full);
    DelayIs(base, cap, 0, 1.0, base);
    One(MinReal(cap, full));
    One(MinReal(cap, full + full));
    One(MinReal(cap, base));
  }

  // ---- the retry loop ---------------------------------------------------------------------------

  datatype Call<T> = Completed(value: T) | Failed(failure: Failure)

  datatype Answer<T> = Replied(reply: T) | ParkedDeterministic | RetryExhausted | FatalError | PromptTooLong

  /**
   * One logical request: what each attempt gives, counted from 1, and the clock when it has failed. `window` is the
   * retry window and `started` the clock at the start.
   */
  datatype Request<T(!new)> = Request(tooLong: bool, call: nat -> Call<T>, clock: nat -> int, started: int, window: int)

  /** Attempt `k` failed transiently inside the window, so another follows. */
  predicate Again<T(!new)>(r: Request<T>, k: nat) {
    r.call(k).Failed? && Classify(r.call(k).failure) == Retry && r.clock(k) - r.started < r.window
  }

  /** What the caller gets when attempt `k` is the last. */
  function Verdict<T(!new)>(r: Request<T>, k: nat): Answer<T> {
    match r.call(k)
    case Completed(v) => Replied(v)
    case Failed(f) => match Classify(f) case Fatal => FatalError case Park => ParkedDeterministic case Retry => RetryExhausted
  }

  /** At some attempt the clock shows that the window is over. */
  ghost predicate Leaves(clock: nat -> int, started: int, window: int) {
    exists k: nat :: k >= 1 && clock(k) - started >= window
  }

  /** Some attempt is the last, whatever decides it. */
  ghost predicate Ends<T(!new)>(r: Request<T>) {
    exists k: nat :: k >= 1 && !Again(r, k)
  }

  /**
   * `request`: attempts follow one another only after transient failures inside the window, and the first attempt that
   * is anything else decides. The loop ends because the clock leaves the window at some attempt.
   */
  method Send<T(!new)>(r: Request<T>) returns (answer: Answer<T>, attempts: nat)
    requires r.tooLong || Leaves(r.clock, r.started, r.window)
    ensures r.tooLong ==> answer == PromptTooLong && attempts == 0
    ensures !r.tooLong ==>
      attempts >= 1 && (forall k :: 1 <= k < attempts ==> Again(r, k)) && !Again(r, attempts) && answer == Verdict(r, attempts)
  {
    if r.tooLong {
      return PromptTooLong, 0;
    }
    attempts := 0;
    ghost var last: nat :| last >= 1 && r.clock(last) - r.started >= r.window;
    while true
      invariant forall k :: 1 <= k <= attempts ==> Again(r, k)
      invariant attempts < last
      decreases last - attempts
    {
      attempts := attempts + 1;
      match r.call(attempts)
      case Completed(v) => return Replied(v), attempts;
      case Failed(f) =>
        match Classify(f) {
          case Fatal => return FatalError, attempts;
          case Park => return ParkedDeterministic, attempts;
          case Retry =>
        }
      if r.clock(attempts) - r.started >= r.window {
        return RetryExhausted, attempts;
      }
    }
  }

  /** What the attempts of a request mean, by what the server said: when another follows, and which answer the last gives. */
  lemma AnswersByFailure<T(!new)>(r: Request<T>, k: nat)
    ensures Again(r, k) <==> r.call(k).Failed? && Transient(r.call(k).failure) && r.clock(k) - r.started < r.window
    ensures r.call(k).Completed? ==> Verdict(r, k) == Replied(r.call(k).value)
    ensures r.call(k).Failed? && Hopeless(r.call(k).failure) ==> Verdict(r, k) == FatalError
    ensures r.call(k).Failed? && Transient(r.call(k).failure) ==> Verdict(r, k) == RetryExhausted
    ensures r.call(k).Failed? && !Hopeless(r.call(k).failure) && !Transient(r.call(k).failure) ==> Verdict(r, k) == ParkedDeterministic
  {
    if r.call(k).Failed? { RetriesAreTransient(r.call(k).failure); }
  }

  /** The deciding attempt is unique, so the answer is a function of what the attempts give. */
  lemma OneDecidingAttempt<T(!new)>(r: Request<T>, a: nat, b: nat)
    requires a >= 1 && (forall k :: 1 <= k < a ==> Again(r, k)) && !Again(r, a)
    requires b >= 1 && (forall k :: 1 <= k < b ==> Again(r, k)) && !Again(r, b)
    ensures a == b
  {
    assert a < b ==> Again(r, a);
    assert b < a ==> Again(r, b);
  }

  /** Each failed attempt, with the wait after it, takes a tick of the clock. */
  ghost predicate TimePasses<T(!new)>(r: Request<T>) {
    forall k: nat :: r.clock(k + 1) >= r.clock(k) + 1
  }

  lemma {:induction false} ClockRuns<T(!new)>(r: Request<T>, k: nat)
    requires TimePasses(r)
    ensures r.clock(k) >= r.clock(0) + k
  {
    if k > 0 {
      ClockRuns(r, k - 1);
      assert r.clock(k - 1 + 1) >= r.clock(k - 1) + 1;
    }
  }

  /** A clock that ticks at every attempt leaves any window. */
  lemma {:induction false} TickingClockLeaves<T(!new)>(r: Request<T>)
    requires TimePasses(r)
    ensures Leaves(r.clock, r.started, r.window)
  {
    var gap := r.window + r.started - r.clock(0);
    var k: nat := if gap >= 1 then gap else 1;
    ClockRuns(r, k);
    assert r.clock(k) - r.started >= r.window;
  }

  /** Then at most one attempt more is made than the window has ticks. */
  lemma AttemptsFitTheWindow<T(!new)>(r: Request<T>, attempts: nat)
    requires TimePasses(r) && r.clock(0) >= r.started && r.window >= 0
    requires attempts >= 1 && forall k :: 1 <= k < attempts ==> Again(r, k)
    ensures attempts <= r.window + 1
  {
    if attempts > 1 {
      assert Again(r, attempts - 1);
      ClockRuns(r, attempts - 1);
    }
  }

  /** Every attempt is refused with status 503. */
  function AlwaysBusy(): nat -> Call<int> {
    k => Failed(Failure(Some(503), false, false, false))
  }

  /** The loop ends whatever the attempts give exactly when the clock leaves the window at some attempt. */
  lemma RetriesEndIffClockLeaves(clock: nat -> int, started: int, window: int)
    ensures Leaves(clock, started, window) <==>
      forall call: nat -> Call<int> :: Ends(Request(false, call, clock, started, window))
  {
    if Leaves(clock, started, window) {
      var k: nat :| k >= 1 && clock(k) - started >= window;
      forall call: nat -> Call<int> ensures Ends(Request(false, call, clock, started, window)) {
        assert !Again(Request(false, call, clock, started, window), k);
      }
    } else {
      var r := Request(false, AlwaysBusy(), clock, started, window);
      forall k: nat | k >= 1 ensures Again(r, k) {
        assert clock(k) - started < window;
      }
      assert !Ends(r);
    }
  }

  /** For one, a clock that stands still: transient failures are retried for ever. */
  lemma StandingClockRetriesForever(k: nat)
    ensures Again(Request(false, AlwaysBusy(), n => 0, 0, 1), k)
  {
  }

  // ---- lanes --------------------------------------------------------------------------------------

  /** Where a request of the role stands. */
  datatype Phase = Queued | Calling | Sleeping | Over

  /** One role's lane: `free` is the semaphore's counter. */
  datatype Lane = Lane(free: nat, phases: seq<Phase>)

  datatype Move = Enter(i: nat) | Reply(i: nat) | GiveUp(i: nat) | Back(i: nat) | Wake(i: nat) | Cancel(i: nat)

  function Inside(phases: seq<Phase>): nat {
    if phases == [] then 0 else Inside(phases[..|phases| - 1]) + (if phases[|phases| - 1] == Calling then 1 else 0)
  }

  predicate Possible(l: Lane, m: Move) {
    match m
    case Enter(i) => i < |l.phases| && l.phases[i] == Queued && l.free > 0
    case Reply(i) => i < |l.phases| && l.phases[i] == Calling
    case GiveUp(i) => i < |l.phases| && l.phases[i] == Calling
    case Back(i) => i < |l.phases| && l.phases[i] == Calling
    case Wake(i) => i < |l.phases| && l.phases[i] == Sleeping
    case Cancel(i) => i < |l.phases| && l.phases[i] != Over
  }

  /** A call holds the lane only while it is in flight: every way out of a call, and no other step, frees a place. */
  function Moved(l: Lane, m: Move): Lane
    requires Possible(l, m)
  {
    match m
    case Enter(i) => Lane(l.free - 1, l.phases[i := Calling])
    case Reply(i) => Lane(l.free + 1, l.phases[i := Over])
    case GiveUp(i) => Lane(l.free + 1, l.phases[i := Over])
    case Back(i) => Lane(l.free + 1, l.phases[i := Sleeping])
    case Wake(i) => Lane(l.free, l.phases[i := Queued])
    case Cancel(i) => Lane(if l.phases[i] == Calling then l.free + 1 else l.free, l.phases[i := Over])
  }

  lemma {:induction false} InsideUpdate(phases: seq<Phase>, i: nat, p: Phase)
    requires i < |phases|
    ensures Inside(phases[i := p]) + (if phases[i] == Calling then 1 else 0) == Inside(phases) + (if p == Calling then 1 else 0)
  {
    var n := |phases| - 1;
    if i == n {
      assert phases[i := p][..n] == phases[..n];
    } else {
      InsideUpdate(phases[..n], i, p);
      assert phases[i := p][..n] == phases[..n][i := p];
    }
  }

  ghost predicate LegalMoves(l: Lane, run: seq<Move>)
    decreases run
  {
    run == [] || (Possible(l, run[0]) && LegalMoves(Moved(l, run[0]), run[1..]))
  }

  ghost function AfterMoves(l: Lane, run: seq<Move>): Lane
    requires LegalMoves(l, run)
    decreases run
  {
    if run == [] then l else AfterMoves(Moved(l, run[0]), run[1..])
  }

  /**
   * Over any run of any number of requests, replies, retries and cancellations, no more calls are in flight than the
   * lane is wide, and the lane is never leaked: it is free exactly up to the calls in flight.
   */
  lemma {:induction false} LaneIsNeverExceeded(l: Lane, run: seq<Move>, width: nat)
    requires LegalMoves(l, run) && l.free + Inside(l.phases) == width
    ensures var l' := AfterMoves(l, run); Inside(l'.phases) <= width && l'.free + Inside(l'.phases) == width
    decreases run
  {
    if run != [] {
      var m := run[0];
      InsideUpdate(l.phases, m.i, Moved(l, m).phases[m.i]);
      LaneIsNeverExceeded(Moved(l, m), run[1..], width);
    }
  }

  lemma {:induction false} NobodyInside(phases: seq<Phase>)
    requires forall i :: 0 <= i < |phases| ==> phases[i] != Calling
    ensures Inside(phases) == 0
  {
    if phases != [] { NobodyInside(phases[..|phases| - 1]); }
  }

  /** A lane never deadlocks: while some request is not over, some step other than a cancellation is possible. */
  lemma LaneNeverStuck(l: Lane, width: nat, i: nat) returns (m: Move)
    requires width > 0 && l.free + Inside(l.phases) == width && i < |l.phases| && l.phases[i] != Over
    ensures Possible(l, m) && !m.Cancel?
  {
    if j :| 0 <= j < |l.phases| && l.phases[j] == Calling {
      m := Reply(j);
    } else {
      NobodyInside(l.phases);
      m := if l.phases[i] == Sleeping then Wake(i) else Enter(i);
    }
  }

  // ---- requests in a shared lane --------------------------------------------------------------------

  /** Requests of one role together: the lane, the attempts each has made, and the answers given. */
  datatype Traffic<T> = Traffic(lane: Lane, attempts: seq<nat>, answers: seq<Option<Answer<T>>>)

  datatype Turn = TakeLane(i: nat) | CallEnds(i: nat) | WakeUp(i: nat) | Cancelled(i: nat)

  function Opening<T(!new)>(reqs: seq<Request<T>>, width: nat): (t: Traffic<T>)
    ensures Sized(reqs, t)
  {
    Traffic(
      Lane(width, seq(|reqs|, i requires 0 <= i < |reqs| => if reqs[i].tooLong then Over else Queued)),
      seq(|reqs|, i => 0),
      seq(|reqs|, i requires 0 <= i < |reqs| => if reqs[i].tooLong then Some(PromptTooLong) else None))
  }

  predicate Sized<T(!new)>(reqs: seq<Request<T>>, t: Traffic<T>) {
    |t.lane.phases| == |reqs| && |t.attempts| == |reqs| && |t.answers| == |reqs|
  }

  /** What a turn does to the lane: a call that fails transiently inside the window goes to sleep, any other ends. */
  function MoveOf<T(!new)>(reqs: seq<Request<T>>, t: Traffic<T>, turn: Turn): Move
    requires Sized(reqs, t) && turn.i < |reqs|
  {
    match turn
    case TakeLane(i) => Enter(i)
    case CallEnds(i) =>
      if Again(reqs[i], t.attempts[i]) then Back(i)
      else if reqs[i].call(t.attempts[i]).Completed? then Reply(i) else GiveUp(i)
    case WakeUp(i) => Wake(i)
    case Cancelled(i) => Cancel(i)
  }

  predicate CanTurn<T(!new)>(reqs: seq<Request<T>>, t: Traffic<T>, turn: Turn) {
    Sized(reqs, t) && turn.i < |reqs| && Possible(t.lane, MoveOf(reqs, t, turn))
  }

  function Turned<T(!new)>(reqs: seq<Request<T>>, t: Traffic<T>, turn: Turn): (r: Traffic<T>)
    requires CanTurn(reqs, t, turn)
    ensures Sized(reqs, r)
  {
    var lane, i := Moved(t.lane, MoveOf(reqs, t, turn)), turn.i;
    match turn
    case TakeLane(_) => Traffic(lane, t.attempts[i := t.attempts[i] + 1], t.answers)
    case CallEnds(_) =>
      if Again(reqs[i], t.attempts[i]) then t.(lane := lane)
      else Traffic(lane, t.attempts, t.answers[i := Some(Verdict(reqs[i], t.attempts[i]))])
    case WakeUp(_) => t.(lane := lane)
    case Cancelled(_) => t.(lane := lane)
  }

  ghost predicate LegalTurns<T(!new)>(reqs: seq<Request<T>>, t: Traffic<T>, run: seq<Turn>)
    decreases run
  {
    run == [] || (CanTurn(reqs, t, run[0]) && LegalTurns(reqs, Turned(reqs, t, run[0]), run[1..]))
  }

  ghost function AfterTurns<T(!new)>(reqs: seq<Request<T>>, t: Traffic<T>, run: seq<Turn>): Traffic<T>
    requires LegalTurns(reqs, t, run)
    decreases run
  {
    if run == [] then t else AfterTurns(reqs, Turned(reqs, t, run[0]), run[1..])
  }

  /** What `Send` promises of an answer reached after `attempts` attempts. */
  ghost predicate AnsweredAsSent<T(!new)>(r: Request<T>, attempts: nat, answer: Answer<T>) {
    && (r.tooLong ==> answer == PromptTooLong && attempts == 0)
    && (!r.tooLong ==> attempts >= 1 && AllAgain(r, attempts) && !Again(r, attempts) && answer == Verdict(r, attempts))
  }

  /** Every attempt before `n` failed transiently inside the window. */
  ghost predicate AllAgain<T(!new)>(r: Request<T>, n: nat) {
    forall k :: 1 <= k < n ==> Again(r, k)
  }

  /** Where a request stands in the loop of `Send`, read from its phase. */
  ghost predicate InItsLoop<T(!new)>(r: Request<T>, phase: Phase, attempts: nat, answer: Option<Answer<T>>) {
    && (phase == Queued || phase == Sleeping ==> !r.tooLong && answer.None? && AllAgain(r, attempts + 1))
    && (phase == Calling ==> !r.tooLong && answer.None? && attempts >= 1 && AllAgain(r, attempts))
    && (answer.Some? ==> phase == Over && AnsweredAsSent(r, attempts, answer.value))
  }

  ghost predicate AllInLoop<T(!new)>(reqs: seq<Request<T>>, t: Traffic<T>) {
    Sized(reqs, t) && forall i :: 0 <= i < |reqs| ==> InItsLoop(reqs[i], t.lane.phases[i], t.attempts[i], t.answers[i])
  }

  lemma TurnInLoop<T(!new)>(reqs: seq<Request<T>>, t: Traffic<T>, turn: Turn)
    requires AllInLoop(reqs, t) && CanTurn(reqs, t, turn)
    ensures AllInLoop(reqs, Turned(reqs, t, turn))
  {
    var u, i := Turned(reqs, t, turn), turn.i;
    assert InItsLoop(reqs[i], t.lane.phases[i], t.attempts[i], t.answers[i]);
    assert InItsLoop(reqs[i], u.lane.phases[i], u.attempts[i], u.answers[i]);
  }

  /**
   * However the requests of a role interleave, at most `width` calls are in flight, a place in the lane is held by a
   * call and by nothing else, sleeping retries included, and every answer is the one `Send` gives that request.
   */
  lemma {:induction false} RequestsShareTheLane<T(!new)>(reqs: seq<Request<T>>, t: Traffic<T>, run: seq<Turn>, width: nat)
    requires LegalTurns(reqs, t, run) && AllInLoop(reqs, t) && t.lane.free + Inside(t.lane.phases) == width
    ensures var u := AfterTurns(reqs, t, run);
      && Sized(reqs, u) && Inside(u.lane.phases) <= width && u.lane.free + Inside(u.lane.phases) == width
      && (forall i :: 0 <= i < |reqs| && u.answers[i].Some? ==> AnsweredAsSent(reqs[i], u.attempts[i], u.answers[i].value))
      && (exists moves :: LegalMoves(t.lane, moves) && AfterMoves(t.lane, moves) == u.lane)
    decreases run
  {
    if run == [] {
      assert LegalMoves(t.lane, []) && AfterMoves(t.lane, []) == t.lane;
      forall i | 0 <= i < |reqs| && t.answers[i].Some? ensures AnsweredAsSent(reqs[i], t.attempts[i], t.answers[i].value) {
        assert InItsLoop(reqs[i], t.lane.phases[i], t.attempts[i], t.answers[i]);
      }
    } else {
      var m, next := MoveOf(reqs, t, run[0]), Turned(reqs, t, run[0]);
      assert LegalMoves(next.lane, []) && LegalMoves(t.lane, [m]) && AfterMoves(t.lane, [m]) == next.lane;
      LaneIsNeverExceeded(t.lane, [m], width);
      TurnInLoop(reqs, t, run[0]);
      RequestsShareTheLane(reqs, next, run[1..], width);
      var rest :| LegalMoves(next.lane, rest) && AfterMoves(next.lane, rest) == AfterTurns(reqs, next, run[1..]).lane;
      var moves := [m] + rest;
      assert moves[0] == m && moves[1..] == rest;
      assert LegalMoves(t.lane, moves) && AfterMoves(t.lane, moves) == AfterMoves(next.lane, rest);
    }
  }

  lemma OpeningInLoop<T(!new)>(reqs: seq<Request<T>>, width: nat)
    ensures AllInLoop(reqs, Opening(reqs, width))
    ensures Opening(reqs, width).lane.free + Inside(Opening(reqs, width).lane.phases) == width
  {
    NobodyInside(Opening(reqs, width).lane.phases);
  }

  /** A request that is over without having been cancelled has its answer. */
  lemma {:induction false} OverMeansAnswered<T(!new)>(reqs: seq<Request<T>>, t: Traffic<T>, run: seq<Turn>, i: nat)
    requires LegalTurns(reqs, t, run) && Sized(reqs, t) && i < |reqs| && Cancelled(i) !in run
    requires t.lane.phases[i] == Over ==> t.answers[i].Some?
    ensures var u := AfterTurns(reqs, t, run);
      Sized(reqs, u) && (u.lane.phases[i] == Over ==> u.answers[i].Some?)
    decreases run
  {
    if run != [] {
      assert run == [run[0]] + run[1..];
      OverMeansAnswered(reqs, Turned(reqs, t, run[0]), run[1..], i);
    }
  }
}
