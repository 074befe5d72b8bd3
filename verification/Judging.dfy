/** Judge slots (selection.py): re-sampling of invalid judgments, and what a relaunch replays of them. */
module Judging {
  import opened Options
  import opened Search
  import opened Identity
  import opened ResumeLedger
  import Scoring
  import Persistence

  const MAX_JUDGMENT_RESAMPLES: nat := 3

  datatype SlotResult = SlotResult(attempts: nat, score: Option<real>, valid: bool, seed: nat)

  /** A persisted judgment of one slot. */
  datatype Judgment = Judgment(attempt: nat, resp: Response)

  /**
   * One slot of one judge: `n` slots in all, `slot` this one. `ask` is what an attempt's request gives, nothing when
   * it is parked; `score` stands for `parse_judge_score` on a complete response and nothing otherwise.
   */
  datatype Slot = Slot(n: nat, slot: nat, ask: nat -> Option<Response>, score: Response -> Option<real>)

  function Seed(s: Slot, attempt: nat): nat {
    s.slot + attempt * s.n
  }

  // ---- the loop as a function of the attempt it has reached -------------------------------

  /** What a run does from some attempt on: its result, the attempts it requests and the rows it writes. */
  datatype Run = Run(result: SlotResult, asked: seq<nat>, written: seq<Judgment>)

  function From(s: Slot, disk: map<nat, Response>, attempt: nat): Run
    requires attempt <= MAX_JUDGMENT_RESAMPLES + 1
    decreases MAX_JUDGMENT_RESAMPLES + 1 - attempt
  {
    if attempt == MAX_JUDGMENT_RESAMPLES + 1 then
      Run(SlotResult(MAX_JUDGMENT_RESAMPLES + 1, None, false, Seed(s, MAX_JUDGMENT_RESAMPLES)), [], [])
    else if attempt in disk then
      if s.score(disk[attempt]).Some? then Run(SlotResult(attempt + 1, s.score(disk[attempt]), true, Seed(s, attempt)), [], [])
      else From(s, disk, attempt + 1)
    else match s.ask(attempt)
      case None => Run(SlotResult(attempt + 1, None, false, Seed(s, attempt)), [attempt], [])
      case Some(resp) =>
        if s.score(resp).Some? then
          Run(SlotResult(attempt + 1, s.score(resp), true, Seed(s, attempt)), [attempt], [Judgment(attempt, resp)])
        else
          var rest := From(s, disk, attempt + 1);
          Run(rest.result, [attempt] + rest.asked, [Judgment(attempt, resp)] + rest.written)
  }

  function Judge(s: Slot, disk: map<nat, Response>): Run {
    From(s, disk, 0)
  }

  /** What a run did before, put in front. */
  function After(asked: seq<nat>, written: seq<Judgment>, rest: Run): Run {
    Run(rest.result, asked + rest.asked, written + rest.written)
  }

  lemma OneMore(asked: seq<nat>, written: seq<Judgment>, attempt: nat, resp: Response, rest: Run)
    ensures After(asked, written, Run(rest.result, [attempt] + rest.asked, [Judgment(attempt, resp)] + rest.written)) ==
      After(asked + [attempt], written + [Judgment(attempt, resp)], rest)
  {
    assert asked + ([attempt] + rest.asked) == (asked + [attempt]) + rest.asked;
    assert written + ([Judgment(attempt, resp)] + rest.written) == (written + [Judgment(attempt, resp)]) + rest.written;
  }

  /** What an attempt that is over and not parked leaves to do. */
  function Onward(s: Slot, disk: map<nat, Response>, attempt: nat, resp: Response): Run
    requires attempt <= MAX_JUDGMENT_RESAMPLES
  {
    if s.score(resp).Some? then Run(SlotResult(attempt + 1, s.score(resp), true, Seed(s, attempt)), [], [])
    else From(s, disk, attempt + 1)
  }

  lemma Replayed(s: Slot, disk: map<nat, Response>, attempt: nat, asked: seq<nat>, written: seq<Judgment>)
    requires attempt <= MAX_JUDGMENT_RESAMPLES && attempt in disk
    ensures After(asked, written, From(s, disk, attempt)) == After(asked, written, Onward(s, disk, attempt, disk[attempt]))
  {
  }

  lemma Answered(s: Slot, disk: map<nat, Response>, attempt: nat, asked: seq<nat>, written: seq<Judgment>, resp: Response)
    requires attempt <= MAX_JUDGMENT_RESAMPLES && attempt !in disk && s.ask(attempt) == Some(resp)
    ensures After(asked, written, From(s, disk, attempt)) ==
      After(asked + [attempt], written + [Judgment(attempt, resp)], Onward(s, disk, attempt, resp))
  {
    OneMore(asked, written, attempt, resp, Onward(s, disk, attempt, resp));
    assert [attempt] + [] == [attempt] && [Judgment(attempt, resp)] + [] == [Judgment(attempt, resp)];
  }

  /** `_judge_slot`. */
  method JudgeSlot(s: Slot, disk: map<nat, Response>) returns (result: SlotResult, asked: seq<nat>, written: seq<Judgment>)
    ensures Run(result, asked, written) == Judge(s, disk)
  {
    asked, written := [], [];
    var seed := s.slot;
    var attempt := 0;
    while attempt < MAX_JUDGMENT_RESAMPLES + 1
      invariant attempt <= MAX_JUDGMENT_RESAMPLES + 1
      invariant attempt > 0 ==> seed == Seed(s, attempt - 1)
      invariant Judge(s, disk) == After(asked, written, From(s, disk, attempt))
    {
      seed := s.slot + attempt * s.n;
      var resp: Response;
      if attempt in disk {
        resp := disk[attempt];
        Replayed(s, disk, attempt, asked, written);
      } else {
        match s.ask(attempt)
        case None => return SlotResult(attempt + 1, None, false, seed), asked + [attempt], written;
        case Some(r) =>
          resp := r;
          Answered(s, disk, attempt, asked, written, resp);
          asked, written := asked + [attempt], written + [Judgment(attempt, resp)];
      }
      assert Judge(s, disk) == After(asked, written, Onward(s, disk, attempt, resp));
      var score := s.score(resp);
      if score.Some? {
        return SlotResult(attempt + 1, score, true, seed), asked, written;
      }
      attempt := attempt + 1;
    }
    result := SlotResult(MAX_JUDGMENT_RESAMPLES + 1, None, false, seed);
  }

  // ---- replay ------------------------------------------------------------------------------

  /** The disk after some rows were appended; the first row of an attempt stays. */
  function Append(disk: map<nat, Response>, rows: seq<Judgment>): map<nat, Response>
    decreases rows
  {
    if rows == [] then disk
    else
      var d := if rows[0].attempt in disk then disk else disk[rows[0].attempt := rows[0].resp];
      Append(d, rows[1..])
  }

  /** Requests go out in order, only for attempts without a row; each answered one is written, in the same order. */
  ghost predicate Orderly(disk: map<nat, Response>, r: Run, attempt: nat) {
    && |r.asked| <= MAX_JUDGMENT_RESAMPLES + 1 - attempt
    && (forall k :: 0 <= k < |r.asked| ==> attempt <= r.asked[k] <= MAX_JUDGMENT_RESAMPLES && r.asked[k] !in disk)
    && (forall j, k :: 0 <= j < k < |r.asked| ==> r.asked[j] < r.asked[k])
    && |r.written| <= |r.asked| <= |r.written| + 1
    && (forall k :: 0 <= k < |r.written| ==> r.written[k].attempt == r.asked[k])
  }

  lemma OneMoreOrderly(disk: map<nat, Response>, attempt: nat, resp: Response, rest: Run)
    requires attempt <= MAX_JUDGMENT_RESAMPLES && attempt !in disk && Orderly(disk, rest, attempt + 1)
    ensures Orderly(disk, Run(rest.result, [attempt] + rest.asked, [Judgment(attempt, resp)] + rest.written), attempt)
  {
  }

  lemma {:induction false} RunOrderly(s: Slot, disk: map<nat, Response>, attempt: nat)
    requires attempt <= MAX_JUDGMENT_RESAMPLES + 1
    ensures Orderly(disk, From(s, disk, attempt), attempt)
    decreases MAX_JUDGMENT_RESAMPLES + 1 - attempt
  {
    if attempt <= MAX_JUDGMENT_RESAMPLES {
      RunOrderly(s, disk, attempt + 1);
      if attempt !in disk && s.ask(attempt).Some? {
        OneMoreOrderly(disk, attempt, s.ask(attempt).value, From(s, disk, attempt + 1));
      }
    }
  }

  /** A run from attempt `a` on reads the disk only from there on. */
  lemma {:induction false} SameFrom(s: Slot, disk: map<nat, Response>, disk': map<nat, Response>, attempt: nat)
    requires attempt <= MAX_JUDGMENT_RESAMPLES + 1
    requires forall a :: attempt <= a <= MAX_JUDGMENT_RESAMPLES ==> (a in disk <==> a in disk') && (a in disk ==> disk[a] == disk'[a])
    ensures From(s, disk', attempt) == From(s, disk, attempt)
    decreases MAX_JUDGMENT_RESAMPLES + 1 - attempt
  {
    if attempt <= MAX_JUDGMENT_RESAMPLES { SameFrom(s, disk, disk', attempt + 1); }
  }

  /** The run resumed with the first `k` rows of `r` on disk. */
  ghost predicate Resumes(s: Slot, disk: map<nat, Response>, attempt: nat, k: nat)
    requires attempt <= MAX_JUDGMENT_RESAMPLES + 1
  {
    var r := From(s, disk, attempt);
    k <= |r.written| && k <= |r.asked| &&
    From(s, Append(disk, r.written[..k]), attempt) == Run(r.result, r.asked[k..], r.written[k..])
  }

  lemma ResumeReplayed(s: Slot, disk: map<nat, Response>, attempt: nat, k: nat)
    requires attempt <= MAX_JUDGMENT_RESAMPLES && attempt in disk
    requires s.score(disk[attempt]).None? ==> Resumes(s, disk, attempt + 1, k)
    requires k <= |From(s, disk, attempt).written| && k <= |From(s, disk, attempt).asked|
    ensures Resumes(s, disk, attempt, k)
  {
    AppendKeeps(disk, From(s, disk, attempt).written[..k], attempt);
  }

  /** The first row of the run goes to disk; the rest resumes from there. */
  lemma ResumeAsked(s: Slot, disk: map<nat, Response>, disk1: map<nat, Response>, attempt: nat, k: nat)
    requires attempt <= MAX_JUDGMENT_RESAMPLES && attempt !in disk && s.ask(attempt).Some? && k > 0
    requires disk1 == disk[attempt := s.ask(attempt).value] && s.score(s.ask(attempt).value).None?
    requires From(s, disk1, attempt + 1) == From(s, disk, attempt + 1) && Resumes(s, disk1, attempt + 1, k - 1)
    ensures Resumes(s, disk, attempt, k)
  {
    var r, rest := From(s, disk, attempt), From(s, disk, attempt + 1);
    assert r.written == [Judgment(attempt, s.ask(attempt).value)] + rest.written && r.asked == [attempt] + rest.asked;
    assert r.written[..k][1..] == rest.written[..k - 1];
    assert Append(disk, r.written[..k]) == Append(disk1, rest.written[..k - 1]);
    AppendKeeps(disk1, rest.written[..k - 1], attempt);
    TailShift(attempt, rest.asked, k);
    TailShift(Judgment(attempt, s.ask(attempt).value), rest.written, k);
  }

  lemma ResumeScored(s: Slot, disk: map<nat, Response>, attempt: nat)
    requires attempt <= MAX_JUDGMENT_RESAMPLES && attempt !in disk && s.ask(attempt).Some? && s.score(s.ask(attempt).value).Some?
    ensures Resumes(s, disk, attempt, 1)
  {
    var r, j := From(s, disk, attempt), Judgment(attempt, s.ask(attempt).value);
    assert r.written[..1] == [j] && [j][1..] == [];
    assert Append(disk, [j]) == disk[attempt := j.resp];
  }

  /** With the first `k` of its rows on disk, a run replays them, and does what is left in the same way. */
  lemma {:induction false} ResumeFrom(s: Slot, disk: map<nat, Response>, attempt: nat, k: nat)
    requires attempt <= MAX_JUDGMENT_RESAMPLES + 1 && k <= |From(s, disk, attempt).written|
    ensures Resumes(s, disk, attempt, k)
    decreases MAX_JUDGMENT_RESAMPLES + 1 - attempt
  {
    var r := From(s, disk, attempt);
    RunOrderly(s, disk, attempt);
    if k == 0 {
      assert r.written[..0] == [] && r.asked[0..] == r.asked && r.written[0..] == r.written;
    } else if attempt in disk {
      if s.score(disk[attempt]).None? { ResumeFrom(s, disk, attempt + 1, k); }
      ResumeReplayed(s, disk, attempt, k);
    } else if s.score(s.ask(attempt).value).Some? {
      ResumeScored(s, disk, attempt);
    } else {
      var disk1 := disk[attempt := s.ask(attempt).value];
      SameFrom(s, disk, disk1, attempt + 1);
      assert |r.written| == 1 + |From(s, disk, attempt + 1).written|;
      ResumeFrom(s, disk1, attempt + 1, k - 1);
      ResumeAsked(s, disk, disk1, attempt, k);
    }
  }

  lemma {:induction false} AppendKeeps(disk: map<nat, Response>, rows: seq<Judgment>, a: nat)
    requires a in disk
    ensures a in Append(disk, rows) && Append(disk, rows)[a] == disk[a]
    decreases rows
  {
    if rows != [] {
      AppendKeeps(if rows[0].attempt in disk then disk else disk[rows[0].attempt := rows[0].resp], rows[1..], a);
    }
  }

  /**
   * Replay: whatever a request gives and wherever the first run dies, resuming from the rows it left gives the result
   * the first run would have given, requests only the attempts it had not saved, and writes only the rows it had not.
   */
  lemma ResumeGivesTheSame(s: Slot, disk: map<nat, Response>, k: nat)
    requires k <= |Judge(s, disk).written|
    ensures |Judge(s, disk).written| <= |Judge(s, disk).asked| <= MAX_JUDGMENT_RESAMPLES + 1
    ensures var r := Judge(s, disk);
      Judge(s, Append(disk, r.written[..k])) == Run(r.result, r.asked[k..], r.written[k..])
    ensures forall a :: a in Judge(s, disk).asked ==> a !in disk
  {
    RunOrderly(s, disk, 0);
    ResumeFrom(s, disk, 0, k);
  }

  /** Launches that die one after another: `left[i]` is how many of its rows launch `i` got to write. */
  ghost predicate Chain(s: Slot, disk: map<nat, Response>, left: seq<nat>)
    decreases left
  {
    left == [] || (left[0] <= |Judge(s, disk).written| && Chain(s, Append(disk, Judge(s, disk).written[..left[0]]), left[1..]))
  }

  ghost function DiskAfter(s: Slot, disk: map<nat, Response>, left: seq<nat>): map<nat, Response>
    requires Chain(s, disk, left)
    decreases left
  {
    if left == [] then disk else DiskAfter(s, Append(disk, Judge(s, disk).written[..left[0]]), left[1..])
  }

  ghost function Total(left: seq<nat>): nat {
    if left == [] then 0 else left[0] + Total(left[1..])
  }

  lemma {:induction false} AppendTwice(disk: map<nat, Response>, a: seq<Judgment>, b: seq<Judgment>)
    ensures Append(Append(disk, a), b) == Append(disk, a + b)
    decreases a
  {
    if a == [] {
      assert a + b == b;
    } else {
      var d := if a[0].attempt in disk then disk else disk[a[0].attempt := a[0].resp];
      assert (a + b)[1..] == a[1..] + b;
      AppendTwice(d, a[1..], b);
    }
  }

  /**
   * Any chain of interrupted launches has written a prefix of what one uninterrupted launch writes, at most four rows
   * in all, and the launch after it still gives the uninterrupted result.
   */
  lemma {:induction false} ChainIsOneRun(s: Slot, disk: map<nat, Response>, left: seq<nat>)
    requires Chain(s, disk, left)
    ensures Total(left) <= |Judge(s, disk).written| <= |Judge(s, disk).asked| <= MAX_JUDGMENT_RESAMPLES + 1
    ensures DiskAfter(s, disk, left) == Append(disk, Judge(s, disk).written[..Total(left)])
    ensures var r := Judge(s, disk);
      Judge(s, DiskAfter(s, disk, left)) == Run(r.result, r.asked[Total(left)..], r.written[Total(left)..])
    decreases left
  {
    if left == [] {
      NoLaunch(s, disk);
    } else {
      var r, k, rest := Judge(s, disk), left[0], left[1..];
      var next := ChainUnfold(s, disk, left);
      ResumeGivesTheSame(s, disk, k);
      ChainIsOneRun(s, next, rest);
      ChainStep(s, disk, r, k, Total(rest));
    }
  }

  lemma ChainUnfold(s: Slot, disk: map<nat, Response>, left: seq<nat>) returns (next: map<nat, Response>)
    requires left != [] && Chain(s, disk, left)
    ensures left[0] <= |Judge(s, disk).written| && next == Append(disk, Judge(s, disk).written[..left[0]])
    ensures Chain(s, next, left[1..]) && DiskAfter(s, disk, left) == DiskAfter(s, next, left[1..]) && Total(left) == left[0] + Total(left[1..])
  {
    next := Append(disk, Judge(s, disk).written[..left[0]]);
  }

  lemma NoLaunch(s: Slot, disk: map<nat, Response>)
    ensures |Judge(s, disk).written| <= |Judge(s, disk).asked| <= MAX_JUDGMENT_RESAMPLES + 1
    ensures disk == Append(disk, Judge(s, disk).written[..0])
    ensures var r := Judge(s, disk); r == Run(r.result, r.asked[0..], r.written[0..])
  {
    ResumeGivesTheSame(s, disk, 0);
    assert Judge(s, disk).written[..0] == [];
  }

  /** One interrupted launch, then as many rows more. */
  lemma ChainStep(s: Slot, disk: map<nat, Response>, r: Run, k: nat, more: nat)
    requires r == Judge(s, disk) && k <= |r.written| && more <= |r.written[k..]|
    ensures Append(Append(disk, r.written[..k]), r.written[k..][..more]) == Append(disk, r.written[..k + more])
    ensures k + more <= |r.written| <= |r.asked| <= MAX_JUDGMENT_RESAMPLES + 1
    ensures k + more <= |r.asked| && Judge(s, Append(disk, r.written[..k + more])) == Run(r.result, r.asked[k + more..], r.written[k + more..])
  {
    Prefixes(disk, r.written, k, more);
    ResumeGivesTheSame(s, disk, k + more);
  }

  lemma Prefixes(disk: map<nat, Response>, rows: seq<Judgment>, k: nat, more: nat)
    requires k <= |rows| && more <= |rows[k..]|
    ensures Append(Append(disk, rows[..k]), rows[k..][..more]) == Append(disk, rows[..k + more])
  {
    AppendTwice(disk, rows[..k], rows[k..][..more]);
    assert rows[..k] + rows[k..][..more] == rows[..k + more];
  }

  // ---- seeds and identities -----------------------------------------------------------------

  lemma SeedParts(n: nat, slot: nat, attempt: nat)
    requires slot < n
    ensures (slot + attempt * n) / n == attempt && (slot + attempt * n) % n == slot
  {
    Quotient(n, attempt, slot, (slot + attempt * n) / n, (slot + attempt * n) % n);
  }

  lemma AtLeastOnce(k: int, n: int)
    requires k >= 1 && n >= 0
    ensures k * n >= n
  {
  }

  lemma Quotient(n: nat, q: int, r: int, q': int, r': int)
    requires 0 <= r < n && 0 <= r' < n && q * n + r == q' * n + r'
    ensures q == q' && r == r'
  {
    assert (q - q') * n == q * n - q' * n && (q' - q) * n == q' * n - q * n;
    if q > q' {
      AtLeastOnce(q - q', n);
    } else if q < q' {
      AtLeastOnce(q' - q, n);
    }
  }

  /** Every (slot, attempt) of one judge has its own seed, and all seeds lie below four times the slot count. */
  lemma SeedsAreDistinct(n: nat, s: Slot, attempt: nat, s': Slot, attempt': nat)
    requires s.n == n && s'.n == n && s.slot < n && s'.slot < n
    requires attempt <= MAX_JUDGMENT_RESAMPLES && attempt' <= MAX_JUDGMENT_RESAMPLES
    ensures Seed(s, attempt) < (MAX_JUDGMENT_RESAMPLES + 1) * n
    ensures Seed(s, attempt) == Seed(s', attempt') ==> s.slot == s'.slot && attempt == attempt'
  {
    SeedParts(n, s.slot, attempt);
    SeedParts(n, s'.slot, attempt');
  }

  /** The row `_judge_slot` writes. */
  function RowOf(sha: string -> string, problem: string, proof: string, judge: string, slot: nat, j: Judgment, model: string): Row {
    Row(Some(problem), Some(j.resp.text), j.resp.finish, None, Some(model), None, None,
        Some(sha(proof)), None, None, None, Some(judge), Some(slot), Some(j.attempt))
  }

  /** A judge row maps back to the identity its request was made under, and replays its response. */
  lemma JudgeRowMapsBack(sha: string -> string, problem: string, proof: string, judge: string, slot: nat, j: Judgment, model: string)
    requires Persistence.GoodHash(sha)
    ensures var row := RowOf(sha, problem, proof, judge, slot, j, model);
      && Ident(sha, LogRow(row, RoleJudge, 0)) == Some(JudgeIdentity(problem, sha(proof), judge, slot, j.attempt))
      && Persistence.ResponseOf(row) == j.resp
  {
  }

  /** No two judgments of a problem share an identity. */
  lemma JudgeIdentityInjective(sha: string -> string, problem: string, proof: string, judge: string, slot: nat, attempt: nat,
                               proof': string, judge': string, slot': nat, attempt': nat)
    requires Persistence.GoodHash(sha)
    requires JudgeIdentity(problem, sha(proof), judge, slot, attempt) == JudgeIdentity(problem, sha(proof'), judge', slot', attempt')
    ensures proof == proof' && judge == judge' && slot == slot' && attempt == attempt'
  {
    PrintInjective(problem, JudgeKey(sha(proof), judge, slot, attempt), JudgeKey(sha(proof'), judge', slot', attempt'));
  }

  // ---- the judgment of one finalist ------------------------------------------------------------

  datatype Tagged = Tagged(judge: string, result: SlotResult)

  datatype FinalistJudgment = FinalistJudgment(
    slots: seq<Tagged>, mean: Option<real>, numJudgments: nat, numValid: nat, numResampled: nat, judgeMeans: seq<Option<real>>)

  /** The slots of every judge in turn; `grid[j]` holds the results of judge `j`. */
  function Flatten(judges: seq<string>, grid: seq<seq<SlotResult>>): seq<Tagged>
    requires |judges| == |grid|
  {
    if judges == [] then [] else Tag(judges[0], grid[0]) + Flatten(judges[1..], grid[1..])
  }

  function Tag(judge: string, row: seq<SlotResult>): (r: seq<Tagged>)
    ensures |r| == |row| && forall k :: 0 <= k < |r| ==> r[k] == Tagged(judge, row[k])
  {
    seq(|row|, k requires 0 <= k < |row| => Tagged(judge, row[k]))
  }

  function ScoreOf(r: SlotResult): seq<real> {
    if r.valid && r.score.Some? then [r.score.value] else []
  }

  /** The scores of the valid slots. */
  function Scores(slots: seq<Tagged>): seq<real> {
    if slots == [] then [] else ScoreOf(slots[0].result) + Scores(slots[1..])
  }

  function IfJudge(t: Tagged, judge: string): seq<Tagged> {
    if t.judge == judge then [t] else []
  }

  function OfJudge(slots: seq<Tagged>, judge: string): seq<Tagged> {
    if slots == [] then [] else IfJudge(slots[0], judge) + OfJudge(slots[1..], judge)
  }

  function Resampled(slots: seq<Tagged>): nat {
    if slots == [] then 0 else (if slots[0].result.attempts > 1 then 1 else 0) + Resampled(slots[1..])
  }

  function MeanOf(xs: seq<real>): Option<real> {
    if xs == [] then None else Some(Scoring.Mean(xs))
  }

  method CollectSlots(judges: seq<string>, grid: seq<seq<SlotResult>>) returns (slots: seq<Tagged>)
    requires |judges| == |grid|
    ensures slots == Flatten(judges, grid)
  {
    slots := [];
    var k := 0;
    assert judges[0..] == judges && grid[0..] == grid;
    while k < |judges|
      invariant k <= |judges|
      invariant slots + Flatten(judges[k..], grid[k..]) == Flatten(judges, grid)
    {
      NextJudge(slots, judges, grid, k);
      slots := slots + Tag(judges[k], grid[k]);
      k := k + 1;
    }
  }

  method JudgeMeans(judges: seq<string>, slots: seq<Tagged>) returns (means: seq<Option<real>>)
    ensures |means| == |judges| && forall k :: 0 <= k < |judges| ==> means[k] == MeanOf(Scores(OfJudge(slots, judges[k])))
  {
    means := [];
    var k := 0;
    while k < |judges|
      invariant k == |means| <= |judges|
      invariant forall i :: 0 <= i < k ==> means[i] == MeanOf(Scores(OfJudge(slots, judges[i])))
    {
      means := means + [MeanOf(Scores(OfJudge(slots, judges[k])))];
      k := k + 1;
    }
  }

  lemma NextJudge(slots: seq<Tagged>, judges: seq<string>, grid: seq<seq<SlotResult>>, k: nat)
    requires k < |judges| == |grid|
    ensures slots + Flatten(judges[k..], grid[k..]) == (slots + Tag(judges[k], grid[k])) + Flatten(judges[k + 1..], grid[k + 1..])
  {
    assert judges[k..][1..] == judges[k + 1..] && grid[k..][1..] == grid[k + 1..];
  }

  lemma {:induction false} ScoresConcat(a: seq<Tagged>, b: seq<Tagged>)
    ensures Scores(a + b) == Scores(a) + Scores(b)
  {
    if a == [] {
      assert a + b == b;
    } else {
      TailOfConcat(a, b);
      ScoresConcat(a[1..], b);
      Assoc(ScoreOf(a[0].result), Scores(a[1..]), Scores(b));
    }
  }

  lemma {:induction false} OfJudgeConcat(a: seq<Tagged>, b: seq<Tagged>, judge: string)
    ensures OfJudge(a + b, judge) == OfJudge(a, judge) + OfJudge(b, judge)
  {
    if a == [] {
      assert a + b == b;
    } else {
      TailOfConcat(a, b);
      OfJudgeConcat(a[1..], b, judge);
      Assoc(IfJudge(a[0], judge), OfJudge(a[1..], judge), OfJudge(b, judge));
    }
  }

  lemma {:induction false} OfJudgeTagged(tag: string, row: seq<SlotResult>, judge: string)
    ensures OfJudge(Tag(tag, row), judge) == if tag == judge then Tag(tag, row) else []
  {
    if row != [] {
      OfJudgeTagged(tag, row[1..], judge);
      assert Tag(tag, row)[1..] == Tag(tag, row[1..]);
      assert Tag(tag, row) == [Tagged(tag, row[0])] + Tag(tag, row[1..]);
    } else {
      assert Tag(tag, row) == [];
    }
  }

  /** With distinct judge ids, filtering by a judge's id gives back exactly that judge's slots, in order. */
  lemma {:induction false} OfJudgeIsRow(judges: seq<string>, grid: seq<seq<SlotResult>>, k: nat)
    requires |judges| == |grid| && NoDup(judges) && k < |judges|
    ensures OfJudge(Flatten(judges, grid), judges[k]) == Tag(judges[k], grid[k])
  {
    var rest, more := judges[1..], grid[1..];
    OfJudgeConcat(Tag(judges[0], grid[0]), Flatten(rest, more), judges[k]);
    OfJudgeTagged(judges[0], grid[0], judges[k]);
    if k == 0 {
      NoSlots(rest, more, judges[0]);
      assert Tag(judges[0], grid[0]) + [] == Tag(judges[0], grid[0]);
    } else {
      OfJudgeIsRow(rest, more, k - 1);
      assert [] + Tag(judges[k], grid[k]) == Tag(judges[k], grid[k]);
    }
  }

  lemma {:induction false} NoSlots(judges: seq<string>, grid: seq<seq<SlotResult>>, judge: string)
    requires |judges| == |grid| && judge !in judges
    ensures OfJudge(Flatten(judges, grid), judge) == []
  {
    if judges != [] {
      OfJudgeConcat(Tag(judges[0], grid[0]), Flatten(judges[1..], grid[1..]), judge);
      OfJudgeTagged(judges[0], grid[0], judge);
      NoSlots(judges[1..], grid[1..], judge);
    }
  }

  lemma OneMoreBetween(low: real, high: real, n: real, sum: real, x: real)
    requires low * n <= sum <= high * n && low <= x <= high
    ensures low * (n + 1.0) <= x + sum <= high * (n + 1.0)
  {
    assert low * (n + 1.0) == low * n + low;
    assert high * (n + 1.0) == high * n + high;
  }

  /** The mean over all valid slots of a finalist lies between the bounds of its scores. */
  lemma {:induction false} SumBetween(xs: seq<real>, low: real, high: real)
    requires forall x :: x in xs ==> low <= x <= high
    ensures low * |xs| as real <= Scoring.Sum(xs) <= high * |xs| as real
  {
    if xs != [] {
      assert forall x :: x in xs[1..] ==> x in xs;
      SumBetween(xs[1..], low, high);
      assert xs[0] in xs && |xs| as real == |xs[1..]| as real + 1.0;
      OneMoreBetween(low, high, |xs[1..]| as real, Scoring.Sum(xs[1..]), xs[0]);
    }
  }

  lemma MeanBetween(slots: seq<Tagged>, low: real, high: real)
    requires forall x :: x in Scores(slots) ==> low <= x <= high
    ensures MeanOf(Scores(slots)).None? <==> Scores(slots) == []
    ensures MeanOf(Scores(slots)).Some? ==> low <= MeanOf(Scores(slots)).value <= high
  {
    var xs := Scores(slots);
    SumBetween(xs, low, high);
    if xs != [] { Quotients(Scoring.Sum(xs), |xs| as real, low, high); }
  }

  lemma Quotients(sum: real, n: real, low: real, high: real)
    requires n > 0.0 && low * n <= sum <= high * n
    ensures low <= sum / n <= high
  {
    assert sum / n * n == sum;
  }

  /** The valid scores of one judge's slots. */
  function RowScores(row: seq<SlotResult>): seq<real> {
    if row == [] then [] else ScoreOf(row[0]) + RowScores(row[1..])
  }

  function RowSums(grid: seq<seq<SlotResult>>): seq<real> {
    if grid == [] then [] else [Scoring.Sum(RowScores(grid[0]))] + RowSums(grid[1..])
  }

  function RowCount(grid: seq<seq<SlotResult>>): nat {
    if grid == [] then 0 else |RowScores(grid[0])| + RowCount(grid[1..])
  }

  lemma {:induction false} TagScores(judge: string, row: seq<SlotResult>)
    ensures Scores(Tag(judge, row)) == RowScores(row)
  {
    if row != [] {
      TagScores(judge, row[1..]);
      assert Tag(judge, row)[1..] == Tag(judge, row[1..]);
    }
  }

  /** The sum over all valid slots is the sum, over the judges, of each judge's valid slots: no slot counts twice. */
  lemma {:induction false} SumByJudge(judges: seq<string>, grid: seq<seq<SlotResult>>)
    requires |judges| == |grid|
    ensures Scoring.Sum(Scores(Flatten(judges, grid))) == Scoring.Sum(RowSums(grid))
    ensures |Scores(Flatten(judges, grid))| == RowCount(grid)
  {
    if judges != [] {
      var first, rest := Tag(judges[0], grid[0]), Flatten(judges[1..], grid[1..]);
      SumByJudge(judges[1..], grid[1..]);
      ScoresConcat(first, rest);
      Scoring.SumAppend(Scores(first), Scores(rest));
      TagScores(judges[0], grid[0]);
      assert RowSums(grid)[1..] == RowSums(grid[1..]);
    }
  }

  /** The number of all slots. */
  function Cells(grid: seq<seq<SlotResult>>): nat {
    if grid == [] then 0 else |grid[0]| + Cells(grid[1..])
  }

  lemma {:induction false} FlattenSize(judges: seq<string>, grid: seq<seq<SlotResult>>)
    requires |judges| == |grid|
    ensures |Flatten(judges, grid)| == Cells(grid)
  {
    if judges != [] { FlattenSize(judges[1..], grid[1..]); }
  }

  lemma JudgeScores(judges: seq<string>, grid: seq<seq<SlotResult>>, k: nat)
    requires |judges| == |grid| && NoDup(judges) && k < |judges|
    ensures Scores(OfJudge(Flatten(judges, grid), judges[k])) == RowScores(grid[k])
  {
    OfJudgeIsRow(judges, grid, k);
    TagScores(judges[k], grid[k]);
  }

  /** The mean of `n` numbers with this sum; there is none of no numbers. */
  predicate MeanFor(mean: Option<real>, n: nat, sum: real) {
    (mean.None? <==> n == 0) && (mean.Some? ==> mean.value * n as real == sum)
  }

  lemma MeanTimes(xs: seq<real>)
    ensures MeanFor(MeanOf(xs), |xs|, Scoring.Sum(xs))
  {
    if xs != [] {
      assert Scoring.Sum(xs) / |xs| as real * |xs| as real == Scoring.Sum(xs);
    }
  }

  /**
   * The aggregation of `judge_finalists` for one finalist: entry `k` of the judge means is the mean of judge `k`'s own
   * valid slots, and the overall mean times the number of valid slots is the sum of the judges' own sums.
   */
  method Aggregate(judges: seq<string>, grid: seq<seq<SlotResult>>) returns (j: FinalistJudgment)
    requires |judges| == |grid| && NoDup(judges)
    ensures j.slots == Flatten(judges, grid) && j.numJudgments == Cells(grid) && j.numResampled == Resampled(j.slots)
    ensures j.numValid == RowCount(grid) && MeanFor(j.mean, RowCount(grid), Scoring.Sum(RowSums(grid)))
    ensures |j.judgeMeans| == |judges| && forall k :: 0 <= k < |judges| ==> j.judgeMeans[k] == MeanOf(RowScores(grid[k]))
  {
    var slots := CollectSlots(judges, grid);
    var means := JudgeMeans(judges, slots);
    j := FinalistJudgment(slots, MeanOf(Scores(slots)), |slots|, |Scores(slots)|, Resampled(slots), means);
    FlattenSize(judges, grid);
    SumByJudge(judges, grid);
    MeanTimes(Scores(slots));
    forall k | 0 <= k < |judges| ensures means[k] == MeanOf(RowScores(grid[k])) {
      JudgeScores(judges, grid, k);
    }
  }
}
