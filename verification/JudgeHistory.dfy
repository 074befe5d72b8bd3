/** Judging over the life of a directory: the attempt lists of the scanned ledger, and results that survive relaunches. */
module JudgeHistory {
  import opened Options
  import opened Identity
  import opened ResumeLedger
  import opened Persistence
  import opened WholeRun
  import Search
  import Judging
  import Sorting
  import J = JudgePhase
  import R = JudgeReplay

  // ---- the judge-attempt lists ---------------------------------------------------------------

  /** Row `j` of the judge file is the slot's. */
  predicate SlotRow(dir: Directory, j: nat, proof: string, judge: string, slot: nat) {
    j < |dir.judge| && R.OfSlot(dir.judge[j].id, proof, judge, slot)
  }

  /** A scanned directory and what it was written from. */
  ghost predicate Scanned(sha: string -> string, problem: string, dir: Directory, xs: seq<Extra>, models: seq<string>, log: seq<LogRow>) {
    && GoodHash(sha) && Single(dir) && PlainPrompts(dir) && |xs| == |dir.search| && |models| == |dir.judge|
    && multiset(log) == multiset(AllRows(sha, problem, dir, xs, models))
  }

  lemma RowOfLog(sha: string -> string, problem: string, dir: Directory, xs: seq<Extra>, models: seq<string>, log: seq<LogRow>, e: LogRow) returns (k: nat)
    requires Scanned(sha, problem, dir, xs, models, log) && e in log
    ensures k < |dir.search| + |dir.judge| && AllRows(sha, problem, dir, xs, models)[k] == e
  {
    k := RowAt(sha, AllRows(sha, problem, dir, xs, models), log, e);
  }

  lemma SearchRowTidy(sha: string -> string, problem: string, e: Search.Entry, x: Extra)
    requires GoodHash(sha)
    ensures Tidy(sha, problem, LogOf(sha, problem, e, x)) && LogOf(sha, problem, e, x).role != RoleJudge
  {
  }

  lemma JudgeRowTidy(sha: string -> string, problem: string, r: J.JudgeRow, model: string)
    requires GoodHash(sha)
    ensures var e := JudgeLogRow(sha, problem, r, model);
      Tidy(sha, problem, e) && e.role == RoleJudge && AttemptKeyOf(sha, e.row) == Some((sha(r.id.proof), r.id.judge, r.id.slot as int))
  {
  }

  /** What a launch writes is laid out tidily. */
  lemma LogIsTidy(sha: string -> string, problem: string, dir: Directory, xs: seq<Extra>, models: seq<string>, log: seq<LogRow>)
    requires Scanned(sha, problem, dir, xs, models, log)
    ensures TidyLog(sha, problem, log)
  {
    forall e | e in log ensures Tidy(sha, problem, e) {
      var k := RowOfLog(sha, problem, dir, xs, models, log, e);
      var n := |dir.search|;
      if k < n {
        SearchRowTidy(sha, problem, dir.search[k], xs[k]);
      } else {
        var j := k - n;
        assert AllRows(sha, problem, dir, xs, models)[n + j] == JudgeLogRow(sha, problem, dir.judge[j], models[j]);
        JudgeRowTidy(sha, problem, dir.judge[j], models[j]);
      }
    }
  }

  /** A row of the log lies in the slot's bucket exactly when it is one of the slot's judge rows. */
  lemma InSlotBucket(sha: string -> string, problem: string, dir: Directory, xs: seq<Extra>, models: seq<string>, log: seq<LogRow>,
                     e: LogRow, proof: string, judge: string, slot: nat)
    requires Scanned(sha, problem, dir, xs, models, log) && e in log
    ensures InBucket(sha, e, OfSlot((sha(proof), judge, slot as int))) <==>
      exists j: nat :: SlotRow(dir, j, proof, judge, slot) && e == JudgeLogRow(sha, problem, dir.judge[j], models[j])
  {
    var k := RowOfLog(sha, problem, dir, xs, models, log, e);
    var n := |dir.search|;
    if k < n {
      SearchRowTidy(sha, problem, dir.search[k], xs[k]);
      forall j: nat | SlotRow(dir, j, proof, judge, slot) ensures e != JudgeLogRow(sha, problem, dir.judge[j], models[j]) {
        JudgeRowTidy(sha, problem, dir.judge[j], models[j]);
      }
    } else {
      var i := k - n;
      assert e == JudgeLogRow(sha, problem, dir.judge[i], models[i]);
      JudgeRowTidy(sha, problem, dir.judge[i], models[i]);
      forall j: nat | SlotRow(dir, j, proof, judge, slot) && e == JudgeLogRow(sha, problem, dir.judge[j], models[j])
        ensures AttemptKeyOf(sha, e.row) == Some((sha(proof), judge, slot as int))
      {
        JudgeRowTidy(sha, problem, dir.judge[j], models[j]);
      }
      if InBucket(sha, e, OfSlot((sha(proof), judge, slot as int))) {
        assert SlotRow(dir, i, proof, judge, slot);
      }
    }
  }

  /** The identity map holds a row under its own name, and no other row. */
  lemma MapsToItself(sha: string -> string, problem: string, dir: Directory, xs: seq<Extra>, models: seq<string>, log: seq<LogRow>, k: nat)
    requires Scanned(sha, problem, dir, xs, models, log) && k < |dir.search| + |dir.judge|
    ensures var rows := AllRows(sha, problem, dir, xs, models);
      && Ident(sha, rows[k]) == Some(Print(problem, RowKeys(sha, dir)[k]))
      && Print(problem, RowKeys(sha, dir)[k]) in IndexOf(sha, log).byIdentity
      && IndexOf(sha, log).byIdentity[Print(problem, RowKeys(sha, dir)[k])] == rows[k].row
  {
    var rows, names, known := AllRows(sha, problem, dir, xs, models), (key: Key) => Print(problem, key), Known(sha, dir);
    AllRowsCarry(sha, problem, dir, xs, models, names);
    KnownKeyAt(sha, dir, k);
    assert names(known[k].key) == Print(problem, RowKeys(sha, dir)[k]);
    NamesApart(sha, problem, dir, names);
    assert rows[k] in multiset(log);
    OwnRow(sha, names, log, rows, known, k);
  }

  lemma NamesApart(sha: string -> string, problem: string, dir: Directory, names: Key -> string)
    requires GoodHash(sha) && Single(dir) && PlainPrompts(dir) && forall k :: names(k) == Print(problem, k)
    ensures forall i, j :: 0 <= i < j < |Known(sha, dir)| ==> names(Known(sha, dir)[i].key) != names(Known(sha, dir)[j].key)
  {
    KnownKeys(sha, dir);
    IdsPrintable(dir);
    KeysDistinct(sha, Search.Ids(dir.search), J.RowIds(dir.judge));
    KeysArePlain(sha, Search.Ids(dir.search), J.RowIds(dir.judge));
    PrintedApart(problem, RowKeys(sha, dir));
    forall i, j | 0 <= i < j < |Known(sha, dir)| ensures names(Known(sha, dir)[i].key) != names(Known(sha, dir)[j].key) {
      KnownKeyAt(sha, dir, i);
      KnownKeyAt(sha, dir, j);
    }
  }

  lemma OwnRow(sha: string -> string, names: Key -> string, log: seq<LogRow>, rows: seq<LogRow>, known: seq<Answer>, k: nat)
    requires Carries(sha, names, rows, known) && multiset(log) == multiset(rows) && k < |rows| && rows[k] in log
    requires forall i, j :: 0 <= i < j < |known| ==> names(known[i].key) != names(known[j].key)
    ensures names(known[k].key) in IndexOf(sha, log).byIdentity && IndexOf(sha, log).byIdentity[names(known[k].key)] == rows[k].row
  {
    MentionedIsMapped(sha, log, rows[k]);
    var e := MappedRow(sha, log, names(known[k].key));
    var j := RowAt(sha, rows, log, e);
    assert j == k;
  }

  lemma {:induction false} ResolveMembers(m: map<string, Row>, ids: seq<string>)
    ensures forall row :: row in Resolve(m, ids) <==> exists x :: x in ids && x in m && m[x] == row
  {
    if ids != [] {
      ResolveMembers(m, ids[1..]);
      assert ids == [ids[0]] + ids[1..];
    }
  }

  /** The scanned ledger's attempt list of a slot holds exactly the slot's rows on disk. */
  lemma AttemptListHolds(sha: string -> string, problem: string, dir: Directory, xs: seq<Extra>, models: seq<string>, log: seq<LogRow>,
                         proof: string, judge: string, slot: nat, row: Row)
    requires Scanned(sha, problem, dir, xs, models, log)
    ensures row in ListOf(IndexOf(sha, log), OfSlot((sha(proof), judge, slot as int))) <==>
      exists j: nat :: SlotRow(dir, j, proof, judge, slot) && row == JudgeLogRow(sha, problem, dir.judge[j], models[j]).row
  {
    var b := OfSlot((sha(proof), judge, slot as int));
    var m, ids, n := IndexOf(sha, log).byIdentity, Order(sha, log, b), |dir.search|;
    LogIsTidy(sha, problem, dir, xs, models, log);
    ViewsAgree(sha, problem, log, b);
    ResolveMembers(m, ids);
    OrderFacts(sha, log, b);
    if row in Resolve(m, ids) {
      var x :| x in ids && x in m && m[x] == row;
      var e :| e in log && Ident(sha, e) == Some(x) && InBucket(sha, e, b);
      InSlotBucket(sha, problem, dir, xs, models, log, e, proof, judge, slot);
      var j: nat :| SlotRow(dir, j, proof, judge, slot) && e == JudgeLogRow(sha, problem, dir.judge[j], models[j]);
      MapsToItself(sha, problem, dir, xs, models, log, n + j);
      assert AllRows(sha, problem, dir, xs, models)[n + j] == e;
    }
    if j: nat :| SlotRow(dir, j, proof, judge, slot) && row == JudgeLogRow(sha, problem, dir.judge[j], models[j]).row {
      SlotRowListed(sha, problem, dir, xs, models, log, proof, judge, slot, j);
    }
  }

  lemma SlotRowListed(sha: string -> string, problem: string, dir: Directory, xs: seq<Extra>, models: seq<string>, log: seq<LogRow>,
                      proof: string, judge: string, slot: nat, j: nat)
    requires Scanned(sha, problem, dir, xs, models, log) && SlotRow(dir, j, proof, judge, slot)
    ensures var b := OfSlot((sha(proof), judge, slot as int));
      exists x :: x in Order(sha, log, b) && x in IndexOf(sha, log).byIdentity &&
                  IndexOf(sha, log).byIdentity[x] == JudgeLogRow(sha, problem, dir.judge[j], models[j]).row
  {
    var b := OfSlot((sha(proof), judge, slot as int));
    var e, n := JudgeLogRow(sha, problem, dir.judge[j], models[j]), |dir.search|;
    assert AllRows(sha, problem, dir, xs, models)[n + j] == e;
    assert e in multiset(log);
    LogIsTidy(sha, problem, dir, xs, models, log);
    MapsToItself(sha, problem, dir, xs, models, log, n + j);
    InSlotBucket(sha, problem, dir, xs, models, log, e, proof, judge, slot);
    ListedInItsBucket(sha, problem, log, b, e);
    assert Ident(sha, e).value in Order(sha, log, b);
  }

  /**
   * The list `judge_attempts` reads is the slot's disk as its loop takes it: an attempt is in the list exactly when the
   * loop replays it, and with the same response.
   */
  lemma AttemptListIsTheLoopsDisk(sha: string -> string, problem: string, dir: Directory, xs: seq<Extra>, models: seq<string>, log: seq<LogRow>,
                                  proof: string, judge: string, slot: nat, a: nat)
    requires Scanned(sha, problem, dir, xs, models, log) && a <= Judging.MAX_JUDGMENT_RESAMPLES
    ensures var list, disk := ListOf(IndexOf(sha, log), OfSlot((sha(proof), judge, slot as int))), R.DiskOf(J.ScanRows(dir.judge), proof, judge, slot);
      && (a in disk <==> exists row :: row in list && row.attempt == Some(a as int))
      && (forall row :: row in list && row.attempt == Some(a as int) ==> a in disk && ResponseOf(row) == disk[a])
  {
    var list, disk := ListOf(IndexOf(sha, log), OfSlot((sha(proof), judge, slot as int))), R.DiskOf(J.ScanRows(dir.judge), proof, judge, slot);
    R.ScanKeys(dir.judge);
    forall row | row in list && row.attempt == Some(a as int) ensures a in disk && ResponseOf(row) == disk[a] {
      AttemptListHolds(sha, problem, dir, xs, models, log, proof, judge, slot, row);
      var j: nat :| SlotRow(dir, j, proof, judge, slot) && row == JudgeLogRow(sha, problem, dir.judge[j], models[j]).row;
      ScanOfSingle(dir.judge, j);
      assert dir.judge[j].id == J.JudgeId(proof, judge, slot, a);
    }
    if a in disk {
      var id := J.JudgeId(proof, judge, slot, a);
      var j :| 0 <= j < |dir.judge| && J.RowIds(dir.judge)[j] == id;
      var row := JudgeLogRow(sha, problem, dir.judge[j], models[j]).row;
      assert SlotRow(dir, j, proof, judge, slot);
      AttemptListHolds(sha, problem, dir, xs, models, log, proof, judge, slot, row);
      assert row in list && row.attempt == Some(a as int);
    }
  }

  // ---- the attempt list in the loop's order ------------------------------------------------------

  lemma {:induction false} ResolveNoDup(sha: string -> string, m: map<string, Row>, b: Bucket, ids: seq<string>)
    requires Listable(sha, m, b, ids)
    ensures NoDup(Resolve(m, ids))
  {
    if ids != [] {
      var first, rest := ids[0], ids[1..];
      assert first in ids && forall x :: x in rest ==> x in ids;
      assert forall i :: 0 <= i < |rest| ==> rest[i] == ids[i + 1];
      ResolveNoDup(sha, m, b, rest);
      forall r | r in Resolve(m, rest) ensures r != m[first] {
        ResolveHolds(m, rest, r);
        var x :| x in rest && x in m && m[x] == r;
        assert x in ids && BucketIdentity(sha, m[x], b) == Some(x) && BucketIdentity(sha, m[first], b) == Some(first);
      }
      assert Resolve(m, ids) == [m[first]] + Resolve(m, rest);
      NoDupConcat([m[first]], Resolve(m, rest));
    }
  }

  /** Two rows of a slot's list with the same attempt number are the same row. */
  lemma AttemptTells(sha: string -> string, problem: string, dir: Directory, xs: seq<Extra>, models: seq<string>, log: seq<LogRow>,
                     proof: string, judge: string, slot: nat, r: Row, q: Row)
    requires Scanned(sha, problem, dir, xs, models, log)
    requires var list := ListOf(IndexOf(sha, log), OfSlot((sha(proof), judge, slot as int))); r in list && q in list
    requires AttemptNo(r) == AttemptNo(q)
    ensures r == q
  {
    AttemptListHolds(sha, problem, dir, xs, models, log, proof, judge, slot, r);
    AttemptListHolds(sha, problem, dir, xs, models, log, proof, judge, slot, q);
    var i: nat :| SlotRow(dir, i, proof, judge, slot) && r == JudgeLogRow(sha, problem, dir.judge[i], models[i]).row;
    var j: nat :| SlotRow(dir, j, proof, judge, slot) && q == JudgeLogRow(sha, problem, dir.judge[j], models[j]).row;
    SameAttemptSameRow(dir, i, j, proof, judge, slot);
  }

  lemma SameAttemptSameRow(dir: Directory, i: nat, j: nat, proof: string, judge: string, slot: nat)
    requires Single(dir) && SlotRow(dir, i, proof, judge, slot) && SlotRow(dir, j, proof, judge, slot)
    requires dir.judge[i].id.attempt == dir.judge[j].id.attempt
    ensures i == j
  {
    assert dir.judge[i].id == dir.judge[j].id;
    assert J.RowIds(dir.judge)[i] == J.RowIds(dir.judge)[j];
  }

  /** `judge_attempts` lists the same rows, each once, in ascending order of attempt. */
  lemma {:induction false} AttemptsAscend(sha: string -> string, problem: string, dir: Directory, xs: seq<Extra>, models: seq<string>, log: seq<LogRow>,
                       proof: string, judge: string, slot: nat)
    requires Scanned(sha, problem, dir, xs, models, log)
    ensures var key := (sha(proof), judge, slot as int);
      var rows, list := AttemptsOf(IndexOf(sha, log), key), ListOf(IndexOf(sha, log), OfSlot(key));
      Sorting.Strict(EarlierAttempt, rows) && forall r :: r in rows <==> r in list
  {
    var b := OfSlot((sha(proof), judge, slot as int));
    var list := ListOf(IndexOf(sha, log), b);
    LogIsTidy(sha, problem, dir, xs, models, log);
    TidySupersedesInPlace(sha, problem, log);
    InPlaceAgrees(sha, log, b);
    ResolveNoDup(sha, IndexOf(sha, log).byIdentity, b, Order(sha, log, b));
    forall i, j | 0 <= i < j < |list| ensures EarlierAttempt(list[i], list[j]) || EarlierAttempt(list[j], list[i]) {
      if AttemptNo(list[i]) == AttemptNo(list[j]) {
        AttemptTells(sha, problem, dir, xs, models, log, proof, judge, slot, list[i], list[j]);
        assert false;
      }
    }
    Sorting.SortStrict(EarlierAttempt, list);
    Sorting.SortKeeps(EarlierAttempt, list);
  }

  /** A slot's disk from attempt `a` on, in the order its loop reads it. */
  function InLoopOrder(disk: map<nat, Search.Response>, a: nat): seq<Judging.Judgment>
    decreases Judging.MAX_JUDGMENT_RESAMPLES + 1 - a
  {
    if a > Judging.MAX_JUDGMENT_RESAMPLES then []
    else (if a in disk then [Judging.Judgment(a, disk[a])] else []) + InLoopOrder(disk, a + 1)
  }

  function JudgmentOf(row: Row): Judging.Judgment {
    Judging.Judgment(if AttemptNo(row) >= 0 then AttemptNo(row) else 0, ResponseOf(row))
  }

  function JudgmentsOf(rows: seq<Row>): seq<Judging.Judgment> {
    if rows == [] then [] else [JudgmentOf(rows[0])] + JudgmentsOf(rows[1..])
  }

  /** Rows that hold exactly the attempts of the disk from `a` on, with its responses. */
  ghost predicate Mirrors(rows: seq<Row>, disk: map<nat, Search.Response>, a: nat) {
    && (forall r :: r in rows ==> a <= AttemptNo(r) <= Judging.MAX_JUDGMENT_RESAMPLES && AttemptNo(r) in disk && ResponseOf(r) == disk[AttemptNo(r)])
    && (forall k: nat :: a <= k <= Judging.MAX_JUDGMENT_RESAMPLES && k in disk ==> exists r :: r in rows && AttemptNo(r) == k)
  }

  lemma HeadIsMember(rows: seq<Row>)
    ensures rows == [] || exists r :: r in rows
  {
    assert rows == [] || rows[0] in rows;
  }

  lemma {:induction false} AscendingMirror(rows: seq<Row>, disk: map<nat, Search.Response>, a: nat)
    requires Sorting.Strict(EarlierAttempt, rows) && Mirrors(rows, disk, a)
    ensures JudgmentsOf(rows) == InLoopOrder(disk, a)
    decreases Judging.MAX_JUDGMENT_RESAMPLES + 1 - a
  {
    if a > Judging.MAX_JUDGMENT_RESAMPLES {
      HeadIsMember(rows);
    } else if a in disk {
      FirstMirrors(rows, disk, a);
      var rest := rows[1..];
      assert forall i :: 0 <= i < |rest| ==> rest[i] == rows[i + 1];
      AscendingMirror(rest, disk, a + 1);
    } else {
      assert Mirrors(rows, disk, a + 1);
      AscendingMirror(rows, disk, a + 1);
      assert [] + InLoopOrder(disk, a + 1) == InLoopOrder(disk, a + 1);
    }
  }

  /** The least attempt on disk comes first. */
  lemma {:induction false} FirstMirrors(rows: seq<Row>, disk: map<nat, Search.Response>, a: nat)
    requires Sorting.Strict(EarlierAttempt, rows) && Mirrors(rows, disk, a) && a <= Judging.MAX_JUDGMENT_RESAMPLES && a in disk
    ensures rows != [] && AttemptNo(rows[0]) == a && ResponseOf(rows[0]) == disk[a] && Mirrors(rows[1..], disk, a + 1)
  {
    var r :| r in rows && AttemptNo(r) == a;
    var i :| 0 <= i < |rows| && rows[i] == r;
    assert rows[0] in rows;
    assert i == 0 || EarlierAttempt(rows[0], rows[i]);
    var rest := rows[1..];
    forall q | q in rest ensures a < AttemptNo(q) && q in rows {
      var j :| 0 <= j < |rest| && rest[j] == q;
      assert rows[j + 1] == q && EarlierAttempt(rows[0], rows[j + 1]);
    }
    forall k: nat | a + 1 <= k <= Judging.MAX_JUDGMENT_RESAMPLES && k in disk ensures exists q :: q in rest && AttemptNo(q) == k {
      var q :| q in rows && AttemptNo(q) == k;
      assert rows == [rows[0]] + rest;
      assert q in rest;
    }
  }

  /** No attempt is numbered beyond the last the loop makes; every history of launches writes such a directory. */
  ghost predicate Bounded(dir: Directory) {
    forall id :: id in J.RowIds(dir.judge) ==> id.attempt <= Judging.MAX_JUDGMENT_RESAMPLES
  }

  lemma {:induction false} HistoryBounded(su: Setup, dir: Directory, launches: seq<Launch>)
    requires ValidSetup(su) && LegalHistory(su, dir, launches) && Bounded(dir)
    ensures Bounded(DirectoryAfter(su, dir, launches))
    decreases launches
  {
    if launches != [] {
      LaunchFacts(su, dir, launches[0]);
      RowIdsConcat(dir.judge, JudgeEnd(su, dir, launches[0]).rows);
      HistoryBounded(su, Left(su, dir, launches[0]), launches[1..]);
    }
  }

  /** What `judge_attempts` returns for a slot is the slot's disk, attempt by attempt, in the order its loop replays it. */
  lemma {:induction false} AttemptsInLoopOrder(sha: string -> string, problem: string, dir: Directory, xs: seq<Extra>, models: seq<string>,
                                               log: seq<LogRow>, proof: string, judge: string, slot: nat)
    requires Scanned(sha, problem, dir, xs, models, log) && Bounded(dir)
    ensures JudgmentsOf(AttemptsOf(IndexOf(sha, log), (sha(proof), judge, slot as int))) ==
      InLoopOrder(R.DiskOf(J.ScanRows(dir.judge), proof, judge, slot), 0)
  {
    var rows, disk := AttemptsOf(IndexOf(sha, log), (sha(proof), judge, slot as int)), R.DiskOf(J.ScanRows(dir.judge), proof, judge, slot);
    AttemptsAscend(sha, problem, dir, xs, models, log, proof, judge, slot);
    forall r | r in rows
      ensures 0 <= AttemptNo(r) <= Judging.MAX_JUDGMENT_RESAMPLES && AttemptNo(r) in disk && ResponseOf(r) == disk[AttemptNo(r)]
    {
      RowOnDisk(sha, problem, dir, xs, models, log, proof, judge, slot, r);
    }
    forall k: nat | k <= Judging.MAX_JUDGMENT_RESAMPLES && k in disk ensures exists r :: r in rows && AttemptNo(r) == k {
      AttemptListIsTheLoopsDisk(sha, problem, dir, xs, models, log, proof, judge, slot, k);
    }
    AscendingMirror(rows, disk, 0);
  }

  lemma RowOnDisk(sha: string -> string, problem: string, dir: Directory, xs: seq<Extra>, models: seq<string>, log: seq<LogRow>,
                  proof: string, judge: string, slot: nat, r: Row)
    requires Scanned(sha, problem, dir, xs, models, log) && Bounded(dir)
    requires r in ListOf(IndexOf(sha, log), OfSlot((sha(proof), judge, slot as int)))
    ensures var disk := R.DiskOf(J.ScanRows(dir.judge), proof, judge, slot);
      0 <= AttemptNo(r) <= Judging.MAX_JUDGMENT_RESAMPLES && AttemptNo(r) in disk && ResponseOf(r) == disk[AttemptNo(r)]
  {
    AttemptListHolds(sha, problem, dir, xs, models, log, proof, judge, slot, r);
    var j: nat :| SlotRow(dir, j, proof, judge, slot) && r == JudgeLogRow(sha, problem, dir.judge[j], models[j]).row;
    assert J.RowIds(dir.judge)[j] == dir.judge[j].id;
    AttemptListIsTheLoopsDisk(sha, problem, dir, xs, models, log, proof, judge, slot, dir.judge[j].id.attempt);
  }

  // ---- results survive ---------------------------------------------------------------------------

  /** Every judge request of the history is answered as the oracle says. */
  ghost predicate AnsweredHistory(su: Setup, ask: R.Oracle, dir: Directory, launches: seq<Launch>)
    requires LegalHistory(su, dir, launches)
    decreases launches
  {
    launches == [] ||
    (R.Answered(ask, su.score, JudgeStart(su, dir, launches[0]), launches[0].judge) &&
     AnsweredHistory(su, ask, Left(su, dir, launches[0]), launches[1..]))
  }

  function SlotOf(su: Setup, ask: R.Oracle, proof: string, spec: J.JudgeSpec, slot: nat): Judging.Slot {
    R.SlotAt(ask, su.score, proof, spec.id, spec.judgments, slot)
  }

  function SlotDisk(dir: Directory, proof: string, spec: J.JudgeSpec, slot: nat): map<nat, Search.Response> {
    R.DiskOf(J.ScanRows(dir.judge), proof, spec.id, slot)
  }

  /** One launch is one interrupted run of the slot's loop. */
  lemma LaunchAppends(su: Setup, ask: R.Oracle, dir: Directory, l: Launch, proof: string, spec: J.JudgeSpec, slot: nat) returns (k: nat)
    requires ValidSetup(su) && LegalLaunch(su, dir, l) && spec in su.judges
    requires R.Answered(ask, su.score, JudgeStart(su, dir, l), l.judge)
    ensures var r := Judging.Judge(SlotOf(su, ask, proof, spec, slot), SlotDisk(dir, proof, spec, slot));
      k <= |r.written| && SlotDisk(Left(su, dir, l), proof, spec, slot) == Judging.Append(SlotDisk(dir, proof, spec, slot), r.written[..k])
  {
    LaunchFacts(su, dir, l);
    k := R.PhaseAppends(ask, su.score, dir.judge, FinalistProofs(su.cfg, SearchEnd(su, dir, l)), su.judges, l.judge,
                        JudgeEnd(su, dir, l).rows, proof, spec, slot);
  }

  /** A history is a chain of interrupted runs of the slot's loop. */
  lemma {:induction false} HistoryIsChain(su: Setup, ask: R.Oracle, dir: Directory, launches: seq<Launch>, proof: string, spec: J.JudgeSpec, slot: nat)
      returns (left: seq<nat>)
    requires ValidSetup(su) && LegalHistory(su, dir, launches) && spec in su.judges && AnsweredHistory(su, ask, dir, launches)
    ensures Judging.Chain(SlotOf(su, ask, proof, spec, slot), SlotDisk(dir, proof, spec, slot), left)
    ensures SlotDisk(DirectoryAfter(su, dir, launches), proof, spec, slot) ==
      Judging.DiskAfter(SlotOf(su, ask, proof, spec, slot), SlotDisk(dir, proof, spec, slot), left)
    decreases launches
  {
    left := [];
    if launches != [] {
      var k := LaunchAppends(su, ask, dir, launches[0], proof, spec, slot);
      var rest := HistoryIsChain(su, ask, Left(su, dir, launches[0]), launches[1..], proof, spec, slot);
      left := [k] + rest;
      assert left[1..] == rest;
    }
  }

  /** What the history saved for a slot, and what one more run of its loop gives. */
  lemma HistorySaved(su: Setup, ask: R.Oracle, dir: Directory, launches: seq<Launch>, proof: string, spec: J.JudgeSpec, slot: nat)
      returns (k: nat)
    requires ValidSetup(su) && LegalHistory(su, dir, launches) && spec in su.judges && AnsweredHistory(su, ask, dir, launches)
    ensures var s, disk, now := SlotOf(su, ask, proof, spec, slot), SlotDisk(dir, proof, spec, slot), SlotDisk(DirectoryAfter(su, dir, launches), proof, spec, slot);
      && k <= |Judging.Judge(s, disk).written| <= Judging.MAX_JUDGMENT_RESAMPLES + 1
      && now == Judging.Append(disk, Judging.Judge(s, disk).written[..k])
      && Judging.Judge(s, now).result == Judging.Judge(s, disk).result
  {
    var left := HistoryIsChain(su, ask, dir, launches, proof, spec, slot);
    Judging.ChainIsOneRun(SlotOf(su, ask, proof, spec, slot), SlotDisk(dir, proof, spec, slot), left);
    k := Judging.Total(left);
  }

  /** A slot the last launch finishes has the result of its loop over the directory that launch found. */
  lemma LastLaunchFollows(su: Setup, ask: R.Oracle, now: Directory, last: Launch, t: J.SlotTask, spec: J.JudgeSpec)
    requires ValidSetup(su) && LegalLaunch(su, now, last) && R.Answered(ask, su.score, JudgeStart(su, now, last), last.judge)
    requires t in JudgeEnd(su, now, last).tasks && spec.id == t.judge && spec.judgments == t.n
    ensures t.stage.Finished? ==>
      t.stage.result == Judging.Judge(SlotOf(su, ask, t.proof, spec, t.slot), SlotDisk(now, t.proof, spec, t.slot)).result
  {
    LaunchFacts(su, now, last);
    R.EverySlotFollowsItsLoop(ask, su.score, J.ScanRows(now.judge), FinalistProofs(su.cfg, SearchEnd(su, now, last)), su.judges, last.judge);
  }

  /**
   * Judgments survive: whatever launches died before, each slot that a launch finishes has the result one uninterrupted
   * launch from the first directory would have given it, and the whole history has saved at most four rows for the
   * slot, a prefix of those that launch would have written.
   */
  lemma JudgmentsSurvive(su: Setup, ask: R.Oracle, dir: Directory, launches: seq<Launch>, last: Launch, t: J.SlotTask, spec: J.JudgeSpec)
    requires ValidSetup(su) && LegalHistory(su, dir, launches) && AnsweredHistory(su, ask, dir, launches)
    requires LegalLaunch(su, DirectoryAfter(su, dir, launches), last)
    requires R.Answered(ask, su.score, JudgeStart(su, DirectoryAfter(su, dir, launches), last), last.judge)
    requires t in JudgeEnd(su, DirectoryAfter(su, dir, launches), last).tasks && spec in su.judges && spec.id == t.judge && spec.judgments == t.n
    ensures var first := Judging.Judge(SlotOf(su, ask, t.proof, spec, t.slot), SlotDisk(dir, t.proof, spec, t.slot));
      && (t.stage.Finished? ==> t.stage.result == first.result)
      && |first.written| <= Judging.MAX_JUDGMENT_RESAMPLES + 1
      && exists k: nat :: k <= |first.written| &&
           SlotDisk(DirectoryAfter(su, dir, launches), t.proof, spec, t.slot) ==
           Judging.Append(SlotDisk(dir, t.proof, spec, t.slot), first.written[..k])
  {
    var k := HistorySaved(su, ask, dir, launches, t.proof, spec, t.slot);
    LastLaunchFollows(su, ask, DirectoryAfter(su, dir, launches), last, t, spec);
  }
}
