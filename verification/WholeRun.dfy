/**
 * A problem's whole directory over its whole life: each launch scans it, searches, judges its finalists, and may die
 * at any moment; the next launch finds the rows of all four roles.
 */
module WholeRun {
  import opened Options
  import opened Identity
  import opened Search
  import opened ResumeLedger
  import opened Persistence
  import D = Durability
  import J = JudgePhase
  import R = JudgeReplay
  import Judging
  import Launching
  import Outcome
  import Safety

  datatype Directory = Directory(search: seq<Entry>, judge: seq<J.JudgeRow>)

  const EMPTY_DIRECTORY := Directory([], [])

  /** How far a launch got: steps of the search, then steps of judging. */
  datatype Launch = Launch(search: seq<Event>, judge: seq<J.Event>)

  /** What a launch is given: the search configuration, the judges, and the judge score parser. */
  datatype Setup = Setup(cfg: Config, judges: seq<J.JudgeSpec>, score: Response -> Option<real>)

  ghost predicate ValidSetup(su: Setup) {
    ValidConfig(su.cfg) && J.DistinctJudges(su.judges)
  }

  function ProofsAt(pool: seq<Record>, places: seq<nat>): (r: seq<string>)
    requires forall k :: 0 <= k < |places| ==> places[k] < |pool|
    ensures |r| == |places| && forall k :: 0 <= k < |r| ==> r[k] == pool[places[k]].proof
  {
    seq(|places|, k requires 0 <= k < |places| => pool[places[k]].proof)
  }

  /** The finalists' places, as far as they are places of the pool. */
  function FinalistPlaces(cfg: Config, s: State): seq<nat> {
    var places := Outcome.Finish(cfg, s).finalists;
    if forall k :: 0 <= k < |places| ==> places[k] < |s.pool| then places else []
  }

  function FinalistProofs(cfg: Config, s: State): seq<string> {
    ProofsAt(s.pool, FinalistPlaces(cfg, s))
  }

  ghost function SearchEnd(su: Setup, dir: Directory, l: Launch): State
    requires Legal(su.cfg, Init(su.cfg, dir.search), l.search)
  {
    Exec(su.cfg, Init(su.cfg, dir.search), l.search)
  }

  /** Judging starts from the ledger scanned at launch, on the finalists of a search that is over. */
  ghost function JudgeStart(su: Setup, dir: Directory, l: Launch): J.Phase
    requires Legal(su.cfg, Init(su.cfg, dir.search), l.search)
  {
    J.Start(J.ScanRows(dir.judge), FinalistProofs(su.cfg, SearchEnd(su, dir, l)), su.judges)
  }

  ghost predicate LegalLaunch(su: Setup, dir: Directory, l: Launch) {
    && Legal(su.cfg, Init(su.cfg, dir.search), l.search)
    && (l.judge != [] ==> Outcome.Over(su.cfg, SearchEnd(su, dir, l)))
    && J.Legal(su.score, JudgeStart(su, dir, l), l.judge)
  }

  ghost function JudgeEnd(su: Setup, dir: Directory, l: Launch): J.Phase
    requires LegalLaunch(su, dir, l)
  {
    J.Exec(su.score, JudgeStart(su, dir, l), l.judge)
  }

  ghost function Left(su: Setup, dir: Directory, l: Launch): Directory
    requires LegalLaunch(su, dir, l)
  {
    Directory(dir.search + SearchEnd(su, dir, l).rows, dir.judge + JudgeEnd(su, dir, l).rows)
  }

  ghost predicate LegalHistory(su: Setup, dir: Directory, launches: seq<Launch>)
    decreases launches
  {
    launches == [] || (LegalLaunch(su, dir, launches[0]) && LegalHistory(su, Left(su, dir, launches[0]), launches[1..]))
  }

  ghost function DirectoryAfter(su: Setup, dir: Directory, launches: seq<Launch>): Directory
    requires LegalHistory(su, dir, launches)
    decreases launches
  {
    if launches == [] then dir else DirectoryAfter(su, Left(su, dir, launches[0]), launches[1..])
  }

  // ---- finalists are distinct proofs -----------------------------------------------------

  lemma {:induction false} InOrderNoDup(checkpoints: seq<Checkpoint>, finalists: map<string, nat>)
    requires Launching.DistinctCheckpoints(checkpoints)
    requires forall m, m' :: m in finalists && m' in finalists && finalists[m] == finalists[m'] ==> m == m'
    ensures NoDup(Outcome.InOrder(checkpoints, finalists))
  {
    if checkpoints != [] {
      var c, rest := checkpoints[0], checkpoints[1..];
      Launching.TailDistinct(checkpoints);
      InOrderNoDup(rest, finalists);
      Outcome.InOrderMembers(rest, finalists);
      if c.id in finalists {
        assert finalists[c.id] !in Outcome.InOrder(rest, finalists);
        NoDupConcat([finalists[c.id]], Outcome.InOrder(rest, finalists));
      }
    }
  }

  lemma ProofsDistinct(pool: seq<Record>, places: seq<nat>)
    requires D.DistinctProofs(pool) && NoDup(places) && forall k :: 0 <= k < |places| ==> places[k] < |pool|
    ensures NoDup(ProofsAt(pool, places))
  {
    var proofs := ProofsAt(pool, places);
    forall i, j | 0 <= i < j < |proofs| ensures proofs[i] != proofs[j] {
      assert places[i] != places[j];
    }
  }

  lemma PlacesDistinct(cfg: Config, s: State)
    requires ValidConfig(cfg) && Safety.Sound(cfg, s)
    ensures NoDup(Outcome.Finish(cfg, s).finalists)
  {
    if s.finalists != map[] {
      InOrderNoDup(cfg.checkpoints, s.finalists);
    }
  }

  lemma FinalistProofsDistinct(cfg: Config, base: seq<Entry>, s: State)
    requires ValidConfig(cfg) && D.Durable(cfg, base, s) && Safety.Sound(cfg, s)
    ensures NoDup(FinalistProofs(cfg, s))
  {
    PlacesDistinct(cfg, s);
    ProofsDistinct(s.pool, FinalistPlaces(cfg, s));
  }

  /** At the end of a search every finalist is a place of the pool: judging leaves none out. */
  lemma NoFinalistLeftOut(cfg: Config, s: State)
    requires Safety.Sound(cfg, s)
    ensures FinalistPlaces(cfg, s) == Outcome.Finish(cfg, s).finalists
  {
    if s.finalists != map[] {
      Outcome.InOrderMembers(cfg.checkpoints, s.finalists);
      var places := Outcome.InOrder(cfg.checkpoints, s.finalists);
      assert forall k :: 0 <= k < |places| ==> places[k] in places;
    }
  }

  // ---- one launch ------------------------------------------------------------------------------

  /** What a launch asks and writes, for search and judging alike. */
  lemma LaunchFacts(su: Setup, dir: Directory, l: Launch)
    requires ValidSetup(su) && LegalLaunch(su, dir, l)
    ensures var s, p := SearchEnd(su, dir, l), JudgeEnd(su, dir, l);
      && NoDup(s.issued) && (forall id :: id in s.issued ==> id !in Ids(dir.search))
      && NoDup(Ids(s.rows)) && (forall id :: id in Ids(s.rows) ==> id in s.issued)
      && NoDup(p.issued) && (forall id :: id in p.issued ==> id !in J.RowIds(dir.judge) && id.attempt <= Judging.MAX_JUDGMENT_RESAMPLES)
      && NoDup(J.RowIds(p.rows)) && (forall id :: id in J.RowIds(p.rows) ==> id in p.issued)
      && NoDup(FinalistProofs(su.cfg, s))
  {
    var s := SearchEnd(su, dir, l);
    D.InitDurable(su.cfg, dir.search);
    D.RunDurable(su.cfg, dir.search, Init(su.cfg, dir.search), l.search);
    Safety.InitSound(su.cfg, dir.search);
    Safety.RunSound(su.cfg, Init(su.cfg, dir.search), l.search);
    FinalistProofsDistinct(su.cfg, dir.search, s);
    J.OneRequestPerJudgment(su.score, J.ScanRows(dir.judge), FinalistProofs(su.cfg, s), su.judges, l.judge);
    R.ScanKeys(dir.judge);
  }

  // ---- the keys of a directory --------------------------------------------------------------------

  function JudgeKeyOf(sha: string -> string, id: J.JudgeId): Key {
    JudgeKey(sha(id.proof), id.judge, id.slot, id.attempt)
  }

  function SearchKeys(sha: string -> string, ids: seq<WorkId>): (r: seq<Key>)
    ensures |r| == |ids| && forall k :: 0 <= k < |r| ==> r[k] == KeyOf(sha, ids[k])
  {
    seq(|ids|, k requires 0 <= k < |ids| => KeyOf(sha, ids[k]))
  }

  function JudgeKeys(sha: string -> string, ids: seq<J.JudgeId>): (r: seq<Key>)
    ensures |r| == |ids| && forall k :: 0 <= k < |r| ==> r[k] == JudgeKeyOf(sha, ids[k])
  {
    seq(|ids|, k requires 0 <= k < |ids| => JudgeKeyOf(sha, ids[k]))
  }

  /** The identities of search requests and of judge requests, as keys. */
  function AllKeys(sha: string -> string, search: seq<WorkId>, judge: seq<J.JudgeId>): seq<Key> {
    SearchKeys(sha, search) + JudgeKeys(sha, judge)
  }

  lemma KeysDistinct(sha: string -> string, search: seq<WorkId>, judge: seq<J.JudgeId>)
    requires GoodHash(sha) && NoDup(search) && NoDup(judge)
    ensures NoDup(AllKeys(sha, search, judge))
  {
    var a, b := SearchKeys(sha, search), JudgeKeys(sha, judge);
    forall i, j | 0 <= i < j < |a| ensures a[i] != a[j] {
      if a[i] == a[j] { KeyInjective(sha, search[i], search[j]); }
    }
    assert forall k :: k in a ==> !k.JudgeKey?;
    NoDupConcat(a, b);
  }

  lemma KeysApart(sha: string -> string, search: seq<WorkId>, judge: seq<J.JudgeId>, search': seq<WorkId>, judge': seq<J.JudgeId>)
    requires GoodHash(sha) && (forall id :: id in search ==> id !in search') && forall id :: id in judge ==> id !in judge'
    ensures forall k :: k in AllKeys(sha, search, judge) ==> k !in AllKeys(sha, search', judge')
  {
    var a, b := AllKeys(sha, search, judge), AllKeys(sha, search', judge');
    forall i, j | 0 <= i < |a| && 0 <= j < |b| ensures a[i] != b[j] {
      if i < |search| && j < |search'| {
        assert search[i] in search && search'[j] in search';
        if a[i] == b[j] { KeyInjective(sha, search[i], search'[j]); }
      } else if i >= |search| && j >= |search'| {
        assert judge[i - |search|] in judge && judge'[j - |search'|] in judge';
      }
    }
  }

  lemma KeysArePlain(sha: string -> string, search: seq<WorkId>, judge: seq<J.JudgeId>)
    requires GoodHash(sha) && forall id :: id in search ==> Printable(id)
    ensures forall k :: k in AllKeys(sha, search, judge) ==> Plain(k)
  {
    forall i | 0 <= i < |search| ensures Plain(KeyOf(sha, search[i])) {
      assert search[i] in search;
      KeysPlain(sha, search[i]);
    }
  }

  // ---- one row and one request per identity, in all four roles ----------------------------------------

  /** Each identity has at most one row in the directory. */
  ghost predicate Single(dir: Directory) {
    NoDup(Ids(dir.search)) && NoDup(J.RowIds(dir.judge))
  }

  lemma RowIdsConcat(a: seq<J.JudgeRow>, b: seq<J.JudgeRow>)
    ensures J.RowIds(a + b) == J.RowIds(a) + J.RowIds(b)
  {
  }

  lemma LaunchKeepsSingle(su: Setup, dir: Directory, l: Launch)
    requires ValidSetup(su) && LegalLaunch(su, dir, l) && Single(dir)
    ensures Single(Left(su, dir, l))
  {
    LaunchFacts(su, dir, l);
    var s, p := SearchEnd(su, dir, l), JudgeEnd(su, dir, l);
    D.IdsConcat(dir.search, s.rows);
    RowIdsConcat(dir.judge, p.rows);
    NoDupConcat(Ids(dir.search), Ids(s.rows));
    NoDupConcat(J.RowIds(dir.judge), J.RowIds(p.rows));
  }

  lemma {:induction false} HistoryKeepsSingle(su: Setup, dir: Directory, launches: seq<Launch>)
    requires ValidSetup(su) && LegalHistory(su, dir, launches) && Single(dir)
    ensures Single(DirectoryAfter(su, dir, launches))
    decreases launches
  {
    if launches != [] {
      LaunchKeepsSingle(su, dir, launches[0]);
      HistoryKeepsSingle(su, Left(su, dir, launches[0]), launches[1..]);
    }
  }

  /** Prompts of a directory hold no colon. */
  ghost predicate PlainPrompts(dir: Directory) {
    forall e :: e in dir.search ==> Printable(e.id)
  }

  lemma {:induction false} HistoryPlain(su: Setup, dir: Directory, launches: seq<Launch>)
    requires ValidSetup(su) && LegalHistory(su, dir, launches) && PlainPrompts(dir)
    requires forall p :: p in su.cfg.prompts ==> ':' !in p
    ensures PlainPrompts(DirectoryAfter(su, dir, launches))
    decreases launches
  {
    if launches != [] {
      HistoryPrintable(su.cfg, dir.search, launches[0].search);
      HistoryPlain(su, Left(su, dir, launches[0]), launches[1..]);
    }
  }

  /** The identities of a directory's rows. */
  function RowKeys(sha: string -> string, dir: Directory): seq<Key> {
    AllKeys(sha, Ids(dir.search), J.RowIds(dir.judge))
  }

  lemma IdsPrintable(dir: Directory)
    requires PlainPrompts(dir)
    ensures forall id :: id in Ids(dir.search) ==> Printable(id)
  {
    forall id | id in Ids(dir.search) ensures Printable(id) {
      var k :| 0 <= k < |dir.search| && Ids(dir.search)[k] == id;
      assert dir.search[k] in dir.search;
    }
  }

  /**
   * Over any history of launches, crashes and relaunches of search and judging together, from an empty directory: the
   * generation, verification, refinement and judgment rows carry pairwise different identities, as keys and as the
   * strings the ledger prints.
   */
  lemma OneRowPerIdentityInAllRoles(su: Setup, launches: seq<Launch>, sha: string -> string, problem: string)
    requires ValidSetup(su) && LegalHistory(su, EMPTY_DIRECTORY, launches) && GoodHash(sha)
    requires forall p :: p in su.cfg.prompts ==> ':' !in p
    ensures var keys := RowKeys(sha, DirectoryAfter(su, EMPTY_DIRECTORY, launches));
      NoDup(keys) && forall i, j :: 0 <= i < j < |keys| ==> Print(problem, keys[i]) != Print(problem, keys[j])
  {
    var dir := DirectoryAfter(su, EMPTY_DIRECTORY, launches);
    HistoryKeepsSingle(su, EMPTY_DIRECTORY, launches);
    HistoryPlain(su, EMPTY_DIRECTORY, launches);
    IdsPrintable(dir);
    KeysDistinct(sha, Ids(dir.search), J.RowIds(dir.judge));
    KeysArePlain(sha, Ids(dir.search), J.RowIds(dir.judge));
    PrintedApart(problem, RowKeys(sha, dir));
  }

  lemma PrintedApart(problem: string, keys: seq<Key>)
    requires NoDup(keys) && forall k :: k in keys ==> Plain(k)
    ensures forall i, j :: 0 <= i < j < |keys| ==> Print(problem, keys[i]) != Print(problem, keys[j])
  {
    forall i, j | 0 <= i < j < |keys| ensures Print(problem, keys[i]) != Print(problem, keys[j]) {
      assert keys[i] in keys && keys[j] in keys;
      if Print(problem, keys[i]) == Print(problem, keys[j]) { PrintInjective(problem, keys[i], keys[j]); }
    }
  }

  /**
   * And each launch of such a history, whatever directory it finds: no identity is requested twice, in any role, and
   * none that has a row in the directory is requested at all.
   */
  lemma OneRequestPerIdentityInAllRoles(su: Setup, dir: Directory, l: Launch, sha: string -> string)
    requires ValidSetup(su) && LegalLaunch(su, dir, l) && GoodHash(sha)
    ensures var asked := AllKeys(sha, SearchEnd(su, dir, l).issued, JudgeEnd(su, dir, l).issued);
      NoDup(asked) && forall k :: k in asked ==> k !in RowKeys(sha, dir)
  {
    LaunchFacts(su, dir, l);
    var s, p := SearchEnd(su, dir, l), JudgeEnd(su, dir, l);
    KeysDistinct(sha, s.issued, p.issued);
    KeysApart(sha, s.issued, p.issued, Ids(dir.search), J.RowIds(dir.judge));
  }

  // ---- the ledger a relaunch scans -----------------------------------------------------------------------

  /** What the directory knows, search rows first. */
  function Known(sha: string -> string, dir: Directory): (r: seq<Answer>)
    ensures |r| == |dir.search| + |dir.judge|
    ensures forall k :: 0 <= k < |dir.search| ==> r[k] == Answer(KeyOf(sha, dir.search[k].id), dir.search[k].resp)
    ensures forall k :: 0 <= k < |dir.judge| ==> r[|dir.search| + k] == Answer(JudgeKeyOf(sha, dir.judge[k].id), dir.judge[k].resp)
  {
    seq(|dir.search|, k requires 0 <= k < |dir.search| => Answer(KeyOf(sha, dir.search[k].id), dir.search[k].resp)) +
    seq(|dir.judge|, k requires 0 <= k < |dir.judge| => Answer(JudgeKeyOf(sha, dir.judge[k].id), dir.judge[k].resp))
  }

  /** The row `_judge_slot` appends, in the judge file. */
  function JudgeLogRow(sha: string -> string, problem: string, r: J.JudgeRow, model: string): LogRow {
    LogRow(Judging.RowOf(sha, problem, r.id.proof, r.id.judge, r.id.slot, Judging.Judgment(r.id.attempt, r.resp), model), RoleJudge, 0)
  }

  /** The whole directory as rows; `xs` and `models` hold the fields that identity and replay do not read. */
  function AllRows(sha: string -> string, problem: string, dir: Directory, xs: seq<Extra>, models: seq<string>): (r: seq<LogRow>)
    requires |xs| == |dir.search| && |models| == |dir.judge|
    ensures |r| == |dir.search| + |dir.judge|
    ensures forall k :: 0 <= k < |dir.search| ==> r[k] == LogOf(sha, problem, dir.search[k], xs[k])
    ensures forall k :: 0 <= k < |dir.judge| ==> r[|dir.search| + k] == JudgeLogRow(sha, problem, dir.judge[k], models[k])
  {
    RowsWritten(sha, problem, dir.search, xs) +
    seq(|dir.judge|, k requires 0 <= k < |dir.judge| => JudgeLogRow(sha, problem, dir.judge[k], models[k]))
  }

  lemma JudgeLogMapsBack(sha: string -> string, problem: string, r: J.JudgeRow, model: string)
    requires GoodHash(sha)
    ensures Ident(sha, JudgeLogRow(sha, problem, r, model)) == Some(Print(problem, JudgeKeyOf(sha, r.id)))
    ensures ResponseOf(JudgeLogRow(sha, problem, r, model).row) == r.resp
  {
    Judging.JudgeRowMapsBack(sha, problem, r.id.proof, r.id.judge, r.id.slot, Judging.Judgment(r.id.attempt, r.resp), model);
  }

  lemma KnownJudgment(sha: string -> string, dir: Directory, k: nat)
    requires k < |dir.judge|
    ensures |dir.search| + k < |Known(sha, dir)|
    ensures Known(sha, dir)[|dir.search| + k] == Answer(JudgeKeyOf(sha, dir.judge[k].id), dir.judge[k].resp)
  {
  }

  /** The row answers for its name, with its response. */
  ghost predicate CarriesAt(sha: string -> string, names: Key -> string, row: LogRow, known: Answer) {
    Ident(sha, row) == Some(names(known.key)) && ResponseOf(row.row) == known.resp
  }

  lemma SearchRowCarries(sha: string -> string, problem: string, e: Entry, x: Extra, names: Key -> string)
    requires GoodHash(sha) && forall k :: names(k) == Print(problem, k)
    ensures CarriesAt(sha, names, LogOf(sha, problem, e, x), Answer(KeyOf(sha, e.id), e.resp))
  {
    RowMapsBack(sha, problem, e, x);
    assert names(KeyOf(sha, e.id)) == Print(problem, KeyOf(sha, e.id));
  }

  lemma JudgeRowCarries(sha: string -> string, problem: string, r: J.JudgeRow, model: string, names: Key -> string)
    requires GoodHash(sha) && forall k :: names(k) == Print(problem, k)
    ensures CarriesAt(sha, names, JudgeLogRow(sha, problem, r, model), Answer(JudgeKeyOf(sha, r.id), r.resp))
  {
    JudgeLogMapsBack(sha, problem, r, model);
    assert names(JudgeKeyOf(sha, r.id)) == Print(problem, JudgeKeyOf(sha, r.id));
  }

  lemma AllRowsCarry(sha: string -> string, problem: string, dir: Directory, xs: seq<Extra>, models: seq<string>, names: Key -> string)
    requires GoodHash(sha) && |xs| == |dir.search| && |models| == |dir.judge| && forall k :: names(k) == Print(problem, k)
    ensures Carries(sha, names, AllRows(sha, problem, dir, xs, models), Known(sha, dir))
  {
    var rows, known, n := AllRows(sha, problem, dir, xs, models), Known(sha, dir), |dir.search|;
    forall k | 0 <= k < |rows| ensures CarriesAt(sha, names, rows[k], known[k]) {
      if k < n {
        SearchRowCarries(sha, problem, dir.search[k], xs[k], names);
      } else {
        var i := k - n;
        KnownJudgment(sha, dir, i);
        assert rows[n + i] == JudgeLogRow(sha, problem, dir.judge[i], models[i]);
        JudgeRowCarries(sha, problem, dir.judge[i], models[i], names);
      }
    }
  }

  lemma KnownKeyAt(sha: string -> string, dir: Directory, k: nat)
    requires k < |dir.search| + |dir.judge|
    ensures |RowKeys(sha, dir)| == |dir.search| + |dir.judge| && Known(sha, dir)[k].key == RowKeys(sha, dir)[k]
  {
    var n := |dir.search|;
    if k >= n {
      var i := k - n;
      assert Known(sha, dir)[n + i].key == JudgeKeyOf(sha, dir.judge[i].id);
    }
  }

  lemma KnownKeys(sha: string -> string, dir: Directory)
    ensures Keys(Known(sha, dir)) == RowKeys(sha, dir)
  {
    forall k | 0 <= k < |Known(sha, dir)| ensures Keys(Known(sha, dir))[k] == RowKeys(sha, dir)[k] {
      KnownKeyAt(sha, dir, k);
    }
  }

  /** The name of a key is found exactly when the directory has a row for it, with that row's response. */
  lemma FoundExactly(sha: string -> string, problem: string, dir: Directory, xs: seq<Extra>, models: seq<string>, log: seq<LogRow>, key: Key)
    requires GoodHash(sha) && Single(dir) && PlainPrompts(dir) && |xs| == |dir.search| && |models| == |dir.judge|
    requires multiset(log) == multiset(AllRows(sha, problem, dir, xs, models)) && Plain(key)
    ensures var found := IndexOf(sha, log).byIdentity;
      && (Print(problem, key) in found <==> key in RowKeys(sha, dir))
      && forall k :: 0 <= k < |Known(sha, dir)| && Known(sha, dir)[k].key == key ==>
           Print(problem, key) in found && ResponseOf(found[Print(problem, key)]) == Known(sha, dir)[k].resp
  {
    var names := (k: Key) => Print(problem, k);
    var known := Known(sha, dir);
    KnownKeys(sha, dir);
    IdsPrintable(dir);
    KeysDistinct(sha, Ids(dir.search), J.RowIds(dir.judge));
    KeysArePlain(sha, Ids(dir.search), J.RowIds(dir.judge));
    forall k | 0 <= k < |known| ensures Plain(known[k].key) {
      assert Keys(known)[k] in RowKeys(sha, dir);
    }
    AllRowsCarry(sha, problem, dir, xs, models, names);
    PrintDistinguishes(problem, names, known, key);
    LedgerAnswers(sha, names, log, AllRows(sha, problem, dir, xs, models), known, key);
    assert names(key) == Print(problem, key);
  }

  lemma WorkKeyInRows(sha: string -> string, dir: Directory, id: WorkId)
    requires GoodHash(sha)
    ensures KeyOf(sha, id) in RowKeys(sha, dir) <==> id in Ids(dir.search)
  {
    var keys, ids := RowKeys(sha, dir), Ids(dir.search);
    if id in ids {
      var k :| 0 <= k < |ids| && ids[k] == id;
      assert keys[k] == KeyOf(sha, id);
    }
    if KeyOf(sha, id) in keys {
      var k :| 0 <= k < |keys| && keys[k] == KeyOf(sha, id);
      assert k < |ids|;
      KeyInjective(sha, ids[k], id);
    }
  }

  lemma JudgeKeyInRows(sha: string -> string, dir: Directory, id: J.JudgeId)
    requires GoodHash(sha)
    ensures JudgeKeyOf(sha, id) in RowKeys(sha, dir) <==> id in J.RowIds(dir.judge)
  {
    var keys, ids, n := RowKeys(sha, dir), J.RowIds(dir.judge), |dir.search|;
    if id in ids {
      var k :| 0 <= k < |ids| && ids[k] == id;
      assert keys[n + k] == JudgeKeyOf(sha, id);
    }
    if JudgeKeyOf(sha, id) in keys {
      var k :| 0 <= k < |keys| && keys[k] == JudgeKeyOf(sha, id);
      assert k >= n && ids[k - n] == id;
    }
  }

  lemma {:induction false} ScanOfSingle(rows: seq<J.JudgeRow>, k: nat)
    requires NoDup(J.RowIds(rows)) && k < |rows|
    ensures rows[k].id in J.ScanRows(rows) && J.ScanRows(rows)[rows[k].id] == rows[k].resp
  {
    var front, last := rows[..|rows| - 1], rows[|rows| - 1];
    assert J.RowIds(rows) == J.RowIds(front) + [last.id];
    R.ScanKeys(front);
    if k < |front| {
      assert forall i, j :: 0 <= i < j < |front| ==> J.RowIds(front)[i] == J.RowIds(rows)[i] && J.RowIds(front)[j] == J.RowIds(rows)[j];
      ScanOfSingle(front, k);
      assert J.RowIds(rows)[k] != J.RowIds(rows)[|front|];
    } else {
      forall i | 0 <= i < |front| ensures J.RowIds(front)[i] != last.id {
        assert J.RowIds(rows)[i] != J.RowIds(rows)[|front|];
      }
    }
  }

  /** A scanned directory answers generation, verification and refinement requests as the search assumes. */
  lemma AnswersSearch(sha: string -> string, problem: string, dir: Directory, xs: seq<Extra>, models: seq<string>, log: seq<LogRow>, id: WorkId)
    requires GoodHash(sha) && Single(dir) && PlainPrompts(dir) && |xs| == |dir.search| && |models| == |dir.judge|
    requires multiset(log) == multiset(AllRows(sha, problem, dir, xs, models)) && Printable(id)
    ensures var found, name := IndexOf(sha, log).byIdentity, RequestIdentity(sha, problem, id);
      (name in found <==> id in Scan(dir.search)) && (name in found ==> ResponseOf(found[name]) == Scan(dir.search)[id])
  {
    KeysPlain(sha, id);
    FoundExactly(sha, problem, dir, xs, models, log, KeyOf(sha, id));
    WorkKeyInRows(sha, dir, id);
    D.ScanKeys(dir.search);
    if id in Ids(dir.search) {
      var k :| 0 <= k < |dir.search| && Ids(dir.search)[k] == id;
      D.NoDupOneAnswer(dir.search);
      D.ScanOfOne(dir.search, dir.search[k]);
      assert Known(sha, dir)[k].key == KeyOf(sha, id);
    }
  }

  /** And judge requests as the judge phase assumes. */
  lemma AnswersJudging(sha: string -> string, problem: string, dir: Directory, xs: seq<Extra>, models: seq<string>, log: seq<LogRow>, id: J.JudgeId)
    requires GoodHash(sha) && Single(dir) && PlainPrompts(dir) && |xs| == |dir.search| && |models| == |dir.judge|
    requires multiset(log) == multiset(AllRows(sha, problem, dir, xs, models))
    ensures var found, name := IndexOf(sha, log).byIdentity, JudgeIdentity(problem, sha(id.proof), id.judge, id.slot, id.attempt);
      (name in found <==> id in J.ScanRows(dir.judge)) && (name in found ==> ResponseOf(found[name]) == J.ScanRows(dir.judge)[id])
  {
    FoundExactly(sha, problem, dir, xs, models, log, JudgeKeyOf(sha, id));
    JudgeKeyInRows(sha, dir, id);
    R.ScanKeys(dir.judge);
    if id in J.RowIds(dir.judge) {
      var k :| 0 <= k < |dir.judge| && J.RowIds(dir.judge)[k] == id;
      ScanOfSingle(dir.judge, k);
      KnownJudgment(sha, dir, k);
    }
  }

  /**
   * End to end: whatever launches, crashes and relaunches of search and judging wrote into an empty directory, the
   * ledger the next launch scans from it, in whatever order the rows are read, answers every request of every role
   * exactly as that launch's search and judging assume.
   */
  lemma RelaunchReadsWhatWasWritten(su: Setup, launches: seq<Launch>, sha: string -> string, problem: string,
                                    xs: seq<Extra>, models: seq<string>, log: seq<LogRow>, id: WorkId, judgment: J.JudgeId)
    requires ValidSetup(su) && LegalHistory(su, EMPTY_DIRECTORY, launches) && GoodHash(sha)
    requires (forall p :: p in su.cfg.prompts ==> ':' !in p) && Printable(id)
    requires var dir := DirectoryAfter(su, EMPTY_DIRECTORY, launches);
      |xs| == |dir.search| && |models| == |dir.judge| && multiset(log) == multiset(AllRows(sha, problem, dir, xs, models))
    ensures var dir, found := DirectoryAfter(su, EMPTY_DIRECTORY, launches), IndexOf(sha, log).byIdentity;
      var name, judged := RequestIdentity(sha, problem, id), JudgeIdentity(problem, sha(judgment.proof), judgment.judge, judgment.slot, judgment.attempt);
      && (name in found <==> id in Init(su.cfg, dir.search).ledger) && (name in found ==> ResponseOf(found[name]) == Init(su.cfg, dir.search).ledger[id])
      && (judged in found <==> judgment in J.ScanRows(dir.judge)) && (judged in found ==> ResponseOf(found[judged]) == J.ScanRows(dir.judge)[judgment])
  {
    var dir := DirectoryAfter(su, EMPTY_DIRECTORY, launches);
    HistoryKeepsSingle(su, EMPTY_DIRECTORY, launches);
    HistoryPlain(su, EMPTY_DIRECTORY, launches);
    AnswersSearch(sha, problem, dir, xs, models, log, id);
    AnswersJudging(sha, problem, dir, xs, models, log, judgment);
  }

  // ---- the search part of a history ----------------------------------------------------------------------

  function Searches(launches: seq<Launch>): (r: seq<seq<Event>>)
    ensures |r| == |launches| && forall k :: 0 <= k < |r| ==> r[k] == launches[k].search
  {
    seq(|launches|, k requires 0 <= k < |launches| => launches[k].search)
  }

  /** Judging leaves the search alone: a history with judging is, for the search rows, the history of its searches. */
  lemma {:induction false} SearchPart(su: Setup, dir: Directory, launches: seq<Launch>)
    requires LegalHistory(su, dir, launches)
    ensures Search.LegalHistory(su.cfg, dir.search, Searches(launches))
    ensures Search.DiskAfter(su.cfg, dir.search, Searches(launches)) == DirectoryAfter(su, dir, launches).search
    decreases launches
  {
    if launches != [] {
      SearchPart(su, Left(su, dir, launches[0]), launches[1..]);
      assert Searches(launches)[1..] == Searches(launches[1..]);
    }
  }
}
