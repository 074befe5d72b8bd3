/** The resume ledger (resume.py): an index over the rows on disk, with three views of the same rows. */
module ResumeLedger {
  import opened Options
  import opened Identity
  import opened Text
  import Sorting

  datatype Role = RoleGen | RoleVerify | RoleRefine | RoleJudge

  /** The fields of a persisted row that identity and replay read; `None` is an absent key. */
  datatype Row = Row(
    problem: Option<string>, generation: Option<string>, finish: Option<string>,
    promptId: Option<string>, modelId: Option<string>, randomSeed: Option<int>, trial: Option<int>,
    proofSha: Option<string>, proof: Option<string>,
    verifierId: Option<string>, verificationSeed: Option<int>,
    judgeId: Option<string>, slot: Option<int>, attempt: Option<int>)

  /** `row_proof_sha`; `sha` stands for `sha256_text`. */
  function RowProofSha(sha: string -> string, row: Row): Option<string> {
    if row.proofSha.Some? && row.proofSha.value != "" then row.proofSha
    else if row.proof.Some? then Some(sha(row.proof.value))
    else None
  }

  /** What a row answers, or nothing for a row that is not a completed response. */
  function RowKey(sha: string -> string, row: Row, role: Role, round: int): Option<Key> {
    if row.generation.None? || row.problem.None? then None
    else match role
      case RoleGen =>
        if row.promptId.None? || row.modelId.None? || row.randomSeed.None? then None
        else Some(GenKey(row.promptId.value, row.modelId.value, row.randomSeed.value))
      case RoleRefine =>
        if row.trial.None? || row.modelId.None? || row.randomSeed.None? then None
        else Some(RefineKey(round, row.trial.value, row.modelId.value, row.randomSeed.value))
      case RoleVerify =>
        var s := RowProofSha(sha, row);
        if s.None? || row.verifierId.None? || row.verificationSeed.None? then None
        else Some(VerifyKey(round, s.value, row.verifierId.value, row.verificationSeed.value))
      case RoleJudge =>
        var s := RowProofSha(sha, row);
        if s.None? || row.judgeId.None? || row.slot.None? || row.attempt.None? then None
        else Some(JudgeKey(s.value, row.judgeId.value, row.slot.value, row.attempt.value))
  }

  function RowIdentity(sha: string -> string, row: Row, role: Role, round: int): Option<string> {
    match RowKey(sha, row, role, round)
    case None => None
    case Some(k) => Some(Print(row.problem.value, k))
  }

  /** One row, with the directory it was found in. */
  datatype LogRow = LogRow(row: Row, role: Role, round: int)

  function Ident(sha: string -> string, e: LogRow): Option<string> {
    RowIdentity(sha, e.row, e.role, e.round)
  }

  predicate IsComplete(row: Row) {
    IsCompleteFinishReason(row.finish)
  }

  /** A row that holds the proof's text in place of its hash, or an empty hash, is the same work; with neither it is none. */
  lemma TextStandsForHash(sha: string -> string, row: Row, role: Role, round: int, text: string)
    requires sha(text) != ""
    ensures var r := row.(proof := Some(text));
      RowIdentity(sha, r.(proofSha := None), role, round) == RowIdentity(sha, r.(proofSha := Some(sha(text))), role, round)
        == RowIdentity(sha, r.(proofSha := Some("")), role, round)
    ensures role == RoleVerify || role == RoleJudge ==> RowIdentity(sha, row.(proof := None, proofSha := None), role, round).None?
  {
  }

  // ---- the index as the code builds it ---------------------------------------

  type AttemptKey = (string, string, int)

  datatype Index = Index(
    byIdentity: map<string, Row>,
    byRoleRound: map<(Role, int), seq<Row>>,
    judgeAttempts: map<AttemptKey, seq<Row>>)

  const EMPTY := Index(map[], map[], map[])

  function Listed<K(==)>(m: map<K, seq<Row>>, k: K): seq<Row> {
    if k in m then m[k] else []
  }

  function AttemptKeyOf(sha: string -> string, row: Row): Option<AttemptKey> {
    var s := RowProofSha(sha, row);
    if s.None? || row.judgeId.None? || row.slot.None? then None
    else Some((s.value, row.judgeId.value, row.slot.value))
  }

  function ReplaceFirst(rows: seq<Row>, existing: Row, row: Row): seq<Row> {
    if rows == [] then []
    else if rows[0] == existing then [row] + rows[1..]
    else [rows[0]] + ReplaceFirst(rows[1..], existing, row)
  }

  function Replaced<K(==)>(m: map<K, seq<Row>>, k: K, existing: Row, row: Row): map<K, seq<Row>> {
    if k in m then m[k := ReplaceFirst(m[k], existing, row)] else m
  }

  /** `_add`, with `_replace` for a complete row that supersedes a truncated one. */
  function Added(sha: string -> string, ix: Index, e: LogRow): Index {
    match Ident(sha, e)
    case None => ix
    case Some(id) =>
      var key := AttemptKeyOf(sha, e.row);
      if id in ix.byIdentity then
        var existing := ix.byIdentity[id];
        if IsComplete(existing) || !IsComplete(e.row) then ix
        else Index(
          ix.byIdentity[id := e.row],
          Replaced(ix.byRoleRound, (e.role, e.round), existing, e.row),
          if e.role == RoleJudge && key.Some? then Replaced(ix.judgeAttempts, key.value, existing, e.row) else ix.judgeAttempts)
      else Index(
        ix.byIdentity[id := e.row],
        ix.byRoleRound[(e.role, e.round) := Listed(ix.byRoleRound, (e.role, e.round)) + [e.row]],
        if e.role == RoleJudge && key.Some? then ix.judgeAttempts[key.value := Listed(ix.judgeAttempts, key.value) + [e.row]]
        else ix.judgeAttempts)
  }

  function IndexOf(sha: string -> string, log: seq<LogRow>): Index {
    if log == [] then EMPTY else Added(sha, IndexOf(sha, log[..|log| - 1]), log[|log| - 1])
  }

  function AttemptNo(row: Row): int {
    if row.attempt.Some? then row.attempt.value else 0
  }

  predicate EarlierAttempt(a: Row, b: Row) {
    AttemptNo(a) < AttemptNo(b)
  }

  /** `judge_attempts`: the rows of a slot, sorted by attempt. */
  function AttemptsOf(ix: Index, key: AttemptKey): seq<Row> {
    Sorting.Sort(EarlierAttempt, Listed(ix.judgeAttempts, key))
  }

  // ---- the simple specification -------------------------------------------------

  /** All rows answering one identity, in log order. */
  function RowsFor(sha: string -> string, log: seq<LogRow>, id: string): seq<Row> {
    if log == [] then []
    else RowsFor(sha, log[..|log| - 1], id) +
         (if Ident(sha, log[|log| - 1]) == Some(id) then [log[|log| - 1].row] else [])
  }

  function FirstComplete(rows: seq<Row>): Option<Row> {
    if rows == [] then None else if IsComplete(rows[0]) then Some(rows[0]) else FirstComplete(rows[1..])
  }

  /** The first complete row of an identity, else its first row. */
  function Winner(sha: string -> string, log: seq<LogRow>, id: string): Option<Row> {
    var rows := RowsFor(sha, log, id);
    if rows == [] then None
    else if FirstComplete(rows).Some? then FirstComplete(rows)
    else Some(rows[0])
  }

  lemma {:induction false} FirstCompleteAppend(rows: seq<Row>, row: Row)
    ensures FirstComplete(rows + [row]) ==
      if FirstComplete(rows).Some? then FirstComplete(rows) else if IsComplete(row) then Some(row) else None
  {
    if rows != [] {
      FirstCompleteAppend(rows[1..], row);
      assert (rows + [row])[1..] == rows[1..] + [row];
    }
  }

  lemma {:induction false} FirstCompleteIsComplete(rows: seq<Row>)
    ensures FirstComplete(rows).Some? ==> IsComplete(FirstComplete(rows).value)
    ensures FirstComplete(rows).None? ==> forall r :: r in rows ==> !IsComplete(r)
  {
    if rows != [] {
      FirstCompleteIsComplete(rows[1..]);
      assert rows == [rows[0]] + rows[1..];
    }
  }

  /** How one more row changes the winner of an identity. */
  lemma WinnerAppend(sha: string -> string, log: seq<LogRow>, e: LogRow, id: string)
    ensures Winner(sha, log + [e], id) ==
      var w := Winner(sha, log, id);
      if Ident(sha, e) != Some(id) then w
      else if w.Some? && (IsComplete(w.value) || !IsComplete(e.row)) then w
      else Some(e.row)
  {
    var rows := RowsFor(sha, log, id);
    assert (log + [e])[..|log|] == log;
    FirstCompleteAppend(rows, e.row);
    FirstCompleteIsComplete(rows);
    assert rows + [] == rows;
    if rows != [] { assert rows[0] in rows && (rows + [e.row])[0] == rows[0]; }
  }

  ghost predicate MapExact(sha: string -> string, ix: Index, log: seq<LogRow>) {
    forall id :: Winner(sha, log, id) == if id in ix.byIdentity then Some(ix.byIdentity[id]) else None
  }

  /** Scanning any log resolves every identity to its first complete row, else its first row. */
  lemma {:induction false} ScanIsFirstCompleteElseFirst(sha: string -> string, log: seq<LogRow>)
    ensures MapExact(sha, IndexOf(sha, log), log)
  {
    if log != [] {
      var front, e := log[..|log| - 1], log[|log| - 1];
      ScanIsFirstCompleteElseFirst(sha, front);
      assert log == front + [e];
      forall id ensures Winner(sha, log, id) ==
        (var ix := IndexOf(sha, log); if id in ix.byIdentity then Some(ix.byIdentity[id]) else None)
      {
        WinnerAppend(sha, front, e, id);
        assert Winner(sha, front, id) ==
          (var ix := IndexOf(sha, front); if id in ix.byIdentity then Some(ix.byIdentity[id]) else None);
      }
    }
  }

  // ---- the three views agree ------------------------------------------------------

  /** The lists the ledger keeps beside the identity map. */
  datatype Bucket = InRound(role: Role, round: int) | OfSlot(key: AttemptKey)

  function ListOf(ix: Index, b: Bucket): seq<Row> {
    match b
    case InRound(role, round) => Listed(ix.byRoleRound, (role, round))
    case OfSlot(key) => Listed(ix.judgeAttempts, key)
  }

  predicate InBucket(sha: string -> string, e: LogRow, b: Bucket) {
    match b
    case InRound(role, round) => e.role == role && e.round == round
    case OfSlot(key) => e.role == RoleJudge && AttemptKeyOf(sha, e.row) == Some(key)
  }

  /** The identities of a bucket, each where it first appeared. */
  function Order(sha: string -> string, log: seq<LogRow>, b: Bucket): seq<string> {
    if log == [] then []
    else
      var front, e := log[..|log| - 1], log[|log| - 1];
      Order(sha, front, b) +
        match Ident(sha, e)
        case None => []
        case Some(id) => if InBucket(sha, e, b) && RowsFor(sha, front, id) == [] then [id] else []
  }

  /** What the identity map holds for some identities, in order. */
  function Resolve(m: map<string, Row>, ids: seq<string>): seq<Row> {
    if ids == [] then [] else (if ids[0] in m then [m[ids[0]]] else []) + Resolve(m, ids[1..])
  }

  /** The layout the sink writes: one problem per directory, generations under round 1, plain proof hashes. */
  ghost predicate Tidy(sha: string -> string, problem: string, e: LogRow) {
    RowKey(sha, e.row, e.role, e.round).Some? ==>
      && e.row.problem == Some(problem)
      && (e.role == RoleGen ==> e.round == 1)
      && (e.role == RoleJudge ==> e.round == 0)
      && (e.role == RoleVerify || e.role == RoleJudge ==> Plain(RowKey(sha, e.row, e.role, e.round).value))
  }

  ghost predicate TidyLog(sha: string -> string, problem: string, log: seq<LogRow>) {
    forall e :: e in log ==> Tidy(sha, problem, e)
  }

  function Initial(k: Key): char {
    match k case GenKey(_, _, _) => 'g' case RefineKey(_, _, _, _) => 'r' case VerifyKey(_, _, _, _) => 'v' case JudgeKey(_, _, _, _) => 'j'
  }

  lemma PrintInitial(problem: string, k: Key)
    ensures Print(problem, k) != "" && Print(problem, k)[0] == Initial(k)
  {
  }

  lemma RoleOfKey(sha: string -> string, e: LogRow)
    requires RowKey(sha, e.row, e.role, e.round).Some?
    ensures var k := RowKey(sha, e.row, e.role, e.round).value;
      match e.role
      case RoleGen => k.GenKey?
      case RoleRefine => k.RefineKey? && k.round == e.round
      case RoleVerify => k.VerifyKey? && k.round == e.round
      case RoleJudge => k.JudgeKey? && AttemptKeyOf(sha, e.row) == Some((k.sha, k.judge, k.slot))
  {
  }

  /** In a tidy log an identity names its bucket. */
  lemma SameIdentitySameBucket(sha: string -> string, problem: string, e: LogRow, e': LogRow, b: Bucket)
    requires Tidy(sha, problem, e) && Tidy(sha, problem, e')
    requires Ident(sha, e).Some? && Ident(sha, e) == Ident(sha, e')
    ensures InBucket(sha, e, b) <==> InBucket(sha, e', b)
    ensures e.role == e'.role && e.round == e'.round
  {
    var k, k' := RowKey(sha, e.row, e.role, e.round).value, RowKey(sha, e'.row, e'.role, e'.round).value;
    assert Print(problem, k) == Print(problem, k');
    PrintInitial(problem, k);
    PrintInitial(problem, k');
    RoleOfKey(sha, e);
    RoleOfKey(sha, e');
    if !k.GenKey? {
      PrintInjective(problem, k, k');
    }
  }

  function BucketIdentity(sha: string -> string, row: Row, b: Bucket): Option<string> {
    match b
    case InRound(role, round) => RowIdentity(sha, row, role, round)
    case OfSlot(_) => RowIdentity(sha, row, RoleJudge, 0)
  }

  lemma {:induction false} FirstCompleteMember(rows: seq<Row>)
    ensures FirstComplete(rows).Some? ==> FirstComplete(rows).value in rows
  {
    if rows != [] {
      FirstCompleteMember(rows[1..]);
      assert rows == [rows[0]] + rows[1..];
    }
  }

  lemma {:induction false} RowsForMember(sha: string -> string, log: seq<LogRow>, id: string, r: Row)
    requires r in RowsFor(sha, log, id)
    ensures exists e :: e in log && Ident(sha, e) == Some(id) && e.row == r
  {
    var front, e := log[..|log| - 1], log[|log| - 1];
    assert log == front + [e];
    if r in RowsFor(sha, front, id) {
      RowsForMember(sha, front, id, r);
    } else {
      assert e in log && Ident(sha, e) == Some(id) && e.row == r;
    }
  }

  lemma WinnerMember(sha: string -> string, log: seq<LogRow>, id: string)
    requires Winner(sha, log, id).Some?
    ensures exists e :: e in log && Ident(sha, e) == Some(id) && e.row == Winner(sha, log, id).value
  {
    FirstCompleteMember(RowsFor(sha, log, id));
    RowsForMember(sha, log, id, Winner(sha, log, id).value);
  }

  lemma {:induction false} RowsForMentioned(sha: string -> string, log: seq<LogRow>, e: LogRow)
    requires e in log && Ident(sha, e).Some?
    ensures RowsFor(sha, log, Ident(sha, e).value) != []
  {
    var front, last := log[..|log| - 1], log[|log| - 1];
    assert log == front + [last];
    if e != last { RowsForMentioned(sha, front, e); }
  }

  lemma BucketIdentityOf(sha: string -> string, e: LogRow, b: Bucket)
    requires InBucket(sha, e, b)
    ensures BucketIdentity(sha, e.row, b) == Ident(sha, e)
  {
  }

  /** The identity map's row for an identity is a row of the log. */
  lemma MappedRow(sha: string -> string, log: seq<LogRow>, id: string) returns (e: LogRow)
    requires id in IndexOf(sha, log).byIdentity
    ensures e in log && Ident(sha, e) == Some(id) && e.row == IndexOf(sha, log).byIdentity[id]
  {
    ScanIsFirstCompleteElseFirst(sha, log);
    assert Winner(sha, log, id).Some?;
    WinnerMember(sha, log, id);
    e :| e in log && Ident(sha, e) == Some(id) && e.row == Winner(sha, log, id).value;
  }

  lemma MappedIffMentioned(sha: string -> string, log: seq<LogRow>, id: string)
    ensures id in IndexOf(sha, log).byIdentity <==> RowsFor(sha, log, id) != []
  {
    ScanIsFirstCompleteElseFirst(sha, log);
    assert Winner(sha, log, id).Some? <==> RowsFor(sha, log, id) != [];
  }

  lemma MentionedIsMapped(sha: string -> string, log: seq<LogRow>, e: LogRow)
    requires e in log && Ident(sha, e).Some?
    ensures Ident(sha, e).value in IndexOf(sha, log).byIdentity
  {
    RowsForMentioned(sha, log, e);
    MappedIffMentioned(sha, log, Ident(sha, e).value);
  }

  /** Identities of a bucket are listed once, and come from rows of that bucket. */
  lemma {:induction false} OrderFacts(sha: string -> string, log: seq<LogRow>, b: Bucket)
    ensures NoDup(Order(sha, log, b))
    ensures forall id :: id in Order(sha, log, b) ==> exists e :: e in log && Ident(sha, e) == Some(id) && InBucket(sha, e, b)
  {
    if log != [] {
      var front, e := log[..|log| - 1], log[|log| - 1];
      assert log == front + [e];
      OrderFacts(sha, front, b);
      OrderAppend(sha, front, e, b);
      var ids := Order(sha, front, b);
      if Ident(sha, e).Some? && RowsFor(sha, front, Ident(sha, e).value) == [] {
        var id := Ident(sha, e).value;
        if id in ids {
          var d :| d in front && Ident(sha, d) == Some(id) && InBucket(sha, d, b);
          RowsForMentioned(sha, front, d);
        }
        NoDupAppend(ids, id);
      }
    }
  }

  lemma OrderAppend(sha: string -> string, log: seq<LogRow>, e: LogRow, b: Bucket)
    ensures Order(sha, log + [e], b) == Order(sha, log, b) +
      match Ident(sha, e)
      case None => []
      case Some(id) => if InBucket(sha, e, b) && RowsFor(sha, log, id) == [] then [id] else []
  {
    assert (log + [e])[..|log|] == log;
  }

  lemma {:induction false} ResolveSame(m: map<string, Row>, m': map<string, Row>, ids: seq<string>)
    requires forall id :: id in ids ==> id in m && id in m' && m[id] == m'[id]
    ensures Resolve(m, ids) == Resolve(m', ids)
  {
    if ids != [] {
      assert ids[0] in ids && forall id :: id in ids[1..] ==> id in ids;
      ResolveSame(m, m', ids[1..]);
    }
  }

  lemma {:induction false} ResolveAppend(m: map<string, Row>, ids: seq<string>, id: string)
    requires id in m
    ensures Resolve(m, ids + [id]) == Resolve(m, ids) + [m[id]]
  {
    if ids == [] {
      assert ids + [id] == [id];
    } else {
      ResolveAppend(m, ids[1..], id);
      assert (ids + [id])[1..] == ids[1..] + [id];
    }
  }

  /** Each listed identity is mapped to a row that carries it. */
  ghost predicate Listable(sha: string -> string, m: map<string, Row>, b: Bucket, ids: seq<string>) {
    NoDup(ids) && forall x :: x in ids ==> x in m && BucketIdentity(sha, m[x], b) == Some(x)
  }

  /** Replacing a superseded row in a list replaces exactly its own place. */
  lemma {:induction false} ReplaceResolved(sha: string -> string, m: map<string, Row>, b: Bucket, ids: seq<string>, id: string, row: Row)
    requires Listable(sha, m, b, ids) && id in ids
    ensures ReplaceFirst(Resolve(m, ids), m[id], row) == Resolve(m[id := row], ids)
  {
    var rest := ids[1..];
    assert ids == [ids[0]] + rest && ids[0] in ids;
    assert forall i :: 0 <= i < |rest| ==> rest[i] == ids[i + 1];
    assert Resolve(m, ids)[1..] == Resolve(m, rest);
    if ids[0] == id {
      assert forall x :: x in rest ==> x != id;
      ResolveSame(m, m[id := row], rest);
    } else {
      ReplaceResolved(sha, m, b, rest, id, row);
    }
  }

  /** How one more row changes one list. */
  lemma AddedList(sha: string -> string, ix: Index, e: LogRow, b: Bucket, id: string)
    requires Ident(sha, e) == Some(id)
    ensures ListOf(Added(sha, ix, e), b) ==
      if !InBucket(sha, e, b) then ListOf(ix, b)
      else if id !in ix.byIdentity then ListOf(ix, b) + [e.row]
      else if IsComplete(ix.byIdentity[id]) || !IsComplete(e.row) then ListOf(ix, b)
      else ReplaceFirst(ListOf(ix, b), ix.byIdentity[id], e.row)
  {
    RoleOfKey(sha, e);
  }

  /** The row replaces what the identity map holds for `id`. */
  predicate Superseded(m: map<string, Row>, id: string, row: Row) {
    id in m && !IsComplete(m[id]) && IsComplete(row)
  }

  lemma ViewStep(sha: string -> string, ix: Index, ids: seq<string>, e: LogRow, b: Bucket, id: string)
    requires Ident(sha, e) == Some(id)
    requires Listable(sha, ix.byIdentity, b, ids) && ListOf(ix, b) == Resolve(ix.byIdentity, ids)
    requires Superseded(ix.byIdentity, id, e.row) ==> (id in ids <==> InBucket(sha, e, b))
    ensures ListOf(Added(sha, ix, e), b) ==
      Resolve(Added(sha, ix, e).byIdentity, ids + (if InBucket(sha, e, b) && id !in ix.byIdentity then [id] else []))
  {
    AddedList(sha, ix, e, b, id);
    var m := ix.byIdentity;
    assert ids + [] == ids;
    if id !in m {
      ResolveSame(m, m[id := e.row], ids);
      ResolveAppend(m[id := e.row], ids, id);
    } else if !IsComplete(m[id]) && IsComplete(e.row) {
      if id in ids {
        ReplaceResolved(sha, m, b, ids, id, e.row);
      } else {
        ResolveSame(m, m[id := e.row], ids);
      }
    }
  }

  /** The first row of an identity, with the directory it was found in. */
  function FirstRow(sha: string -> string, log: seq<LogRow>, id: string): Option<LogRow> {
    if log == [] then None
    else
      var front, e := log[..|log| - 1], log[|log| - 1];
      if FirstRow(sha, front, id).Some? then FirstRow(sha, front, id)
      else if Ident(sha, e) == Some(id) then Some(e) else None
  }

  lemma FirstRowAppend(sha: string -> string, log: seq<LogRow>, e: LogRow, id: string)
    ensures FirstRow(sha, log + [e], id) ==
      if FirstRow(sha, log, id).Some? then FirstRow(sha, log, id) else if Ident(sha, e) == Some(id) then Some(e) else None
  {
    assert (log + [e])[..|log|] == log;
  }

  lemma {:induction false} FirstRowFacts(sha: string -> string, log: seq<LogRow>, id: string)
    ensures FirstRow(sha, log, id).Some? <==> RowsFor(sha, log, id) != []
    ensures FirstRow(sha, log, id).Some? ==>
      FirstRow(sha, log, id).value in log && Ident(sha, FirstRow(sha, log, id).value) == Some(id) &&
      RowsFor(sha, log, id)[0] == FirstRow(sha, log, id).value.row
  {
    if log != [] {
      var front, e := log[..|log| - 1], log[|log| - 1];
      assert log == front + [e];
      FirstRowFacts(sha, front, id);
    }
  }

  /** An identity is listed in exactly the buckets of its first row. */
  lemma {:induction false} ListedWithFirstRow(sha: string -> string, log: seq<LogRow>, b: Bucket, id: string)
    ensures id in Order(sha, log, b) <==> (FirstRow(sha, log, id).Some? && InBucket(sha, FirstRow(sha, log, id).value, b))
  {
    if log != [] {
      var front, e := log[..|log| - 1], log[|log| - 1];
      assert log == front + [e];
      ListedWithFirstRow(sha, front, b, id);
      ListedStep(sha, log, front, e, b, id);
    } else {
      assert Order(sha, log, b) == [] && FirstRow(sha, log, id).None?;
    }
  }

  lemma {:induction false} ListedStep(sha: string -> string, log: seq<LogRow>, front: seq<LogRow>, e: LogRow, b: Bucket, id: string)
    requires log == front + [e]
    requires id in Order(sha, front, b) <==> (FirstRow(sha, front, id).Some? && InBucket(sha, FirstRow(sha, front, id).value, b))
    ensures id in Order(sha, log, b) <==> (FirstRow(sha, log, id).Some? && InBucket(sha, FirstRow(sha, log, id).value, b))
  {
    FirstRowFacts(sha, front, id);
    FirstRowAppend(sha, front, e, id);
    OrderAppend(sha, front, e, b);
  }

  /** Two rows belong to the same lists: same role and round, and for judgments the same slot. */
  predicate SameLists(sha: string -> string, d: LogRow, e: LogRow) {
    d.role == e.role && d.round == e.round && (d.role == RoleJudge ==> AttemptKeyOf(sha, d.row) == AttemptKeyOf(sha, e.row))
  }

  /** `e` is the first complete row of an identity that `log` knows only by truncated rows. */
  predicate Supersedes(sha: string -> string, log: seq<LogRow>, e: LogRow) {
    && Ident(sha, e).Some? && IsComplete(e.row)
    && RowsFor(sha, log, Ident(sha, e).value) != []
    && FirstComplete(RowsFor(sha, log, Ident(sha, e).value)).None?
  }

  /** Every superseding row lies in the lists of the identity's first row. */
  ghost predicate SupersedesInPlace(sha: string -> string, log: seq<LogRow>)
    decreases log
  {
    log == [] ||
    (var front, e := log[..|log| - 1], log[|log| - 1];
     SupersedesInPlace(sha, front) &&
     (Supersedes(sha, front, e) ==>
        FirstRow(sha, front, Ident(sha, e).value).Some? && SameLists(sha, FirstRow(sha, front, Ident(sha, e).value).value, e)))
  }

  /** A list holds what the identity map holds for its identities, in the order they first appeared. */
  ghost predicate Agree(sha: string -> string, log: seq<LogRow>, b: Bucket) {
    ListOf(IndexOf(sha, log), b) == Resolve(IndexOf(sha, log).byIdentity, Order(sha, log, b))
  }

  lemma SupersedesIsSuperseded(sha: string -> string, log: seq<LogRow>, e: LogRow)
    requires Ident(sha, e).Some?
    ensures Supersedes(sha, log, e) <==> Superseded(IndexOf(sha, log).byIdentity, Ident(sha, e).value, e.row)
  {
    var id := Ident(sha, e).value;
    ScanIsFirstCompleteElseFirst(sha, log);
    assert Winner(sha, log, id) == if id in IndexOf(sha, log).byIdentity then Some(IndexOf(sha, log).byIdentity[id]) else None;
    FirstCompleteIsComplete(RowsFor(sha, log, id));
    if RowsFor(sha, log, id) != [] { assert RowsFor(sha, log, id)[0] in RowsFor(sha, log, id); }
  }

  lemma SameListsSameBuckets(sha: string -> string, d: LogRow, e: LogRow, b: Bucket)
    requires SameLists(sha, d, e)
    ensures InBucket(sha, d, b) <==> InBucket(sha, e, b)
  {
  }

  /** One more row keeps every listed identity mapped to a row of its bucket. */
  lemma ListableStep(sha: string -> string, ix: Index, ids: seq<string>, more: seq<string>, e: LogRow, b: Bucket, id: string)
    requires Ident(sha, e) == Some(id) && Listable(sha, ix.byIdentity, b, ids) && NoDup(ids + more)
    requires more == if InBucket(sha, e, b) && id !in ix.byIdentity then [id] else []
    requires Superseded(ix.byIdentity, id, e.row) ==> (id in ids <==> InBucket(sha, e, b))
    ensures Listable(sha, Added(sha, ix, e).byIdentity, b, ids + more)
  {
    var m := Added(sha, ix, e).byIdentity;
    forall x | x in ids + more ensures x in m && BucketIdentity(sha, m[x], b) == Some(x) {
      if x == id && InBucket(sha, e, b) { BucketIdentityOf(sha, e, b); }
    }
  }

  /** While superseding rows stay in place, every listed identity is mapped to a row of its bucket, and the list agrees. */
  lemma {:induction false} InPlaceAgrees(sha: string -> string, log: seq<LogRow>, b: Bucket)
    requires SupersedesInPlace(sha, log)
    ensures Listable(sha, IndexOf(sha, log).byIdentity, b, Order(sha, log, b)) && Agree(sha, log, b)
  {
    if log != [] {
      var front, e := log[..|log| - 1], log[|log| - 1];
      assert log == front + [e];
      InPlaceAgrees(sha, front, b);
      IndexAppend(sha, front, e);
      OrderAppend(sha, front, e, b);
      OrderFacts(sha, log, b);
      if Ident(sha, e).None? {
        assert Order(sha, front, b) + [] == Order(sha, front, b);
      } else {
        var id := Ident(sha, e).value;
        MappedIffMentioned(sha, front, id);
        SupersedesIsSuperseded(sha, front, e);
        ListedWithFirstRow(sha, front, b, id);
        if Supersedes(sha, front, e) {
          SameListsSameBuckets(sha, FirstRow(sha, front, id).value, e, b);
        }
        var more := if InBucket(sha, e, b) && id !in IndexOf(sha, front).byIdentity then [id] else [];
        ViewStep(sha, IndexOf(sha, front), Order(sha, front, b), e, b, id);
        ListableStep(sha, IndexOf(sha, front), Order(sha, front, b), more, e, b, id);
      }
    }
  }

  /** Some list holds the first row and not the other. */
  lemma ApartSomewhere(sha: string -> string, d: LogRow, e: LogRow) returns (b: Bucket)
    requires Ident(sha, d).Some? && Ident(sha, e).Some? && !SameLists(sha, d, e)
    ensures InBucket(sha, d, b) && !InBucket(sha, e, b)
  {
    RoleOfKey(sha, d);
    if d.role != e.role || d.round != e.round {
      b := InRound(d.role, d.round);
    } else {
      b := OfSlot(AttemptKeyOf(sha, d.row).value);
    }
  }

  lemma {:induction false} ResolveHolds(m: map<string, Row>, ids: seq<string>, r: Row)
    requires r in Resolve(m, ids)
    ensures exists id :: id in ids && id in m && m[id] == r
  {
    if ids[0] in m && m[ids[0]] == r {
      assert ids[0] in ids;
    } else {
      ResolveHolds(m, ids[1..], r);
      var id :| id in ids[1..] && id in m && m[id] == r;
      assert id in ids;
    }
  }

  lemma {:induction false} ResolveMember(m: map<string, Row>, ids: seq<string>, id: string)
    requires id in ids && id in m
    ensures m[id] in Resolve(m, ids)
  {
    if ids[0] != id {
      assert ids == [ids[0]] + ids[1..];
      ResolveMember(m, ids[1..], id);
    }
  }

  lemma {:induction false} ReplaceFirstKeeps(rows: seq<Row>, existing: Row, row: Row, r: Row)
    requires r in rows && r != existing
    ensures r in ReplaceFirst(rows, existing, row)
  {
    assert rows == [rows[0]] + rows[1..];
    if rows[0] != existing && r != rows[0] {
      ReplaceFirstKeeps(rows[1..], existing, row, r);
    }
  }

  /**
   * Rows read from disk are separate objects, which `_replace` tells apart by identity; here they are told apart by
   * what they hold.
   */
  ghost predicate DistinctRows(log: seq<LogRow>) {
    forall i, j :: 0 <= i < j < |log| ==> log[i].row != log[j].row
  }

  lemma RowTells(sha: string -> string, log: seq<LogRow>, d: LogRow, e: LogRow)
    requires DistinctRows(log) && d in log && e in log && d.row == e.row
    ensures d == e
  {
  }

  /** The list keeps a truncated row that the identity map has given up. */
  ghost predicate Stranded(sha: string -> string, log: seq<LogRow>, b: Bucket, d: LogRow) {
    && d in log && Ident(sha, d).Some? && d.row in ListOf(IndexOf(sha, log), b) && !IsComplete(d.row)
    && FirstComplete(RowsFor(sha, log, Ident(sha, d).value)).Some?
  }

  lemma StrandedDisagrees(sha: string -> string, log: seq<LogRow>, b: Bucket, d: LogRow)
    requires DistinctRows(log) && Stranded(sha, log, b, d)
    ensures !Agree(sha, log, b)
  {
    if Agree(sha, log, b) {
      var m := IndexOf(sha, log).byIdentity;
      ResolveHolds(m, Order(sha, log, b), d.row);
      var x :| x in Order(sha, log, b) && x in m && m[x] == d.row;
      var e := MappedRow(sha, log, x);
      RowTells(sha, log, d, e);
      ScanIsFirstCompleteElseFirst(sha, log);
      assert Winner(sha, log, x) == Some(m[x]);
      FirstCompleteIsComplete(RowsFor(sha, log, x));
      assert false;
    }
  }

  lemma StrandedStays(sha: string -> string, log: seq<LogRow>, e: LogRow, b: Bucket, d: LogRow)
    requires DistinctRows(log + [e]) && Stranded(sha, log, b, d)
    ensures Stranded(sha, log + [e], b, d)
  {
    var ix := IndexOf(sha, log);
    assert forall i :: 0 <= i < |log| ==> (log + [e])[i] == log[i];
    assert DistinctRows(log);
    IndexAppend(sha, log, e);
    assert (log + [e])[..|log|] == log;
    FirstCompleteAppend(RowsFor(sha, log, Ident(sha, d).value), e.row);
    assert RowsFor(sha, log, Ident(sha, d).value) + [] == RowsFor(sha, log, Ident(sha, d).value);
    if Ident(sha, e).Some? {
      var id := Ident(sha, e).value;
      AddedList(sha, ix, e, b, id);
      if Superseded(ix.byIdentity, id, e.row) {
        NotItsOwnRow(sha, log, b, d, id);
        ReplaceFirstKeeps(ListOf(ix, b), ix.byIdentity[id], e.row, d.row);
      }
    }
  }

  /** What the map still holds truncated is not the stranded row. */
  lemma NotItsOwnRow(sha: string -> string, log: seq<LogRow>, b: Bucket, d: LogRow, id: string)
    requires DistinctRows(log) && Stranded(sha, log, b, d)
    requires id in IndexOf(sha, log).byIdentity && !IsComplete(IndexOf(sha, log).byIdentity[id])
    ensures IndexOf(sha, log).byIdentity[id] != d.row
  {
    var held := MappedRow(sha, log, id);
    if held.row == d.row {
      RowTells(sha, log, d, held);
      ScanIsFirstCompleteElseFirst(sha, log);
      assert Winner(sha, log, id) == Some(IndexOf(sha, log).byIdentity[id]);
      FirstCompleteIsComplete(RowsFor(sha, log, id));
      assert false;
    }
  }

  /** A superseding row out of place strands the first row in some list. */
  lemma OutOfPlaceStrands(sha: string -> string, log: seq<LogRow>, e: LogRow) returns (b: Bucket, d: LogRow)
    requires SupersedesInPlace(sha, log) && Supersedes(sha, log, e)
    requires FirstRow(sha, log, Ident(sha, e).value).Some? ==> !SameLists(sha, FirstRow(sha, log, Ident(sha, e).value).value, e)
    ensures Stranded(sha, log + [e], b, d) && ListOf(IndexOf(sha, log + [e]), b) == ListOf(IndexOf(sha, log), b)
  {
    var id, m := Ident(sha, e).value, IndexOf(sha, log).byIdentity;
    FirstRowFacts(sha, log, id);
    d := FirstRow(sha, log, id).value;
    b := ApartSomewhere(sha, d, e);
    InPlaceAgrees(sha, log, b);
    ListedWithFirstRow(sha, log, b, id);
    SupersedesIsSuperseded(sha, log, e);
    ScanIsFirstCompleteElseFirst(sha, log);
    assert Winner(sha, log, id) == Some(m[id]);
    FirstCompleteIsComplete(RowsFor(sha, log, id));
    assert m[id] == d.row;
    ResolveMember(m, Order(sha, log, b), id);
    IndexAppend(sha, log, e);
    AddedList(sha, IndexOf(sha, log), e, b, id);
    assert (log + [e])[..|log|] == log;
    FirstCompleteAppend(RowsFor(sha, log, id), e.row);
  }

  lemma {:induction false} SomeStranded(sha: string -> string, log: seq<LogRow>) returns (b: Bucket, d: LogRow)
    requires DistinctRows(log) && !SupersedesInPlace(sha, log)
    ensures Stranded(sha, log, b, d)
    decreases log
  {
    var front, e := log[..|log| - 1], log[|log| - 1];
    assert log == front + [e];
    if SupersedesInPlace(sha, front) {
      b, d := OutOfPlaceStrands(sha, front, e);
    } else {
      assert forall i :: 0 <= i < |front| ==> front[i] == log[i];
      b, d := SomeStranded(sha, front);
      StrandedStays(sha, front, e, b, d);
    }
  }

  /**
   * The identity map and every list hold the same rows, in-place replacement included, exactly when each complete row
   * that supersedes a truncated one lies in the role-and-round list, and the attempt list, of the identity's first row.
   */
  lemma {:induction false} ViewsAgreeIffSupersedesInPlace(sha: string -> string, log: seq<LogRow>)
    requires DistinctRows(log)
    ensures (forall b :: Agree(sha, log, b)) <==> SupersedesInPlace(sha, log)
  {
    if SupersedesInPlace(sha, log) {
      forall b ensures Agree(sha, log, b) {
        InPlaceAgrees(sha, log, b);
      }
    } else {
      var b, d := SomeStranded(sha, log);
      StrandedDisagrees(sha, log, b, d);
    }
  }

  /** A superseding row out of place parts the views. */
  lemma OutOfPlaceParts(sha: string -> string, log: seq<LogRow>, e: LogRow) returns (b: Bucket)
    requires SupersedesInPlace(sha, log) && !SupersedesInPlace(sha, log + [e])
    ensures !Agree(sha, log + [e], b)
  {
    assert (log + [e])[..|log|] == log;
    var id, m := Ident(sha, e).value, IndexOf(sha, log).byIdentity;
    FirstRowFacts(sha, log, id);
    b := ApartSomewhere(sha, FirstRow(sha, log, id).value, e);
    InPlaceAgrees(sha, log, b);
    ListedWithFirstRow(sha, log, b, id);
    SupersedesIsSuperseded(sha, log, e);
    IndexAppend(sha, log, e);
    AddedList(sha, IndexOf(sha, log), e, b, id);
    OrderAppend(sha, log, e, b);
    assert Order(sha, log, b) + [] == Order(sha, log, b);
    ResolveDiffers(m, m[id := e.row], Order(sha, log, b), id);
  }

  lemma {:induction false} ResolveDiffers(m: map<string, Row>, m': map<string, Row>, ids: seq<string>, id: string)
    requires id in ids && (forall x :: x in ids ==> x in m && x in m') && m[id] != m'[id]
    ensures Resolve(m, ids) != Resolve(m', ids)
  {
    assert ids[0] in ids;
    if m[ids[0]] == m'[ids[0]] {
      assert ids == [ids[0]] + ids[1..];
      ResolveDiffers(m, m', ids[1..], id);
      assert Resolve(m, ids)[1..] == Resolve(m, ids[1..]) && Resolve(m', ids)[1..] == Resolve(m', ids[1..]);
    } else {
      assert Resolve(m, ids)[0] == m[ids[0]] && Resolve(m', ids)[0] == m'[ids[0]];
    }
  }

  lemma {:induction false} InPlaceSoFar(sha: string -> string, log: seq<LogRow>, n: nat)
    requires SupersedesInPlace(sha, log) && n <= |log|
    ensures SupersedesInPlace(sha, log[..n])
    decreases log
  {
    if n == |log| {
      assert log[..n] == log;
    } else {
      InPlaceSoFar(sha, log[..|log| - 1], n);
      assert log[..|log| - 1][..n] == log[..n];
    }
  }

  /** Somewhere along a log that is not in place the views part. */
  lemma {:induction false} PartsSomewhere(sha: string -> string, log: seq<LogRow>) returns (n: nat, b: Bucket)
    requires !SupersedesInPlace(sha, log)
    ensures n <= |log| && !Agree(sha, log[..n], b)
    decreases log
  {
    var front, e := log[..|log| - 1], log[|log| - 1];
    assert log == front + [e];
    if SupersedesInPlace(sha, front) {
      b := OutOfPlaceParts(sha, front, e);
      n := |log|;
      assert log[..n] == log;
    } else {
      n, b := PartsSomewhere(sha, front);
      assert front[..n] == log[..n];
    }
  }

  /**
   * Whatever the log, duplicates included: after every row of the scan the identity map and every list hold the same rows,
   * in-place replacement included, exactly when each complete row that supersedes a truncated one lies in the
   * role-and-round list, and the attempt list, of the identity's first row.
   */
  lemma {:induction false} ViewsAgreeThroughoutIffSupersedesInPlace(sha: string -> string, log: seq<LogRow>)
    ensures SupersedesInPlace(sha, log) <==> forall n: nat, b :: n <= |log| ==> Agree(sha, log[..n], b)
  {
    if SupersedesInPlace(sha, log) {
      forall n: nat, b | n <= |log| ensures Agree(sha, log[..n], b) {
        InPlaceSoFar(sha, log, n);
        InPlaceAgrees(sha, log[..n], b);
      }
    } else {
      var n, b := PartsSomewhere(sha, log);
    }
  }

  /** The layout the sink writes keeps superseding rows in place. */
  lemma {:induction false} TidySupersedesInPlace(sha: string -> string, problem: string, log: seq<LogRow>)
    requires TidyLog(sha, problem, log)
    ensures SupersedesInPlace(sha, log)
    decreases log
  {
    if log != [] {
      var front, e := log[..|log| - 1], log[|log| - 1];
      assert log == front + [e] && e in log && forall d :: d in front ==> d in log;
      TidySupersedesInPlace(sha, problem, front);
      if Supersedes(sha, front, e) {
        var id := Ident(sha, e).value;
        FirstRowFacts(sha, front, id);
        TidySameLists(sha, problem, FirstRow(sha, front, id).value, e);
      }
    }
  }

  lemma TidySameLists(sha: string -> string, problem: string, d: LogRow, e: LogRow)
    requires Tidy(sha, problem, d) && Tidy(sha, problem, e)
    requires Ident(sha, d).Some? && Ident(sha, d) == Ident(sha, e)
    ensures SameLists(sha, d, e)
  {
    SameIdentitySameBucket(sha, problem, d, e, InRound(d.role, d.round));
    RoleOfKey(sha, d);
    if d.role == RoleJudge {
      SameIdentitySameBucket(sha, problem, d, e, OfSlot(AttemptKeyOf(sha, d.row).value));
    }
  }

  /** In a tidy log an identity is listed in exactly the buckets of its rows. */
  lemma ListedInItsBucket(sha: string -> string, problem: string, log: seq<LogRow>, b: Bucket, e: LogRow)
    requires TidyLog(sha, problem, log) && e in log && Ident(sha, e).Some?
    ensures Ident(sha, e).value in Order(sha, log, b) <==> InBucket(sha, e, b)
  {
    var id := Ident(sha, e).value;
    RowsForMentioned(sha, log, e);
    FirstRowFacts(sha, log, id);
    ListedWithFirstRow(sha, log, b, id);
    SameIdentitySameBucket(sha, problem, FirstRow(sha, log, id).value, e, b);
  }

  /** In the layout the sink writes, all views agree. */
  lemma ViewsAgree(sha: string -> string, problem: string, log: seq<LogRow>, b: Bucket)
    requires TidyLog(sha, problem, log)
    ensures ListOf(IndexOf(sha, log), b) == Resolve(IndexOf(sha, log).byIdentity, Order(sha, log, b))
  {
    TidySupersedesInPlace(sha, problem, log);
    InPlaceAgrees(sha, log, b);
  }

  lemma IndexAppend(sha: string -> string, log: seq<LogRow>, e: LogRow)
    ensures IndexOf(sha, log + [e]) == Added(sha, IndexOf(sha, log), e)
  {
    assert (log + [e])[..|log|] == log;
  }

  /** A generation row answering prompt "p" with model "m", slot 0. */
  function SampleRow(finish: string): Row {
    Row(Some("x"), Some("text"), Some(finish), Some("p"), Some("m"), Some(0), None, None, None, None, None, None, None, None)
  }

  /**
   * Without the tidy layout the views can part: a complete generation row under round 2 supersedes a
   * truncated one under round 1 in the identity map, but not in the round-1 list.
   */
  lemma UntidyViewsDisagree(sha: string -> string)
    ensures var log := [LogRow(SampleRow("length"), RoleGen, 1), LogRow(SampleRow("stop"), RoleGen, 2)];
      var ix := IndexOf(sha, log);
      && ListOf(ix, InRound(RoleGen, 1)) == [SampleRow("length")]
      && ListOf(ix, InRound(RoleGen, 2)) == []
      && ix.byIdentity == map[GenIdentity("x", "p", "m", 0) := SampleRow("stop")]
  {
    var a, b := LogRow(SampleRow("length"), RoleGen, 1), LogRow(SampleRow("stop"), RoleGen, 2);
    var log := [a, b];
    assert log[..1] == [a] && [a][..0] == [];
    assert Lower("stop") == "stop" && Lower("length")[0] == 'l';
    assert IndexOf(sha, [a]) == Added(sha, EMPTY, a);
    assert Ident(sha, a) == Some(GenIdentity("x", "p", "m", 0)) == Ident(sha, b);
    assert !IsComplete(a.row) && IsComplete(b.row);
  }

  // ---- the object ----------------------------------------------------------------

  /** `Ledger`: three dictionaries updated in place. */
  class Ledger {
    const sha: string -> string
    var rowByIdentity: map<string, Row>
    var rowsByRoleRound: map<(Role, int), seq<Row>>
    var judgeAttempts: map<AttemptKey, seq<Row>>

    function View(): Index
      reads this
    {
      Index(rowByIdentity, rowsByRoleRound, judgeAttempts)
    }

    constructor (sha: string -> string)
      ensures this.sha == sha && View() == EMPTY
    {
      this.sha := sha;
      rowByIdentity, rowsByRoleRound, judgeAttempts := map[], map[], map[];
    }

    method Add(row: Row, role: Role, round: int)
      modifies this
      ensures View() == Added(sha, old(View()), LogRow(row, role, round))
    {
      var identity := RowIdentity(sha, row, role, round);
      if identity.None? {
        return;
      }
      if identity.value in rowByIdentity {
        var existing := rowByIdentity[identity.value];
        if IsCompleteFinishReason(existing.finish) || !IsCompleteFinishReason(row.finish) {
          return;
        }
        Replace(existing, row, role, round);
        return;
      }
      rowByIdentity := rowByIdentity[identity.value := row];
      rowsByRoleRound := rowsByRoleRound[(role, round) := Listed(rowsByRoleRound, (role, round)) + [row]];
      if role == RoleJudge {
        var key := AttemptKeyOf(sha, row);
        if key.Some? {
          judgeAttempts := judgeAttempts[key.value := Listed(judgeAttempts, key.value) + [row]];
        }
      }
    }

    method Replace(existing: Row, row: Row, role: Role, round: int)
      requires RowIdentity(sha, row, role, round).Some?
      modifies this
      ensures rowByIdentity == old(rowByIdentity)[RowIdentity(sha, row, role, round).value := row]
      ensures rowsByRoleRound == Replaced(old(rowsByRoleRound), (role, round), existing, row)
      ensures judgeAttempts == (
        if role == RoleJudge && AttemptKeyOf(sha, row).Some? then Replaced(old(judgeAttempts), AttemptKeyOf(sha, row).value, existing, row)
        else old(judgeAttempts))
    {
      rowByIdentity := rowByIdentity[RowIdentity(sha, row, role, round).value := row];
      if (role, round) in rowsByRoleRound {
        var rows := ReplaceInList(rowsByRoleRound[(role, round)], existing, row);
        rowsByRoleRound := rowsByRoleRound[(role, round) := rows];
      }
      if role == RoleJudge {
        var key := AttemptKeyOf(sha, row);
        if key.Some? && key.value in judgeAttempts {
          var attempts := ReplaceInList(judgeAttempts[key.value], existing, row);
          judgeAttempts := judgeAttempts[key.value := attempts];
        }
      }
    }

    /** Overwrites the first place that holds `existing`. */
    static method ReplaceInList(rows: seq<Row>, existing: Row, row: Row) returns (out: seq<Row>)
      ensures out == ReplaceFirst(rows, existing, row)
    {
      out := rows;
      var i := 0;
      while i < |rows|
        invariant 0 <= i <= |rows| && out == rows
        invariant ReplaceFirst(rows, existing, row) == rows[..i] + ReplaceFirst(rows[i..], existing, row)
      {
        assert rows[i..][1..] == rows[i + 1..] && rows[..i] + [rows[i]] == rows[..i + 1];
        if rows[i] == existing {
          out := rows[i := row];
          assert out == rows[..i] + ([row] + rows[i + 1..]);
          return;
        }
        i := i + 1;
      }
      assert rows[|rows|..] == [];
      assert rows[..|rows|] + [] == rows;
    }

    /** `scan` over the rows of a directory, in the order the files are read. */
    static method Scan(sha: string -> string, log: seq<LogRow>) returns (ledger: Ledger)
      ensures fresh(ledger) && ledger.sha == sha && ledger.View() == IndexOf(sha, log)
      ensures forall id :: Winner(sha, log, id) == if id in ledger.rowByIdentity then Some(ledger.rowByIdentity[id]) else None
    {
      ledger := new Ledger(sha);
      for i := 0 to |log|
        invariant fresh(ledger) && ledger.sha == sha && ledger.View() == IndexOf(sha, log[..i])
      {
        assert log[..i + 1][..i] == log[..i];
        ledger.Add(log[i].row, log[i].role, log[i].round);
      }
      assert log[..|log|] == log;
      ScanIsFirstCompleteElseFirst(sha, log);
    }

    method JudgeAttempts(proofSha: string, judge: string, slot: int) returns (rows: seq<Row>)
      ensures rows == AttemptsOf(View(), (proofSha, judge, slot))
    {
      rows := Sorting.Sort(EarlierAttempt, Listed(judgeAttempts, (proofSha, judge, slot)));
    }

    method Lookup(identity: string) returns (row: Option<Row>)
      ensures row == if identity in rowByIdentity then Some(rowByIdentity[identity]) else None
    {
      row := if identity in rowByIdentity then Some(rowByIdentity[identity]) else None;
    }
  }
}
