/**
 * From requests to rows and back: each row written for a request maps back to the identity the request was made
 * under, and the ledger scanned from a directory answers exactly as `Search.Scan` says.
 */
module Persistence {
  import opened Options
  import opened Search
  import opened Identity
  import opened ResumeLedger
  import D = Durability

  /** `sha256_text`: taken as injective; its values are hexadecimal, so never empty and without a colon. */
  ghost predicate GoodHash(sha: string -> string) {
    (forall x, y :: sha(x) == sha(y) ==> x == y) && forall x :: sha(x) != "" && ':' !in sha(x)
  }

  // ---- what the identity functions print, and what the sink writes ----------------------

  function KeyOf(sha: string -> string, id: WorkId): Key {
    match id
    case Generate(prompt, model, slot) => GenKey(prompt, model, slot)
    case Refine(round, trial, model, slot) => RefineKey(round, trial, model, slot)
    case Vote(round, proof, verifier, slot) => VerifyKey(round, sha(proof), verifier, slot)
  }

  /** The identity string a request is made under, for problem `problem`. */
  function RequestIdentity(sha: string -> string, problem: string, id: WorkId): string {
    Print(problem, KeyOf(sha, id))
  }

  /** What a row says of its sample or of the proof it votes on, beyond the fields its identity needs. */
  datatype Extra = Extra(proof: string, model: string, promptId: Option<string>)

  /** `_record_gen` and `_record_vote`: the fields of a row that identity and replay read. */
  function RowOf(sha: string -> string, problem: string, e: Entry, x: Extra): Row {
    match e.id
    case Generate(prompt, model, slot) =>
      Row(Some(problem), Some(e.resp.text), e.resp.finish, Some(prompt), Some(model), Some(slot), None,
          Some(sha(x.proof)), Some(x.proof), None, None, None, None, None)
    case Refine(_, trial, model, slot) =>
      Row(Some(problem), Some(e.resp.text), e.resp.finish, None, Some(model), Some(slot), Some(trial),
          Some(sha(x.proof)), Some(x.proof), None, None, None, None, None)
    case Vote(_, proof, verifier, slot) =>
      Row(Some(problem), Some(e.resp.text), e.resp.finish, x.promptId, Some(x.model), None, None,
          Some(sha(proof)), None, Some(verifier), Some(slot), None, None, None)
  }

  /** The directory and file the sink appends to. */
  function LogOf(sha: string -> string, problem: string, e: Entry, x: Extra): LogRow {
    match e.id
    case Generate(_, _, _) => LogRow(RowOf(sha, problem, e, x), RoleGen, 1)
    case Refine(round, _, _, _) => LogRow(RowOf(sha, problem, e, x), RoleRefine, round)
    case Vote(round, _, _, _) => LogRow(RowOf(sha, problem, e, x), RoleVerify, round)
  }

  /** What `_do` replays from a row. */
  function ResponseOf(row: Row): Response {
    Response(if row.generation.Some? then row.generation.value else "", row.finish)
  }

  /** The row of every request maps back to the identity of the request, and replays its response. */
  lemma RowMapsBack(sha: string -> string, problem: string, e: Entry, x: Extra)
    requires GoodHash(sha)
    ensures Ident(sha, LogOf(sha, problem, e, x)) == Some(RequestIdentity(sha, problem, e.id))
    ensures ResponseOf(LogOf(sha, problem, e, x).row) == e.resp
  {
  }

  // ---- identities are names --------------------------------------------------------------

  /** Prompt ids hold no colon; models and verifiers may. */
  predicate Printable(id: WorkId) {
    id.Generate? ==> ':' !in id.prompt
  }

  lemma KeysPlain(sha: string -> string, id: WorkId)
    requires GoodHash(sha) && Printable(id)
    ensures Plain(KeyOf(sha, id))
  {
  }

  lemma KeyInjective(sha: string -> string, id: WorkId, id': WorkId)
    requires GoodHash(sha) && KeyOf(sha, id) == KeyOf(sha, id')
    ensures id == id'
  {
  }

  // ---- the scanned ledger -------------------------------------------------------------------

  /** What a directory knows of one request. */
  datatype Answer = Answer(key: Key, resp: Response)

  function Keys(known: seq<Answer>): (r: seq<Key>)
    ensures |r| == |known| && forall k :: 0 <= k < |r| ==> r[k] == known[k].key
  {
    seq(|known|, k requires 0 <= k < |known| => known[k].key)
  }

  /** Row `k` answers request `k`, under the name the request is made under. */
  ghost predicate Carries(sha: string -> string, names: Key -> string, rows: seq<LogRow>, known: seq<Answer>) {
    |rows| == |known| &&
    forall k :: 0 <= k < |rows| ==> Ident(sha, rows[k]) == Some(names(known[k].key)) && ResponseOf(rows[k].row) == known[k].resp
  }

  /** Different requests, among those known and `key`, have different names. */
  ghost predicate Distinguishes(names: Key -> string, known: seq<Answer>, key: Key) {
    && (forall i, j :: 0 <= i < j < |known| ==> names(known[i].key) != names(known[j].key))
    && (forall i :: 0 <= i < |known| && names(known[i].key) == names(key) ==> known[i].key == key)
  }

  lemma RowsAgree(sha: string -> string, log: seq<LogRow>, name: string, resp: Response)
    requires forall r :: r in log && Ident(sha, r) == Some(name) ==> ResponseOf(r.row) == resp
    ensures forall row :: row in RowsFor(sha, log, name) ==> ResponseOf(row) == resp
  {
    forall row | row in RowsFor(sha, log, name) ensures ResponseOf(row) == resp {
      RowsForMember(sha, log, name, row);
    }
  }

  /** A named row whose rows all carry the same response is answered with it. */
  lemma FoundAnswer(sha: string -> string, log: seq<LogRow>, r: LogRow, name: string, resp: Response)
    requires r in log && Ident(sha, r) == Some(name)
    requires forall r :: r in log && Ident(sha, r) == Some(name) ==> ResponseOf(r.row) == resp
    ensures name in IndexOf(sha, log).byIdentity && ResponseOf(IndexOf(sha, log).byIdentity[name]) == resp
  {
    ScanIsFirstCompleteElseFirst(sha, log);
    var found := IndexOf(sha, log).byIdentity;
    assert Winner(sha, log, name) == if name in found then Some(found[name]) else None;
    RowsForMentioned(sha, log, r);
    RowsAgree(sha, log, name, resp);
    FirstCompleteMember(RowsFor(sha, log, name));
  }

  /** A name without a row in the log is not found. */
  lemma NotFound(sha: string -> string, log: seq<LogRow>, name: string)
    requires forall r :: r in log ==> Ident(sha, r) != Some(name)
    ensures name !in IndexOf(sha, log).byIdentity
  {
    ScanIsFirstCompleteElseFirst(sha, log);
    var found := IndexOf(sha, log).byIdentity;
    assert Winner(sha, log, name) == if name in found then Some(found[name]) else None;
    if name in found { WinnerMember(sha, log, name); }
  }

  /** The rows of the log with a name are those of the entries with that name. */
  lemma RowAt(sha: string -> string, rows: seq<LogRow>, log: seq<LogRow>, q: LogRow) returns (k: nat)
    requires multiset(log) == multiset(rows) && q in log
    ensures k < |rows| && rows[k] == q
  {
    assert q in multiset(log) && q in multiset(rows);
    k :| k < |rows| && rows[k] == q;
  }

  lemma AnsweredFromRow(sha: string -> string, names: Key -> string, log: seq<LogRow>, rows: seq<LogRow>, known: seq<Answer>, k: nat)
    requires Carries(sha, names, rows, known) && multiset(log) == multiset(rows)
    requires k < |known| && Distinguishes(names, known, known[k].key)
    ensures var found := IndexOf(sha, log).byIdentity;
      names(known[k].key) in found && ResponseOf(found[names(known[k].key)]) == known[k].resp
  {
    assert rows[k] in multiset(log);
    forall q | q in log && Ident(sha, q) == Some(names(known[k].key)) ensures ResponseOf(q.row) == known[k].resp {
      var j := RowAt(sha, rows, log, q);
      assert j == k;
    }
    FoundAnswer(sha, log, rows[k], names(known[k].key), known[k].resp);
  }

  lemma NoRowNoAnswer(sha: string -> string, names: Key -> string, log: seq<LogRow>, rows: seq<LogRow>, known: seq<Answer>, key: Key)
    requires Carries(sha, names, rows, known) && multiset(log) == multiset(rows)
    requires key !in Keys(known) && Distinguishes(names, known, key)
    ensures names(key) !in IndexOf(sha, log).byIdentity
  {
    forall r | r in log ensures Ident(sha, r) != Some(names(key)) {
      var k := RowAt(sha, rows, log, r);
      assert Keys(known)[k] != key;
    }
    NotFound(sha, log, names(key));
  }

  /**
   * A directory with one row per identity, read back in whatever order its files come, gives a ledger that answers
   * exactly the requests with a row, each with its row's response.
   */
  lemma LedgerAnswers(sha: string -> string, names: Key -> string, log: seq<LogRow>, rows: seq<LogRow>, known: seq<Answer>, key: Key)
    requires Carries(sha, names, rows, known) && multiset(log) == multiset(rows) && Distinguishes(names, known, key)
    ensures var found := IndexOf(sha, log).byIdentity;
      && (names(key) in found <==> key in Keys(known))
      && forall k :: 0 <= k < |known| && known[k].key == key ==> names(key) in found && ResponseOf(found[names(key)]) == known[k].resp
  {
    if key in Keys(known) {
      forall k | 0 <= k < |known| && known[k].key == key
        ensures names(key) in IndexOf(sha, log).byIdentity && ResponseOf(IndexOf(sha, log).byIdentity[names(key)]) == known[k].resp
      {
        AnsweredFromRow(sha, names, log, rows, known, k);
      }
      var k :| 0 <= k < |known| && Keys(known)[k] == key;
      assert known[k].key == key;
    } else {
      NoRowNoAnswer(sha, names, log, rows, known, key);
    }
  }

  /** Printing distinguishes distinct plain keys. */
  lemma PrintDistinguishes(problem: string, names: Key -> string, known: seq<Answer>, key: Key)
    requires (forall k :: names(k) == Print(problem, k)) && NoDup(Keys(known)) && Plain(key)
    requires forall k :: 0 <= k < |known| ==> Plain(known[k].key)
    ensures Distinguishes(names, known, key)
  {
    forall i, j | 0 <= i < j < |known| ensures names(known[i].key) != names(known[j].key) {
      assert Keys(known)[i] != Keys(known)[j];
      if names(known[i].key) == names(known[j].key) { PrintInjective(problem, known[i].key, known[j].key); }
    }
    forall i | 0 <= i < |known| && names(known[i].key) == names(key) ensures known[i].key == key {
      PrintInjective(problem, known[i].key, key);
    }
  }

  // ---- search rows -------------------------------------------------------------------------------

  /** What the sink appends for search rows; `xs` holds the further fields of each row. */
  function RowsWritten(sha: string -> string, problem: string, disk: seq<Entry>, xs: seq<Extra>): (r: seq<LogRow>)
    requires |xs| == |disk|
    ensures |r| == |disk| && forall k :: 0 <= k < |r| ==> r[k] == LogOf(sha, problem, disk[k], xs[k])
  {
    seq(|disk|, k requires 0 <= k < |disk| => LogOf(sha, problem, disk[k], xs[k]))
  }

  lemma {:induction false} HistoryPrintable(cfg: Config, disk: seq<Entry>, run: seq<Event>)
    requires ValidConfig(cfg) && Legal(cfg, Init(cfg, disk), run)
    requires forall p :: p in cfg.prompts ==> ':' !in p
    ensures forall e :: e in Exec(cfg, Init(cfg, disk), run).rows ==> Printable(e.id)
    ensures forall id :: id in Exec(cfg, Init(cfg, disk), run).issued ==> Printable(id)
  {
    var s := Exec(cfg, Init(cfg, disk), run);
    D.InitDurable(cfg, disk);
    D.RunDurable(cfg, disk, Init(cfg, disk), run);
    forall e | e in s.rows ensures Printable(e.id) {
      var k :| 0 <= k < |s.rows| && s.rows[k] == e;
      assert Ids(s.rows)[k] == e.id;
    }
  }
}
