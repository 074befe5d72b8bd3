/**
 * Work identities (resume.py): the printed name of every request, and a decoder that shows which
 * printed names are unambiguous.
 */
module Identity {
  import opened Options

  // ---- decimal numbers ---------------------------------------------------

  function Digit(d: nat): char
    requires d < 10
  {
    ('0' as int + d) as char
  }

  function Dec(n: nat): (s: string)
    ensures |s| > 0 && forall c :: c in s ==> '0' <= c <= '9'
  {
    if n < 10 then [Digit(n)] else Dec(n / 10) + [Digit(n % 10)]
  }

  /** `f"{n}"` for any integer, as an f-string prints it. */
  function DecInt(n: int): (s: string)
    ensures |s| > 0 && ':' !in s
  {
    if n < 0 then "-" + Dec(-n) else Dec(n)
  }

  function DigitValue(c: char): nat {
    if '0' <= c <= '9' then c as int - '0' as int else 0
  }

  function UnDec(s: string): nat {
    if s == "" then 0 else UnDec(s[..|s| - 1]) * 10 + DigitValue(s[|s| - 1])
  }

  function UnDecInt(s: string): int {
    if s != "" && s[0] == '-' then 0 - UnDec(s[1..]) else UnDec(s)
  }

  lemma {:induction false} UnDecDec(n: nat)
    ensures UnDec(Dec(n)) == n
  {
    if n < 10 {
      assert UnDec("") == 0;
      assert [Digit(n)][..0] == "";
    } else {
      UnDecDec(n / 10);
      assert Dec(n)[..|Dec(n)| - 1] == Dec(n / 10);
    }
  }

  lemma UnDecIntDecInt(n: int)
    ensures UnDecInt(DecInt(n)) == n
  {
    if n < 0 {
      UnDecDec(-n);
      assert DecInt(n)[1..] == Dec(-n);
    } else {
      UnDecDec(n);
      assert Dec(n)[0] in Dec(n);
    }
  }

  lemma DecIntInjective(m: int, n: int)
    requires DecInt(m) == DecInt(n)
    ensures m == n
  {
    UnDecIntDecInt(m);
    UnDecIntDecInt(n);
  }

  // ---- cutting at a colon ------------------------------------------------

  function CutFirst(s: string): Option<(string, string)> {
    if s == "" then None
    else if s[0] == ':' then Some(("", s[1..]))
    else match CutFirst(s[1..])
      case None => None
      case Some(p) => Some(([s[0]] + p.0, p.1))
  }

  function CutLast(s: string): Option<(string, string)> {
    if s == "" then None
    else if s[|s| - 1] == ':' then Some((s[..|s| - 1], ""))
    else match CutLast(s[..|s| - 1])
      case None => None
      case Some(p) => Some((p.0, p.1 + [s[|s| - 1]]))
  }

  lemma {:induction false} CutFirstAt(a: string, b: string)
    requires ':' !in a
    ensures CutFirst(a + ":" + b) == Some((a, b))
  {
    var s := a + ":" + b;
    if a == "" {
      assert s[1..] == b;
    } else {
      CutFirstAt(a[1..], b);
      assert s[1..] == a[1..] + ":" + b;
      assert [a[0]] + a[1..] == a;
    }
  }

  lemma {:induction false} CutLastAt(a: string, b: string)
    requires ':' !in b
    ensures CutLast(a + ":" + b) == Some((a, b))
  {
    var s := a + ":" + b;
    if b == "" {
      assert s[..|s| - 1] == a;
    } else {
      var b' := b[..|b| - 1];
      CutLastAt(a, b');
      assert s[..|s| - 1] == a + ":" + b';
      assert b' + [b[|b| - 1]] == b;
    }
  }

  // ---- the four identities -----------------------------------------------

  function GenIdentity(problem: string, prompt: string, model: string, slot: int): string {
    "gen:" + problem + ":R1:" + (prompt + ":" + model + ":" + DecInt(slot))
  }

  function RefineIdentity(problem: string, round: int, trial: int, model: string, slot: int): string {
    "refine:" + problem + ":R" + (DecInt(round) + ":" + (DecInt(trial) + ":" + (model + ":" + DecInt(slot))))
  }

  function VerifyIdentity(problem: string, round: int, sha: string, verifier: string, slot: int): string {
    "verify:" + problem + ":R" + (DecInt(round) + ":" + (sha + ":" + (verifier + ":" + DecInt(slot))))
  }

  function JudgeIdentity(problem: string, sha: string, judge: string, slot: int, attempt: int): string {
    "judge:" + problem + ":" + (sha + ":" + (judge + ":" + DecInt(slot) + ":" + ("a" + DecInt(attempt))))
  }

  /** What an identity names; `Print` is its string form. */
  datatype Key =
    | GenKey(prompt: string, model: string, slot: int)
    | RefineKey(round: int, trial: int, model: string, slot: int)
    | VerifyKey(round: int, sha: string, verifier: string, slot: int)
    | JudgeKey(sha: string, judge: string, slot: int, attempt: int)

  function Print(problem: string, k: Key): string {
    match k
    case GenKey(prompt, model, slot) => GenIdentity(problem, prompt, model, slot)
    case RefineKey(round, trial, model, slot) => RefineIdentity(problem, round, trial, model, slot)
    case VerifyKey(round, sha, verifier, slot) => VerifyIdentity(problem, round, sha, verifier, slot)
    case JudgeKey(sha, judge, slot, attempt) => JudgeIdentity(problem, sha, judge, slot, attempt)
  }

  lemma Digits()
    ensures Dec(0) == "0" && Dec(1) == "1" && Dec(2) == "2" && Dec(3) == "3" && Dec(4) == "4" && Dec(5) == "5" && Dec(12) == "12"
  {
    assert Dec(12) == Dec(1) + [Digit(2)];
  }

  /** One printed identity of each role. */
  lemma PrintedGen()
    ensures GenIdentity("p7", "direct", "m", 12) == "gen:p7:R1:direct:m:12"
  {
    Digits();
  }

  lemma PrintedRefine()
    ensures RefineIdentity("p7", 3, 0, "m", 1) == "refine:p7:R3:0:m:1"
  {
    Digits();
  }

  lemma PrintedVerify()
    ensures VerifyIdentity("p7", 2, "ab", "v", 5) == "verify:p7:R2:ab:v:5"
  {
    Digits();
  }

  lemma PrintedJudge()
    ensures JudgeIdentity("p7", "ab", "j", 4, 1) == "judge:p7:ab:j:4:a1"
  {
    Digits();
  }

  /** The fields that must not hold a colon: prompt ids, and proof hashes (hexadecimal in the source). */
  predicate Plain(k: Key) {
    match k
    case GenKey(prompt, _, _) => ':' !in prompt
    case RefineKey(_, _, _, _) => true
    case VerifyKey(_, sha, _, _) => ':' !in sha
    case JudgeKey(sha, _, _, _) => ':' !in sha
  }

  function DecodeGen(body: string): Option<Key> {
    match CutLast(body)
    case None => None
    case Some(p) => match CutFirst(p.0)
      case None => None
      case Some(q) => Some(GenKey(q.0, q.1, UnDecInt(p.1)))
  }

  function DecodeRefine(body: string): Option<Key> {
    match CutFirst(body)
    case None => None
    case Some(p) => match CutFirst(p.1)
      case None => None
      case Some(q) => match CutLast(q.1)
        case None => None
        case Some(r) => Some(RefineKey(UnDecInt(p.0), UnDecInt(q.0), r.0, UnDecInt(r.1)))
  }

  function DecodeVerify(body: string): Option<Key> {
    match CutFirst(body)
    case None => None
    case Some(p) => match CutFirst(p.1)
      case None => None
      case Some(q) => match CutLast(q.1)
        case None => None
        case Some(r) => Some(VerifyKey(UnDecInt(p.0), q.0, r.0, UnDecInt(r.1)))
  }

  function DecodeJudge(body: string): Option<Key> {
    match CutFirst(body)
    case None => None
    case Some(p) => match CutLast(p.1)
      case None => None
      case Some(q) => match CutLast(q.0)
        case None => None
        case Some(r) =>
          Some(JudgeKey(p.0, r.0, UnDecInt(r.1), UnDecInt(if q.1 == "" then "" else q.1[1..])))
  }

  /** Reads a printed identity of the given problem back. */
  function Decode(problem: string, s: string): Option<Key> {
    var g, f, v, j := "gen:" + problem + ":R1:", "refine:" + problem + ":R", "verify:" + problem + ":R", "judge:" + problem + ":";
    if g <= s then DecodeGen(s[|g|..])
    else if f <= s then DecodeRefine(s[|f|..])
    else if v <= s then DecodeVerify(s[|v|..])
    else if j <= s then DecodeJudge(s[|j|..])
    else None
  }

  /** A decoder undoes every printed identity, for any model, verifier or judge id, colons included. */
  lemma DecodePrint(problem: string, k: Key)
    requires Plain(k)
    ensures Decode(problem, Print(problem, k)) == Some(k)
  {
    var s := Print(problem, k);
    match k
    case GenKey(prompt, model, slot) =>
      var g, body := "gen:" + problem + ":R1:", prompt + ":" + model + ":" + DecInt(slot);
      assert s[..|g|] == g && s[|g|..] == body;
      CutLastAt(prompt + ":" + model, DecInt(slot));
      CutFirstAt(prompt, model);
      UnDecIntDecInt(slot);
    case RefineKey(round, trial, model, slot) =>
      var tail := model + ":" + DecInt(slot);
      DecodeRefineBody(round, trial, model, slot);
      var f := "refine:" + problem + ":R";
      assert s[..|f|] == f && s[|f|..] == DecInt(round) + ":" + (DecInt(trial) + ":" + tail);
      assert s[0] == 'r';
    case VerifyKey(round, sha, verifier, slot) =>
      var tail := verifier + ":" + DecInt(slot);
      DecodeVerifyBody(round, sha, verifier, slot);
      var v := "verify:" + problem + ":R";
      assert s[..|v|] == v && s[|v|..] == DecInt(round) + ":" + (sha + ":" + tail);
      assert s[0] == 'v';
    case JudgeKey(sha, judge, slot, attempt) =>
      DecodeJudgeBody(sha, judge, slot, attempt);
      var j := "judge:" + problem + ":";
      assert s[..|j|] == j && s[|j|..] == sha + ":" + (judge + ":" + DecInt(slot) + ":" + ("a" + DecInt(attempt)));
      assert s[0] == 'j';
  }

  lemma DecodeRefineBody(round: int, trial: int, model: string, slot: int)
    ensures DecodeRefine(DecInt(round) + ":" + (DecInt(trial) + ":" + (model + ":" + DecInt(slot))))
         == Some(RefineKey(round, trial, model, slot))
  {
    CutFirstAt(DecInt(round), DecInt(trial) + ":" + (model + ":" + DecInt(slot)));
    CutFirstAt(DecInt(trial), model + ":" + DecInt(slot));
    CutLastAt(model, DecInt(slot));
    UnDecIntDecInt(round);
    UnDecIntDecInt(trial);
    UnDecIntDecInt(slot);
  }

  lemma DecodeVerifyBody(round: int, sha: string, verifier: string, slot: int)
    requires ':' !in sha
    ensures DecodeVerify(DecInt(round) + ":" + (sha + ":" + (verifier + ":" + DecInt(slot))))
         == Some(VerifyKey(round, sha, verifier, slot))
  {
    CutFirstAt(DecInt(round), sha + ":" + (verifier + ":" + DecInt(slot)));
    CutFirstAt(sha, verifier + ":" + DecInt(slot));
    CutLastAt(verifier, DecInt(slot));
    UnDecIntDecInt(round);
    UnDecIntDecInt(slot);
  }

  lemma DecodeJudgeBody(sha: string, judge: string, slot: int, attempt: int)
    requires ':' !in sha
    ensures DecodeJudge(sha + ":" + (judge + ":" + DecInt(slot) + ":" + ("a" + DecInt(attempt))))
         == Some(JudgeKey(sha, judge, slot, attempt))
  {
    var last := "a" + DecInt(attempt);
    CutFirstAt(sha, judge + ":" + DecInt(slot) + ":" + last);
    CutLastAt(judge + ":" + DecInt(slot), last);
    CutLastAt(judge, DecInt(slot));
    UnDecIntDecInt(slot);
    UnDecIntDecInt(attempt);
    assert last[1..] == DecInt(attempt);
  }

  /** Two requests of one problem never share an identity; in particular the four roles never collide. */
  lemma PrintInjective(problem: string, k: Key, k': Key)
    requires Plain(k) && Plain(k')
    requires Print(problem, k) == Print(problem, k')
    ensures k == k'
  {
    DecodePrint(problem, k);
    DecodePrint(problem, k');
  }

  /** Exactly when two generation identities coincide, for any prompt and model ids at all. */
  lemma GenCollision(problem: string, prompt: string, model: string, slot: int, prompt': string, model': string, slot': int)
    ensures GenIdentity(problem, prompt, model, slot) == GenIdentity(problem, prompt', model', slot')
      <==> slot == slot' && prompt + ":" + model == prompt' + ":" + model'
  {
    var g := "gen:" + problem + ":R1:";
    var s, s' := GenIdentity(problem, prompt, model, slot), GenIdentity(problem, prompt', model', slot');
    assert s[|g|..] == prompt + ":" + model + ":" + DecInt(slot);
    assert s'[|g|..] == prompt' + ":" + model' + ":" + DecInt(slot');
    CutLastAt(prompt + ":" + model, DecInt(slot));
    CutLastAt(prompt' + ":" + model', DecInt(slot'));
    if s == s' {
      DecIntInjective(slot, slot');
    }
  }

  /** A colon in a prompt id can make two different samples share one identity. */
  lemma ColonInPromptCollides(problem: string, slot: int)
    ensures GenIdentity(problem, "a:b", "c", slot) == GenIdentity(problem, "a", "b:c", slot)
  {
    assert "a:b" + ":" + "c" == "a" + ":" + "b:c";
  }
}
