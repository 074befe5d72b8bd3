/** Text parsing (text.py): reasoning prefixes, boxed answers with nested braces, and boxed scores. */
module Text {
  import opened Options

  // ---- library string operations -----------------------------------------

  /** The characters `str.strip` removes. */
  predicate Space(c: char) {
    || '\U{9}' <= c <= '\U{D}' || '\U{1C}' <= c <= ' '
    || c == '\U{85}' || c == '\U{A0}' || c == '\U{1680}' || '\U{2000}' <= c <= '\U{200A}'
    || c == '\U{2028}' || c == '\U{2029}' || c == '\U{202F}' || c == '\U{205F}' || c == '\U{3000}'
  }

  function StripLeft(s: string): string {
    if s != "" && Space(s[0]) then StripLeft(s[1..]) else s
  }

  function StripRight(s: string): string {
    if s != "" && Space(s[|s| - 1]) then StripRight(s[..|s| - 1]) else s
  }

  /** `s.strip()`. */
  function Strip(s: string): string {
    StripRight(StripLeft(s))
  }

  predicate OccursAt(s: string, sep: string, i: nat) {
    i + |sep| <= |s| && s[i..i + |sep|] == sep
  }

  /** `sep in s`. */
  ghost predicate Contains(s: string, sep: string) {
    exists i: nat :: OccursAt(s, sep, i)
  }

  /** The first occurrence of `sep` at or after `from`. */
  function FindFrom(s: string, sep: string, from: nat): (r: Option<nat>)
    ensures r.Some? ==> from <= r.value && OccursAt(s, sep, r.value)
    ensures forall i: nat :: from <= i && (r.Some? ==> i < r.value) ==> !OccursAt(s, sep, i)
    decreases |s| - from
  {
    if from + |sep| > |s| then None
    else if s[from..from + |sep|] == sep then Some(from)
    else FindFrom(s, sep, from + 1)
  }

  /** `s.split(sep)`: cut at every non-overlapping occurrence, left to right. */
  function Split(s: string, sep: string): (r: seq<string>)
    requires sep != ""
    ensures r != []
    decreases |s|
  {
    match FindFrom(s, sep, 0)
    case None => [s]
    case Some(i) => [s[..i]] + Split(s[i + |sep|..], sep)
  }

  function Last<T>(s: seq<T>): T
    requires s != []
  {
    s[|s| - 1]
  }

  /** Shifting a suffix: an occurrence inside `s[k..]` is one of `s`, `k` places later. */
  lemma OccursShift(s: string, sep: string, k: nat, i: nat)
    requires k <= |s|
    ensures OccursAt(s[k..], sep, i) <==> OccursAt(s, sep, k + i)
  {
    if i + |sep| <= |s| - k {
      assert s[k..][i..i + |sep|] == s[k + i..k + i + |sep|];
    }
  }

  /** An occurrence that starts in `a` and reaches into the separator after it makes the separator overlap itself. */
  lemma OverlapRepeats(a: string, sep: string, b: string, i: nat)
    requires sep != "" && i < |a| < i + |sep| && OccursAt(a + sep + b, sep, i)
    ensures sep[0] in sep[1..]
  {
    var s := a + sep + b;
    assert s[|a|] == sep[0];
    assert s[i..i + |sep|][|a| - i] == s[|a|];
    assert sep[1..][|a| - i - 1] == sep[0];
  }

  lemma FirstIsSound(a: string, sep: string, b: string) returns (i: nat)
    requires sep != "" && sep[0] !in sep[1..]
    ensures FindFrom(a + sep + b, sep, 0) == Some(i)
    ensures i == |a| || i + |sep| <= |a|
  {
    var s := a + sep + b;
    assert s[|a|..|a| + |sep|] == sep;
    assert OccursAt(s, sep, |a|);
    i := FindFrom(s, sep, 0).value;
    if i < |a| && |a| < i + |sep| { OverlapRepeats(a, sep, b, i); }
  }

  /** After an earlier separator the text still ends in `sep + b`. */
  lemma RestAfter(a: string, sep: string, b: string, i: nat)
    requires i + |sep| <= |a|
    ensures (a + sep + b)[i + |sep|..] == a[i + |sep|..] + sep + b
  {
  }

  lemma RestIsLast(a: string, sep: string, b: string)
    ensures (a + sep + b)[|a| + |sep|..] == b
  {
  }

  lemma SplitWhole(b: string, sep: string)
    requires sep != "" && !Contains(b, sep)
    ensures Split(b, sep) == [b]
  {
    assert FindFrom(b, sep, 0).None?;
  }

  /**
   * A separator whose first character occurs nowhere else in it cannot overlap itself, so the last
   * piece of `a + sep + b` is `b` whenever `b` holds no separator, whatever `a` is.
   */
  lemma {:induction false} SplitLast(a: string, sep: string, b: string)
    requires sep != "" && sep[0] !in sep[1..]
    requires !Contains(b, sep)
    ensures |Split(a + sep + b, sep)| >= 2
    ensures Last(Split(a + sep + b, sep)) == b
    decreases |a|
  {
    var i := FirstIsSound(a, sep, b);
    SplitStep(a + sep + b, sep, i);
    if i == |a| {
      RestIsLast(a, sep, b);
      SplitWhole(b, sep);
    } else {
      RestAfter(a, sep, b, i);
      SplitLast(a[i + |sep|..], sep, b);
    }
  }

  lemma {:induction false} SplitStep(s: string, sep: string, i: nat)
    requires sep != "" && FindFrom(s, sep, 0) == Some(i)
    ensures Split(s, sep) == [s[..i]] + Split(s[i + |sep|..], sep)
    ensures Last(Split(s, sep)) == Last(Split(s[i + |sep|..], sep))
  {
  }

  // ---- finish reasons and reasoning prefixes ------------------------------

  function LowerChar(c: char): char {
    if 'A' <= c <= 'Z' then (c as int + 32) as char else c
  }

  function Lower(s: string): string {
    seq(|s|, i requires 0 <= i < |s| => LowerChar(s[i]))
  }

  predicate IsCompleteFinishReason(finish: Option<string>) {
    finish.None? || Lower(finish.value) in ["stop", "eos", "eos_token"]
  }

  const THINK_END := "</think>"
  const BOXED := "boxed{"

  function StripThink(text: string): string {
    var t := Strip(text);
    if FindFrom(t, THINK_END, 0).Some? then Strip(Last(Split(t, THINK_END))) else t
  }

  // ---- braces --------------------------------------------------------------

  /** Opening minus closing braces. */
  function Depth(s: string): int {
    if s == "" then 0
    else Depth(s[..|s| - 1]) + (if s[|s| - 1] == '{' then 1 else if s[|s| - 1] == '}' then -1 else 0)
  }

  ghost predicate Balanced(s: string) {
    Depth(s) == 0 && forall i :: 0 <= i <= |s| ==> Depth(s[..i]) >= 0
  }

  /** The first closing brace of `piece` without an opening one, searching from `i` at the given depth. */
  function CloseFrom(piece: string, i: nat, depth: int): Option<nat>
    requires i <= |piece|
    decreases |piece| - i
  {
    if i == |piece| then None
    else if piece[i] == '{' then CloseFrom(piece, i + 1, depth + 1)
    else if piece[i] == '}' then
      if depth - 1 < 0 then Some(i) else CloseFrom(piece, i + 1, depth - 1)
    else CloseFrom(piece, i + 1, depth)
  }

  /** What one piece after `boxed{` contributes. */
  function AnswerOf(piece: string): Option<string> {
    match CloseFrom(piece, 0, 0)
    case None => None
    case Some(i) =>
      if i < |piece| then
        Some(if i + 1 < |piece| && piece[i + 1] == '%' then piece[..i + 1] else piece[..i])
      else None
  }

  function AnswersOf(pieces: seq<string>): seq<string> {
    if pieces == [] then []
    else AnswersOf(pieces[..|pieces| - 1]) +
         match AnswerOf(pieces[|pieces| - 1]) { case None => [] case Some(a) => [a] }
  }

  function BoxedAnswers(text: string): seq<string> {
    AnswersOf(Split(text, BOXED)[1..])
  }

  lemma {:induction false} CloseFromCorrect(piece: string, i: nat, depth: int)
    requires i <= |piece| && depth == Depth(piece[..i]) && depth >= 0
    requires forall k :: 0 <= k <= i ==> Depth(piece[..k]) >= 0
    ensures var r := CloseFrom(piece, i, depth);
      match r
      case None => forall k :: 0 <= k <= |piece| ==> Depth(piece[..k]) >= 0
      case Some(c) => i <= c < |piece| && piece[c] == '}' && Balanced(piece[..c])
    decreases |piece| - i
  {
    if i < |piece| {
      assert piece[..i + 1][..i] == piece[..i];
      if piece[i] == '{' {
        CloseFromCorrect(piece, i + 1, depth + 1);
      } else if piece[i] == '}' {
        if depth - 1 < 0 {
          assert Balanced(piece[..i]) by {
            forall k | 0 <= k <= i ensures Depth(piece[..i][..k]) >= 0 { assert piece[..i][..k] == piece[..k]; }
          }
        } else {
          CloseFromCorrect(piece, i + 1, depth - 1);
        }
      } else {
        CloseFromCorrect(piece, i + 1, depth);
      }
    }
  }

  /** The extraction loop, brace by brace. */
  method ExtractBoxedAnswers(text: string) returns (answers: seq<string>)
    ensures answers == BoxedAnswers(text)
  {
    answers := [];
    var pieces := Split(text, BOXED)[1..];
    for p := 0 to |pieces|
      invariant answers == AnswersOf(pieces[..p])
    {
      var piece := pieces[p];
      var depth := 0;
      var i := 0;
      var open := true;
      ghost var before := answers;
      while i < |piece| && open
        invariant 0 <= i <= |piece|
        invariant open ==> depth >= 0 && CloseFrom(piece, i, depth) == CloseFrom(piece, 0, 0)
        invariant open ==> answers == before
        invariant !open ==> AnswerOf(piece).Some? && answers == before + [AnswerOf(piece).value]
        decreases |piece| - i, open
      {
        if piece[i] == '{' {
          depth := depth + 1;
        } else if piece[i] == '}' {
          depth := depth - 1;
          if depth < 0 {
            if i + 1 < |piece| && piece[i + 1] == '%' {
              answers := answers + [piece[..i + 1]];
            } else {
              answers := answers + [piece[..i]];
            }
            open := false;
          }
        }
        if open { i := i + 1; }
      }
      assert pieces[..p + 1][..p] == pieces[..p];
    }
    assert pieces[..|pieces|] == pieces;
  }

  /** A body is balanced; in the percent case it is balanced up to its own closing brace. */
  predicate EndsWithBrace(s: string) {
    s != "" && s[|s| - 1] == '}'
  }

  lemma AnswerOfBalanced(piece: string)
    ensures AnswerOf(piece).Some? ==>
      var a := AnswerOf(piece).value;
      Balanced(a) || (EndsWithBrace(a) && Balanced(a[..|a| - 1]))
  {
    assert piece[..0] == "";
    CloseFromCorrect(piece, 0, 0);
    if CloseFrom(piece, 0, 0).Some? {
      var c := CloseFrom(piece, 0, 0).value;
      assert piece[..c + 1][..c] == piece[..c];
    }
  }

  lemma {:induction false} AnswersBalanced(pieces: seq<string>)
    ensures forall a :: a in AnswersOf(pieces) ==> Balanced(a) || (EndsWithBrace(a) && Balanced(a[..|a| - 1]))
  {
    if pieces != [] {
      AnswersBalanced(pieces[..|pieces| - 1]);
      AnswerOfBalanced(pieces[|pieces| - 1]);
    }
  }

  /** Every extracted body is brace-balanced, apart from the percent case. */
  lemma BoxedAnswersBalanced(text: string)
    ensures forall a :: a in BoxedAnswers(text) ==> Balanced(a) || (EndsWithBrace(a) && Balanced(a[..|a| - 1]))
  {
    AnswersBalanced(Split(text, BOXED)[1..]);
  }

  lemma {:induction false} DepthAppend(a: string, b: string)
    ensures Depth(a + b) == Depth(a) + Depth(b)
  {
    if b == "" {
      assert a + b == a;
    } else {
      DepthAppend(a, b[..|b| - 1]);
      assert (a + b)[..|a + b| - 1] == a + b[..|b| - 1];
    }
  }

  /** A balanced body is closed exactly at its own closing brace. */
  lemma {:induction false} CloseAtBody(body: string, tail: string, i: nat)
    requires i <= |body| && Balanced(body)
    ensures CloseFrom(body + "}" + tail, i, Depth(body[..i])) == Some(|body|)
    decreases |body| - i
  {
    var piece := body + "}" + tail;
    if i < |body| {
      assert body[..i + 1][..i] == body[..i];
      assert Depth(body[..i + 1]) >= 0;
      CloseAtBody(body, tail, i + 1);
    } else {
      assert body[..i] == body;
    }
  }

  lemma AnswerOfBody(body: string, tail: string)
    requires Balanced(body) && (tail == "" || tail[0] != '%')
    ensures AnswerOf(body + "}" + tail) == Some(body)
  {
    assert body[..0] == "";
    CloseAtBody(body, tail, 0);
    var piece := body + "}" + tail;
    assert piece[..|body|] == body;
    if |body| + 1 < |piece| { assert piece[|body| + 1] == tail[0]; }
  }

  /** Where an occurrence around a closing brace can lie. */
  lemma OccursAroundBrace(a: string, tail: string, sep: string, i: nat)
    requires OccursAt(a + "}" + tail, sep, i)
    ensures OccursAt(a, sep, i) || '}' in sep || (i > |a| && OccursAt(tail, sep, i - |a| - 1))
  {
    var s := a + "}" + tail;
    if i + |sep| <= |a| {
      assert s[i..i + |sep|] == a[i..i + |sep|];
    } else if i <= |a| {
      assert s[i..i + |sep|][|a| - i] == '}';
    } else {
      OccursShift(s, sep, |a| + 1, i - |a| - 1);
      assert s[|a| + 1..] == tail;
    }
  }

  /** A separator holding no closing brace does not straddle one. */
  lemma NoStraddle(a: string, tail: string, sep: string)
    requires '}' !in sep && !Contains(a, sep) && !Contains(tail, sep)
    ensures !Contains(a + "}" + tail, sep)
  {
    forall i: nat | OccursAt(a + "}" + tail, sep, i) ensures false {
      OccursAroundBrace(a, tail, sep, i);
    }
  }

  /** The printed form `...boxed{body}tail`. */
  function Printed(prefix: string, body: string, tail: string): string {
    prefix + BOXED + (body + "}" + tail)
  }

  /** What a final box needs: a balanced body, and nothing after it that opens a box or glues a percent sign. */
  ghost predicate FinalBox(body: string, tail: string) {
    && Balanced(body) && !Contains(body, BOXED) && !Contains(tail, BOXED)
    && (tail == "" || tail[0] != '%')
  }

  /** For any prefix, a final box is exactly the last answer found. */
  lemma LastAnswerIsBody(prefix: string, body: string, tail: string)
    requires FinalBox(body, tail)
    ensures BoxedAnswers(Printed(prefix, body, tail)) != []
    ensures Last(BoxedAnswers(Printed(prefix, body, tail))) == body
  {
    var piece := body + "}" + tail;
    NoStraddle(body, tail, BOXED);
    SplitLast(prefix, BOXED, piece);
    AnswerOfBody(body, tail);
    var pieces := Split(Printed(prefix, body, tail), BOXED)[1..];
    assert pieces[|pieces| - 1] == piece;
  }

  // ---- scores --------------------------------------------------------------

  function NonBlank(answers: seq<string>): seq<string> {
    if answers == [] then []
    else NonBlank(answers[..|answers| - 1]) +
         (var a := Strip(answers[|answers| - 1]); if a == "" then [] else [a])
  }

  /** The last boxed answer that is not blank. */
  function FinalAnswer(text: string): Option<string> {
    var scores := NonBlank(BoxedAnswers(StripThink(text)));
    if scores == [] then None else Some(Last(scores))
  }

  /** `read` stands for `float()`: it reads a number or fails. */
  function ParseVerificationScore(read: string -> Option<real>, text: string): (r: Option<real>)
    ensures r.Some? ==> r.value in {0.0, 0.5, 1.0}
  {
    match FinalAnswer(text)
    case None => None
    case Some(a) => match read(a)
      case None => None
      case Some(x) => if x == 0.0 || x == 0.5 || x == 1.0 then Some(x) else None
  }

  function ParseJudgeScore(read: string -> Option<real>, text: string): (r: Option<int>)
    ensures r.Some? ==> 0 <= r.value <= 7
  {
    match FinalAnswer(text)
    case None => None
    case Some(a) => match read(a)
      case None => None
      case Some(x) => if x == x.Floor as real && 0.0 <= x <= 7.0 then Some(x.Floor) else None
  }

  lemma {:induction false} StripLeftPrefix(a: string, b: string)
    requires b != "" && !Space(b[0])
    ensures exists a' :: StripLeft(a + b) == a' + b
  {
    if a == "" {
      assert a + b == "" + b;
      assert StripLeft(a + b) == "" + b;
    } else if Space(a[0]) {
      StripLeftPrefix(a[1..], b);
      assert (a + b)[1..] == a[1..] + b;
    } else {
      assert StripLeft(a + b) == a + b;
    }
  }

  /** Stripping on the right only shortens the tail after a character that is not a space. */
  lemma {:induction false} StripRightTail(a: string, tail: string)
    requires a != "" && !Space(a[|a| - 1])
    ensures exists k :: 0 <= k <= |tail| && StripRight(a + tail) == a + tail[..k]
  {
    if tail == "" {
      assert a + tail == a + tail[..0];
      assert StripRight(a + tail) == a + tail[..0];
    } else if Space(tail[|tail| - 1]) {
      var t := tail[..|tail| - 1];
      StripRightTail(a, t);
      assert (a + tail)[..|a + tail| - 1] == a + t;
      var k :| 0 <= k <= |t| && StripRight(a + t) == a + t[..k];
      assert t[..k] == tail[..k];
      assert StripRight(a + tail) == a + tail[..k];
    } else {
      assert StripRight(a + tail) == a + tail[..|tail|];
    }
  }

  lemma PrefixContains(s: string, k: nat, sep: string)
    requires k <= |s| && !Contains(s, sep)
    ensures !Contains(s[..k], sep)
  {
    forall i: nat ensures !OccursAt(s[..k], sep, i) {
      if OccursAt(s[..k], sep, i) {
        assert s[..k][i..i + |sep|] == s[i..i + |sep|];
        assert OccursAt(s, sep, i);
      }
    }
  }

  /** Stripping around a core that starts and ends with visible characters leaves the core in place. */
  lemma StripAround(a: string, core: string, b: string) returns (a': string, k: nat)
    requires core != "" && !Space(core[0]) && !Space(core[|core| - 1])
    ensures k <= |b| && Strip(a + (core + b)) == a' + (core + b[..k])
  {
    assert (core + b)[0] == core[0];
    StripLeftPrefix(a, core + b);
    a' :| StripLeft(a + (core + b)) == a' + (core + b);
    k := StripAfter(a', core, b);
  }

  lemma StripAfter(a: string, core: string, b: string) returns (k: nat)
    requires core != "" && !Space(core[|core| - 1])
    ensures k <= |b| && StripRight(a + (core + b)) == a + (core + b[..k])
  {
    var head := a + core;
    assert a + (core + b) == head + b && head[|head| - 1] == core[|core| - 1];
    StripRightTail(head, b);
    k :| 0 <= k <= |b| && StripRight(head + b) == head + b[..k];
    assert head + b[..k] == a + (core + b[..k]);
  }

  lemma PrintedCore(prefix: string, body: string, tail: string)
    ensures Printed(prefix, body, tail) == prefix + ((BOXED + body + "}") + tail)
  {
  }

  /** `Strip` leaves a printed box printed, with some other prefix and a shorter tail. */
  lemma StripPrinted(prefix: string, body: string, tail: string) returns (prefix': string, k: nat)
    ensures k <= |tail| && Strip(Printed(prefix, body, tail)) == Printed(prefix', body, tail[..k])
  {
    var core := BOXED + body + "}";
    assert core[0] == 'b' && core[|core| - 1] == '}';
    PrintedCore(prefix, body, tail);
    prefix', k := StripAround(prefix, core, tail);
    PrintedCore(prefix', body, tail[..k]);
  }

  /** A tag that overlaps a word shares a character with it. */
  lemma OverlapShares(prefix: string, word: string, rest: string, tag: string, i: nat)
    requires word != "" && tag != "" && OccursAt(prefix + word + rest, tag, i)
    ensures i + |tag| <= |prefix|
         || (exists c :: c in word && c in tag)
         || (i >= |prefix| + |word| && OccursAt(rest, tag, i - |prefix| - |word|))
  {
    var s := prefix + word + rest;
    var cut := |prefix| + |word|;
    if i >= cut {
      OccursShift(s, tag, cut, i - cut);
      assert s[cut..] == rest;
    } else if i + |tag| > |prefix| {
      var m := if i > |prefix| then i else |prefix|;
      assert s[m] == word[m - |prefix|];
      assert s[i..i + |tag|][m - i] == s[m];
      assert s[m] in word && s[m] in tag;
    }
  }

  lemma ThinkSharesNoBoxChar()
    ensures forall c :: c in BOXED ==> c !in THINK_END
  {
  }

  /** An occurrence of the tag lies before the box. */
  lemma TagBeforeBox(prefix: string, body: string, tail: string, i: nat)
    requires !Contains(body, THINK_END) && !Contains(tail, THINK_END)
    requires OccursAt(Printed(prefix, body, tail), THINK_END, i)
    ensures i + |THINK_END| <= |prefix|
  {
    NoStraddle(body, tail, THINK_END);
    ThinkSharesNoBoxChar();
    OverlapShares(prefix, BOXED, body + "}" + tail, THINK_END, i);
  }

  /** Neither brace occurs in the think tag, so the tag stays on one side of a printed box. */
  lemma {:induction false} ThinkSplitPrinted(prefix: string, body: string, tail: string) returns (prefix': string)
    requires !Contains(body, THINK_END) && !Contains(tail, THINK_END)
    ensures Last(Split(Printed(prefix, body, tail), THINK_END)) == Printed(prefix', body, tail)
    decreases |prefix|
  {
    var s := Printed(prefix, body, tail);
    var f := FindFrom(s, THINK_END, 0);
    if f.None? {
      prefix' := prefix;
    } else {
      var i := f.value;
      TagBeforeBox(prefix, body, tail, i);
      var p := prefix[i + |THINK_END|..];
      assert s[i + |THINK_END|..] == Printed(p, body, tail);
      prefix' := ThinkSplitPrinted(p, body, tail);
    }
  }

  /**
   * Recovering a printed score: whatever came before, a final box that is not blank, followed by text
   * with no further box, no closing think tag and no leading percent sign, is the answer both score
   * parsers read.
   */
  lemma FinalAnswerRecovered(prefix: string, body: string, tail: string)
    requires FinalBox(body, tail) && Strip(body) != ""
    requires !Contains(body, THINK_END) && !Contains(tail, THINK_END)
    ensures FinalAnswer(Printed(prefix, body, tail)) == Some(Strip(body))
  {
    var text := Printed(prefix, body, tail);
    var p1, k1 := StripPrinted(prefix, body, tail);
    var t1 := tail[..k1];
    PrefixContains(tail, k1, BOXED);
    PrefixContains(tail, k1, THINK_END);
    var p3, t3 := p1, t1;
    if FindFrom(Strip(text), THINK_END, 0).Some? {
      var p2 := ThinkSplitPrinted(p1, body, t1);
      var p4, k4 := StripPrinted(p2, body, t1);
      PrefixContains(t1, k4, BOXED);
      p3, t3 := p4, t1[..k4];
    }
    assert StripThink(text) == Printed(p3, body, t3);
    LastAnswerIsBody(p3, body, t3);
    var answers := BoxedAnswers(StripThink(text));
    assert Last(NonBlank(answers)) == Strip(body);
  }

  /** Both score parsers read a printed score back. */
  lemma ScoresRecovered(read: string -> Option<real>, prefix: string, body: string, tail: string, x: real)
    requires FinalBox(body, tail) && Strip(body) != ""
    requires !Contains(body, THINK_END) && !Contains(tail, THINK_END)
    requires read(Strip(body)) == Some(x)
    ensures ParseVerificationScore(read, Printed(prefix, body, tail)) == (if x in {0.0, 0.5, 1.0} then Some(x) else None)
    ensures forall n: int :: ParseJudgeScore(read, Printed(prefix, body, tail)) == Some(n) <==> x == n as real && 0 <= n <= 7
  {
    FinalAnswerRecovered(prefix, body, tail);
  }

  // ---- what stripping, splitting and extraction mean ---------------------------------------

  ghost predicate Blank(s: string) {
    forall i :: 0 <= i < |s| ==> Space(s[i])
  }

  lemma {:induction false} StripLeftMeaning(s: string) returns (l: string)
    ensures s == l + StripLeft(s) && Blank(l) && (StripLeft(s) != "" ==> !Space(StripLeft(s)[0]))
  {
    if s != "" && Space(s[0]) {
      var rest := StripLeftMeaning(s[1..]);
      l := [s[0]] + rest;
    } else {
      l := "";
    }
  }

  lemma {:induction false} StripRightMeaning(s: string) returns (t: string)
    ensures s == StripRight(s) + t && Blank(t) && (StripRight(s) != "" ==> !Space(Last(StripRight(s))))
  {
    if s != "" && Space(s[|s| - 1]) {
      var rest := StripRightMeaning(s[..|s| - 1]);
      t := rest + [s[|s| - 1]];
    } else {
      t := "";
    }
  }

  /** `strip` takes blanks, and nothing else, off both ends. */
  lemma StripMeaning(s: string) returns (l: string, t: string)
    ensures s == l + Strip(s) + t && Blank(l) && Blank(t)
    ensures Strip(s) != "" ==> !Space(Strip(s)[0]) && !Space(Last(Strip(s)))
  {
    l := StripLeftMeaning(s);
    t := StripRightMeaning(StripLeft(s));
    assert Strip(s) != "" ==> Strip(s)[0] == StripLeft(s)[0];
  }

  lemma OccursInside(l: string, m: string, t: string, sep: string, i: nat)
    requires OccursAt(m, sep, i)
    ensures OccursAt(l + m + t, sep, |l| + i)
  {
    assert (l + m + t)[|l| + i..|l| + i + |sep|] == m[i..i + |sep|];
  }

  /** A blank that the right strip would take anyway may be cut off first. */
  lemma {:induction false} LastBlankGoes(s: string, c: char)
    requires Space(c)
    ensures StripRight(StripLeft(s + [c])) == StripRight(StripLeft(s))
  {
    var s' := s + [c];
    if s != "" && Space(s[0]) {
      assert s'[1..] == s[1..] + [c];
      LastBlankGoes(s[1..], c);
    } else if s == "" {
      assert s'[1..] == "";
    } else {
      assert s'[..|s'| - 1] == s;
    }
  }

  lemma {:induction false} BlankTailGoes(s: string, t: string)
    requires Blank(t)
    ensures Strip(s + t) == Strip(s)
  {
    if t == "" {
      assert s + t == s;
    } else {
      var n := |t| - 1;
      BlankTailGoes(s, t[..n]);
      assert s + t == (s + t[..n]) + [t[n]];
      LastBlankGoes(s + t[..n], t[n]);
    }
  }

  /** Without a closing think tag the answer is the whole text, stripped. */
  lemma NoThinkKept(text: string)
    requires !Contains(text, "</think>")
    ensures StripThink(text) == Strip(text)
  {
    var l, t := StripMeaning(text);
    if FindFrom(Strip(text), THINK_END, 0).Some? {
      OccursInside(l, Strip(text), t, THINK_END, FindFrom(Strip(text), THINK_END, 0).value);
    }
  }

  /** Blanks at the ends of a text lie outside a core that shows at both of its own ends. */
  lemma BlanksOutside(a: string, core: string, b: string, l: string, m: string, t: string)
    requires core != "" && !Space(core[0]) && !Space(Last(core))
    requires a + core + b == l + m + t && Blank(l) && Blank(t)
    ensures |l| <= |a| && |t| <= |b| && m == a[|l|..] + core + b[..|b| - |t|] && b[|b| - |t|..] == t
  {
    var text := a + core + b;
    assert text[|a|] == core[0] && text[|a| + |core| - 1] == Last(core);
    var cut := |text| - |t|;
    assert text[..|l|] == l && text[cut..] == t && text[|l|..cut] == m;
    forall i | 0 <= i < |l| ensures Space(text[i]) { assert text[..|l|][i] == l[i]; }
    forall i | cut <= i < |text| ensures Space(text[i]) { assert text[cut..][i - cut] == t[i - cut]; }
    assert |l| <= |a| && |a| + |core| <= cut;
    assert text[|l|..cut] == a[|l|..] + core + b[..|b| - |t|];
    assert text[cut..] == b[|b| - |t|..];
  }

  /** Everything up to the last closing think tag is dropped, whatever it says. */
  lemma ThinkDropped(prefix: string, answer: string)
    requires !Contains(answer, "</think>")
    ensures StripThink(prefix + "</think>" + answer) == Strip(answer)
  {
    var text := prefix + THINK_END + answer;
    var l, t := StripMeaning(text);
    BlanksOutside(prefix, THINK_END, answer, l, Strip(text), t);
    var p, k := prefix[|l|..], |answer| - |t|;
    assert Strip(text) == p + THINK_END + answer[..k];
    PrefixContains(answer, k, THINK_END);
    BlankTailGoes(answer[..k], t);
    assert answer[..k] + t == answer;
    SplitLast(p, THINK_END, answer[..k]);
    assert OccursAt(Strip(text), THINK_END, |p|);
  }

  // ---- splitting and answers in full ---------------------------------------------------------

  lemma FirstBox(a: string, sep: string, b: string)
    requires sep != "" && FindFrom(a + sep + b, sep, 0) == Some(|a|) && !Contains(b, sep)
    ensures Split(a + sep + b, sep) == [a] + [b] && Split(a, sep) == [a]
  {
    SplitStep(a + sep + b, sep, |a|);
    RestIsLast(a, sep, b);
    SplitWhole(b, sep);
    assert (a + sep + b)[..|a|] == a;
    forall j: nat ensures !OccursAt(a, sep, j) { EarlyOccurrence(a, sep, b, j, |a|); }
    SplitWhole(a, sep);
  }

  lemma EarlierBox(a: string, sep: string, b: string, i: nat)
    requires sep != "" && FindFrom(a + sep + b, sep, 0) == Some(i) && i + |sep| <= |a|
    ensures Split(a + sep + b, sep) == [a[..i]] + Split(a[i + |sep|..] + sep + b, sep)
    ensures Split(a, sep) == [a[..i]] + Split(a[i + |sep|..], sep)
  {
    SplitStep(a + sep + b, sep, i);
    RestAfter(a, sep, b, i);
    assert (a + sep + b)[..i] == a[..i];
    assert OccursAt(a, sep, i) by { assert (a + sep + b)[i..i + |sep|] == a[i..i + |sep|]; }
    forall j: nat | j < i ensures !OccursAt(a, sep, j) { EarlyOccurrence(a, sep, b, j, i); }
    assert FindFrom(a, sep, 0) == Some(i);
    SplitStep(a, sep, i);
  }

  /** Splitting at a separator that cannot overlap itself goes piece by piece: one more at the end gives one more piece. */
  lemma {:induction false} SplitAppend(a: string, sep: string, b: string)
    requires sep != "" && sep[0] !in sep[1..] && !Contains(b, sep)
    ensures Split(a + sep + b, sep) == Split(a, sep) + [b]
    decreases |a|
  {
    var i := FirstIsSound(a, sep, b);
    if i == |a| {
      FirstBox(a, sep, b);
    } else {
      EarlierBox(a, sep, b, i);
      SplitAppend(a[i + |sep|..], sep, b);
    }
  }

  lemma EarlyOccurrence(a: string, sep: string, b: string, j: nat, i: nat)
    requires FindFrom(a + sep + b, sep, 0) == Some(i) && (j < i || i == |a|) && sep != ""
    ensures !OccursAt(a, sep, j)
  {
    if OccursAt(a, sep, j) {
      assert (a + sep + b)[j..j + |sep|] == a[j..j + |sep|];
      assert OccursAt(a + sep + b, sep, j);
    }
  }

  /** Without a box there is no answer; with one more box, at most one more answer, that of the text after it. */
  lemma AnswersBoxByBox(text: string, piece: string)
    requires !Contains(piece, "boxed{")
    ensures BoxedAnswers(piece) == []
    ensures BoxedAnswers(text + "boxed{" + piece) == BoxedAnswers(text) + (if AnswerOf(piece).Some? then [AnswerOf(piece).value] else [])
  {
    SplitWhole(piece, BOXED);
    SplitAppend(text, BOXED, piece);
    var pieces := Split(text, BOXED);
    assert (pieces + [piece])[1..] == pieces[1..] + [piece];
    assert (pieces[1..] + [piece])[..|pieces[1..]|] == pieces[1..];
  }

  /** The text after a box: a balanced body and its closing brace, which a percent sign behind it keeps in the answer. */
  ghost predicate Answers(piece: string, body: string, answer: string) {
    && Balanced(body) && |body| < |piece| && piece[..|body|] == body && piece[|body|] == '}'
    && answer == (if |body| + 1 < |piece| && piece[|body| + 1] == '%' then body + "}" else body)
  }

  /** A box has an answer exactly when its brace is closed, and the answer is what stands between. */
  lemma AnswerIsClosedBody(piece: string, answer: string)
    ensures AnswerOf(piece) == Some(answer) <==> exists body :: Answers(piece, body, answer)
  {
    assert piece[..0] == "";
    CloseFromCorrect(piece, 0, 0);
    if AnswerOf(piece) == Some(answer) {
      var c := CloseFrom(piece, 0, 0).value;
      assert piece[..c + 1] == piece[..c] + "}";
      assert Answers(piece, piece[..c], answer);
    }
    if body :| Answers(piece, body, answer) {
      var tail := piece[|body| + 1..];
      assert piece == body + "}" + tail;
      assert body[..0] == "";
      CloseAtBody(body, tail, 0);
      assert piece[..|body| + 1] == body + "}";
    }
  }

  /** The answer a score is read from: the last that is not blank, stripped. */
  lemma FinalAnswerMeaning(text: string)
    ensures var answers, f := BoxedAnswers(StripThink(text)), FinalAnswer(text);
      && (f.None? ==> forall a :: a in answers ==> Strip(a) == "")
      && (f.Some? ==> exists k :: ShowsLast(answers, k, f.value))
  {
    LastVisible(BoxedAnswers(StripThink(text)));
  }

  /** Answer `k` shows `value`, and none after it shows anything. */
  ghost predicate ShowsLast(answers: seq<string>, k: int, value: string) {
    0 <= k < |answers| && Strip(answers[k]) == value != "" && forall j :: k < j < |answers| ==> Strip(answers[j]) == ""
  }

  lemma {:induction false} LastVisible(answers: seq<string>)
    ensures NonBlank(answers) == [] ==> forall a :: a in answers ==> Strip(a) == ""
    ensures NonBlank(answers) != [] ==> exists k :: ShowsLast(answers, k, Last(NonBlank(answers)))
  {
    if answers != [] {
      var n := |answers| - 1;
      var front := answers[..n];
      LastVisible(front);
      if Strip(answers[n]) != "" {
        assert NonBlank(answers) == NonBlank(front) + [Strip(answers[n])];
        assert ShowsLast(answers, n, Last(NonBlank(answers)));
      } else {
        assert NonBlank(answers) == NonBlank(front);
        if NonBlank(front) != [] {
          var k :| ShowsLast(front, k, Last(NonBlank(front)));
          assert ShowsLast(answers, k, Last(NonBlank(answers)));
        } else {
          assert forall j :: 0 <= j < n ==> answers[j] == front[j] && front[j] in front;
        }
      }
    }
  }

  /**
   * Exactly what the two parsers accept: from the final answer, when it reads as a number, the verifier's parser takes 0,
   * one half and 1, and the judge's the whole numbers from 0 to 7; nothing else.
   */
  lemma ParsersAccept(read: string -> Option<real>, text: string, score: real, points: int)
    ensures ParseVerificationScore(read, text) == Some(score) <==>
      FinalAnswer(text).Some? && read(FinalAnswer(text).value) == Some(score) && (score == 0.0 || score == 0.5 || score == 1.0)
    ensures ParseJudgeScore(read, text) == Some(points) <==>
      FinalAnswer(text).Some? && read(FinalAnswer(text).value) == Some(points as real) && 0 <= points <= 7
  {
  }

  /** How a response may end: any casing of the three words, or nothing said. */
  lemma CompleteReasons(reason: string)
    ensures IsCompleteFinishReason(None) && IsCompleteFinishReason(Some("STOP")) && IsCompleteFinishReason(Some("Eos"))
    ensures Lower(reason) == reason ==> (IsCompleteFinishReason(Some(reason)) <==> reason == "stop" || reason == "eos" || reason == "eos_token")
  {
    assert Lower("STOP") == "stop" && Lower("Eos") == "eos";
  }
}
