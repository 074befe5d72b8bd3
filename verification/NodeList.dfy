/** `expand_nodelist` of the sandbox start script: a compressed node list becomes the hosts it names. */
module NodeList {
  import opened Options
  import opened Text

  // ---- numbers ------------------------------------------------------------------

  function Digit(n: nat): char
    requires n < 10
  {
    "0123456789"[n]
  }

  function Decimal(n: nat): (r: string)
    ensures r != ""
  {
    if n < 10 then [Digit(n)] else Decimal(n / 10) + [Digit(n % 10)]
  }

  function Zeros(k: nat): (r: string)
    ensures |r| == k && forall i :: 0 <= i < k ==> r[i] == '0'
  {
    seq(k, i => '0')
  }

  /** `f"{n:0{width}d}"`. */
  function Padded(n: int, width: nat): (r: string)
    ensures r != "" && |r| >= width
  {
    if n >= 0 then
      var d := Decimal(n);
      if |d| < width then Zeros(width - |d|) + d else d
    else
      var d := Decimal(-n);
      if |d| + 1 < width then "-" + Zeros(width - 1 - |d|) + d else "-" + d
  }

  predicate IsDigit(c: char) {
    '0' <= c <= '9'
  }

  predicate AllDigits(s: string) {
    s != "" && forall i :: 0 <= i < |s| ==> IsDigit(s[i])
  }

  function Value(s: string): nat
    requires forall i :: 0 <= i < |s| ==> IsDigit(s[i])
  {
    if s == "" then 0
    else
      var last := s[|s| - 1];
      assert IsDigit(last);
      10 * Value(s[..|s| - 1]) + (last as int - '0' as int)
  }

  lemma {:induction false} DecimalValue(n: nat)
    ensures AllDigits(Decimal(n)) && Value(Decimal(n)) == n
  {
    if n >= 10 {
      DecimalValue(n / 10);
      var d := Decimal(n);
      assert d[..|d| - 1] == Decimal(n / 10);
    } else {
      assert Decimal(n)[..0] == "" && Value("") == 0;
    }
  }

  lemma {:induction false} LeadingZeros(k: nat, d: string)
    requires AllDigits(d)
    ensures AllDigits(Zeros(k) + d) && Value(Zeros(k) + d) == Value(d)
  {
    var s := Zeros(k) + d;
    assert s[..|s| - 1] == Zeros(k) + d[..|d| - 1];
    if |d| > 1 {
      LeadingZeros(k, d[..|d| - 1]);
    } else {
      assert d[..0] == "" && s[..k] == Zeros(k) && s[..|s| - 1] == Zeros(k);
      OnlyZeros(k);
    }
  }

  lemma {:induction false} OnlyZeros(k: nat)
    ensures Value(Zeros(k)) == 0
  {
    if k > 0 {
      OnlyZeros(k - 1);
      assert Zeros(k)[..k - 1] == Zeros(k - 1);
    }
  }

  lemma PaddedValue(n: nat, width: nat)
    ensures AllDigits(Padded(n, width)) && Value(Padded(n, width)) == n
  {
    DecimalValue(n);
    if |Decimal(n)| < width { LeadingZeros(width - |Decimal(n)|, Decimal(n)); }
  }

  // ---- the parser ---------------------------------------------------------------------

  /** `int(text)`, or nothing where it raises; on plain digits it reads the decimal number. */
  type Reader = string -> Option<int>

  ghost predicate ReadsDecimals(read: Reader) {
    forall s :: AllDigits(s) ==> read(s) == Some(Value(s))
  }

  function FirstOf(s: string, stops: string): (k: nat)
    ensures k <= |s| && (forall i :: 0 <= i < k ==> s[i] !in stops) && (k < |s| ==> s[k] in stops)
  {
    if s == "" || s[0] in stops then 0 else 1 + FirstOf(s[1..], stops)
  }

  function Cut(s: string, c: char): (r: seq<string>)
    ensures r != []
  {
    var k := FirstOf(s, [c]);
    if k == |s| then [s] else [s[..k]] + Cut(s[k + 1..], c)
  }

  /** One element of a node list: a name, what its brackets hold if it has brackets, and the text after it. */
  datatype Piece = Piece(prefix: string, ranges: Option<string>, rest: string)

  /** The end of an element is a comma, the end of the text, or a final line break. */
  function Ended(s: string): (r: Option<string>)
    ensures r.Some? ==> |r.value| <= |s|
  {
    if s == "" || s == "\n" then Some(s) else if s[0] == ',' then Some(s[1..]) else None
  }

  /** The regular expression at the start of `s`. */
  function NextPiece(s: string): (r: Option<Piece>)
    ensures r.Some? ==> |r.value.rest| < |s|
  {
    var k := FirstOf(s, "[],");
    if k == 0 then None
    else if k < |s| && s[k] == '[' then
      var inside := s[k + 1..];
      var close := FirstOf(inside, "]");
      if close == 0 || close == |inside| then None
      else match Ended(inside[close + 1..])
        case None => None
        case Some(rest) => Some(Piece(s[..k], Some(inside[..close]), rest))
    else match Ended(s[k..])
      case None => None
      case Some(rest) => Some(Piece(s[..k], None, rest))
  }

  function Numbered(prefix: string, lo: int, hi: int, width: nat): (r: seq<string>)
    ensures |r| == if lo <= hi then hi - lo + 1 else 0
    ensures forall i :: 0 <= i < |r| ==> r[i] == prefix + Padded(lo + i, width)
  {
    seq(if lo <= hi then hi - lo + 1 else 0, i requires 0 <= i => prefix + Padded(lo + i, width))
  }

  /** The hosts of one comma-separated part of the brackets. */
  function PartHosts(read: Reader, prefix: string, text: string): seq<string> {
    TrimmedHosts(read, prefix, Strip(text))
  }

  function TrimmedHosts(read: Reader, prefix: string, part: string): seq<string> {
    var k := FirstOf(part, "-");
    if k == |part| then [prefix + part]
    else
      var lo, hi := read(part[..k]), read(part[k + 1..]);
      if lo.None? || hi.None? then [prefix + part] else Numbered(prefix, lo.value, hi.value, k)
  }

  function PartsHosts(read: Reader, prefix: string, parts: seq<string>): seq<string> {
    if parts == [] then [] else PartHosts(read, prefix, parts[0]) + PartsHosts(read, prefix, parts[1..])
  }

  function PieceHosts(read: Reader, p: Piece): seq<string> {
    match p.ranges
    case None => if Strip(p.prefix) != "" then [Strip(p.prefix)] else []
    case Some(text) => PartsHosts(read, p.prefix, Cut(text, ','))
  }

  function Expanded(read: Reader, s: string): seq<string>
    decreases |s|
  {
    match NextPiece(s)
    case None => []
    case Some(p) => PieceHosts(read, p) + Expanded(read, p.rest)
  }

  lemma {:induction false} FirstDash(a: string, b: string)
    requires '-' !in a
    ensures FirstOf(a + "-" + b, "-") == |a|
  {
    var s := a + "-" + b;
    forall i | 0 <= i < |a| ensures s[i] != '-' { assert a[i] in a; }
    assert s[|a|] == '-';
  }

  /**
   * One part of the brackets: a range whose two ends read as numbers counts from one to the other, each number padded to
   * the width of the first end, and none when the ends are out of order; any other text stands for itself.
   */
  lemma PartMeaning(read: Reader, prefix: string, a: string, b: string)
    requires '-' !in a
    ensures TrimmedHosts(read, prefix, a) == [prefix + a]
    ensures var hosts := TrimmedHosts(read, prefix, a + "-" + b);
      if read(a).Some? && read(b).Some? then
        && |hosts| == (if read(a).value <= read(b).value then read(b).value - read(a).value + 1 else 0)
        && forall i :: 0 <= i < |hosts| ==> hosts[i] == prefix + Padded(read(a).value + i, |a|)
      else hosts == [prefix + (a + "-" + b)]
  {
    FirstDash(a, b);
    var part := a + "-" + b;
    assert part[..|a|] == a && part[|a| + 1..] == b;
    forall i | 0 <= i < |a| ensures a[i] != '-' { assert a[i] in a; }
  }

  lemma NextHosts(read: Reader, nodes: seq<string>, s: string)
    ensures NextPiece(s).None? ==> nodes + Expanded(read, s) == nodes
    ensures NextPiece(s).Some? ==>
      var p := NextPiece(s).value; nodes + Expanded(read, s) == (nodes + PieceHosts(read, p)) + Expanded(read, p.rest)
  {
  }

  lemma NothingLeft(read: Reader)
    ensures Expanded(read, "") == []
  {
    assert FirstOf("", "[],") == 0;
  }

  /** `expand_nodelist`. */
  method ExpandNodelist(read: Reader, nodelist: string) returns (nodes: seq<string>)
    ensures nodes == Expanded(read, nodelist)
  {
    nodes := [];
    NothingLeft(read);
    var remaining := nodelist;
    while remaining != ""
      invariant nodes + Expanded(read, remaining) == Expanded(read, nodelist)
      decreases |remaining|
    {
      NextHosts(read, nodes, remaining);
      var piece := NextPiece(remaining);
      if piece.None? {
        return;
      }
      var hosts := ExpandPiece(read, piece.value);
      nodes := nodes + hosts;
      remaining := piece.value.rest;
    }
  }

  method ExpandPiece(read: Reader, p: Piece) returns (hosts: seq<string>)
    ensures hosts == PieceHosts(read, p)
  {
    hosts := [];
    if p.ranges.Some? {
      hosts := ExpandParts(read, p.prefix, Cut(p.ranges.value, ','));
    } else if Strip(p.prefix) != "" {
      hosts := [Strip(p.prefix)];
    }
  }

  lemma NextPart(read: Reader, prefix: string, nodes: seq<string>, parts: seq<string>, k: nat)
    requires k < |parts|
    ensures nodes + PartsHosts(read, prefix, parts[k..]) ==
      (nodes + PartHosts(read, prefix, parts[k])) + PartsHosts(read, prefix, parts[k + 1..])
  {
    assert parts[k..][0] == parts[k] && parts[k..][1..] == parts[k + 1..];
  }

  method ExpandParts(read: Reader, prefix: string, parts: seq<string>) returns (nodes: seq<string>)
    ensures nodes == PartsHosts(read, prefix, parts)
  {
    nodes := [];
    var k := 0;
    assert parts[0..] == parts;
    while k < |parts|
      invariant k <= |parts| && nodes + PartsHosts(read, prefix, parts[k..]) == PartsHosts(read, prefix, parts)
    {
      NextPart(read, prefix, nodes, parts, k);
      var hosts := ExpandPart(read, prefix, Strip(parts[k]));
      nodes := nodes + hosts;
      k := k + 1;
    }
  }

  method ExpandPart(read: Reader, prefix: string, part: string) returns (nodes: seq<string>)
    ensures nodes == TrimmedHosts(read, prefix, part)
  {
    var dash := FirstOf(part, "-");
    if dash == |part| {
      return [prefix + part];
    }
    var lo, hi := read(part[..dash]), read(part[dash + 1..]);
    if lo.None? || hi.None? {
      return [prefix + part];
    }
    nodes := ExpandRange(prefix, lo.value, hi.value, dash);
  }

  lemma NumberedNext(prefix: string, lo: int, i: int, width: nat)
    requires lo <= i
    ensures Numbered(prefix, lo, i, width) == Numbered(prefix, lo, i - 1, width) + [prefix + Padded(i, width)]
  {
  }

  method ExpandRange(prefix: string, lo: int, hi: int, width: nat) returns (nodes: seq<string>)
    ensures nodes == Numbered(prefix, lo, hi, width)
  {
    nodes := [];
    var i := lo;
    while i <= hi
      invariant lo <= i && (i <= hi + 1 || i == lo) && nodes == Numbered(prefix, lo, i - 1, width)
    {
      NumberedNext(prefix, lo, i, width);
      nodes := nodes + [prefix + Padded(i, width)];
      i := i + 1;
    }
  }

  // ---- rendering, and the round trip ---------------------------------------------------------

  /** One part inside brackets: a fixed ending, or the numbers `lo` to `hi` written with at least `width` digits. */
  datatype Part = Ending(text: string) | Range(lo: nat, hi: nat, width: nat)

  datatype Group = Host(name: string) | Bracketed(prefix: string, parts: seq<Part>)

  function PartText(p: Part): string {
    match p
    case Ending(text) => text
    case Range(lo, hi, width) => Padded(lo, width) + "-" + Padded(hi, width)
  }

  function PartsText(parts: seq<Part>): string {
    if |parts| == 0 then "" else if |parts| == 1 then PartText(parts[0]) else PartText(parts[0]) + "," + PartsText(parts[1..])
  }

  function GroupText(g: Group): string {
    match g
    case Host(name) => name
    case Bracketed(prefix, parts) => prefix + "[" + PartsText(parts) + "]"
  }

  function Rendered(groups: seq<Group>): string {
    if |groups| == 0 then "" else if |groups| == 1 then GroupText(groups[0]) else GroupText(groups[0]) + "," + Rendered(groups[1..])
  }

  function PartNames(prefix: string, p: Part): seq<string> {
    match p
    case Ending(text) => [prefix + text]
    case Range(lo, hi, width) => Numbered(prefix, lo, hi, width)
  }

  function PartsNames(prefix: string, parts: seq<Part>): seq<string> {
    if parts == [] then [] else PartNames(prefix, parts[0]) + PartsNames(prefix, parts[1..])
  }

  function GroupNames(g: Group): seq<string> {
    match g
    case Host(name) => [name]
    case Bracketed(prefix, parts) => PartsNames(prefix, parts)
  }

  /** The hosts a list of groups names. */
  function Names(groups: seq<Group>): seq<string> {
    if groups == [] then [] else GroupNames(groups[0]) + Names(groups[1..])
  }

  predicate Free(s: string, stops: string) {
    forall i :: 0 <= i < |s| ==> s[i] !in stops
  }

  predicate Trimmed(s: string) {
    s != "" && !Space(s[0]) && !Space(s[|s| - 1])
  }

  /** A range is written with the width of its first number. */
  predicate PartOk(p: Part) {
    match p
    case Ending(text) => Trimmed(text) && Free(text, "],-")
    case Range(lo, hi, width) => |Decimal(lo)| <= width
  }

  predicate GroupOk(g: Group) {
    match g
    case Host(name) => Trimmed(name) && Free(name, "[],")
    case Bracketed(prefix, parts) => prefix != "" && Free(prefix, "[],") && parts != [] && forall p :: p in parts ==> PartOk(p)
  }

  lemma {:induction false} FirstOfConcat(a: string, c: char, b: string, stops: string)
    requires Free(a, stops) && c in stops
    ensures FirstOf(a + [c] + b, stops) == |a|
  {
    var s := a + [c] + b;
    assert s[|a|] == c && forall i :: 0 <= i < |a| ==> s[i] == a[i];
  }

  lemma FirstOfFree(a: string, stops: string)
    requires Free(a, stops)
    ensures FirstOf(a, stops) == |a|
  {
  }

  lemma StripTrimmed(s: string)
    requires Trimmed(s)
    ensures Strip(s) == s
  {
  }

  lemma CutAt(a: string, c: char, b: string)
    requires Free(a, [c])
    ensures Cut(a, c) == [a]
    ensures Cut(a + [c] + b, c) == [a] + Cut(b, c)
  {
    FirstOfFree(a, [c]);
    FirstOfConcat(a, c, b, [c]);
    assert (a + [c] + b)[..|a|] == a && (a + [c] + b)[|a| + 1..] == b;
  }

  lemma DigitsArePlain(s: string)
    requires AllDigits(s)
    ensures Trimmed(s) && Free(s, "],-") && Free(s, ",") && Free(s, "]")
  {
  }

  lemma PartPlain(p: Part)
    requires PartOk(p)
    ensures Trimmed(PartText(p)) && Free(PartText(p), ",") && Free(PartText(p), "]")
  {
    match p
    case Ending(text) =>
    case Range(lo, hi, width) =>
      PaddedValue(lo, width);
      PaddedValue(hi, width);
      DigitsArePlain(Padded(lo, width));
      DigitsArePlain(Padded(hi, width));
  }

  lemma PartRead(read: Reader, prefix: string, p: Part)
    requires PartOk(p) && ReadsDecimals(read)
    ensures PartHosts(read, prefix, PartText(p)) == PartNames(prefix, p)
  {
    PartPlain(p);
    StripTrimmed(PartText(p));
    match p
    case Ending(text) => FirstOfFree(text, "-");
    case Range(lo, hi, width) =>
      var a, b := Padded(lo, width), Padded(hi, width);
      PaddedValue(lo, width);
      PaddedValue(hi, width);
      DigitsArePlain(a);
      assert PartText(p) == a + ['-'] + b;
      FirstOfConcat(a, '-', b, "-");
      assert (a + ['-'] + b)[..|a|] == a && (a + ['-'] + b)[|a| + 1..] == b;
      assert |a| == width;
  }

  lemma PartsFree(parts: seq<Part>)
    requires parts != [] && forall p :: p in parts ==> PartOk(p)
    ensures Free(PartsText(parts), "]") && PartsText(parts) != ""
  {
    PartPlain(parts[0]);
    if |parts| > 1 {
      assert forall p :: p in parts[1..] ==> p in parts;
      PartsFree(parts[1..]);
    }
  }

  lemma OnePart(read: Reader, prefix: string, p: Part, text: string, others: seq<string>)
    requires PartHosts(read, prefix, text) == PartNames(prefix, p)
    ensures PartsHosts(read, prefix, [text] + others) == PartNames(prefix, p) + PartsHosts(read, prefix, others)
  {
    assert ([text] + others)[1..] == others;
  }

  lemma {:induction false} PartsRead(read: Reader, prefix: string, parts: seq<Part>)
    requires parts != [] && (forall p :: p in parts ==> PartOk(p)) && ReadsDecimals(read)
    ensures PartsHosts(read, prefix, Cut(PartsText(parts), ',')) == PartsNames(prefix, parts)
  {
    var first, rest := parts[0], parts[1..];
    var text := PartText(first);
    PartPlain(first);
    PartRead(read, prefix, first);
    if rest == [] {
      CutAt(text, ',', "");
      OnePart(read, prefix, first, text, []);
      assert [text] + [] == [text];
    } else {
      assert forall p :: p in rest ==> p in parts;
      PartsRead(read, prefix, rest);
      assert PartsText(parts) == text + [','] + PartsText(rest);
      CutAt(text, ',', PartsText(rest));
      OnePart(read, prefix, first, text, Cut(PartsText(rest), ','));
    }
  }

  /** What an element followed by `tail` parses to; `tail` is empty or starts with the comma. */
  lemma GroupRead(read: Reader, g: Group, tail: string, rest: string)
    requires GroupOk(g) && ReadsDecimals(read) && ((tail == "" && rest == "") || tail == "," + rest)
    ensures NextPiece(GroupText(g) + tail).Some?
    ensures var p := NextPiece(GroupText(g) + tail).value; p.rest == rest && PieceHosts(read, p) == GroupNames(g)
  {
    match g
    case Host(name) =>
      StripTrimmed(name);
      HostPiece(name, tail, rest);
    case Bracketed(prefix, parts) =>
      PartsRead(read, prefix, parts);
      PartsFree(parts);
      TailEnds(tail, rest);
      Regroup(prefix, PartsText(parts), tail);
      BracketPiece(GroupText(g) + tail, PartsText(parts) + [']'] + tail, prefix, PartsText(parts), tail, rest);
  }

  lemma HostPiece(name: string, tail: string, rest: string)
    requires name != "" && Free(name, "[],") && ((tail == "" && rest == "") || tail == "," + rest)
    ensures NextPiece(name + tail) == Some(Piece(name, None, rest))
  {
    var s := name + tail;
    if tail == "" {
      assert s == name;
      FirstOfFree(name, "[],");
      assert s[..|name|] == name && s[|name|..] == "";
    } else {
      assert s == name + [','] + rest;
      FirstOfConcat(name, ',', rest, "[],");
      assert s[..|name|] == name && s[|name|..] == "," + rest && ("," + rest)[1..] == rest;
    }
  }

  lemma BracketsParse(s: string, k: nat, inside: string, close: nat, rest: string)
    requires 0 < k == FirstOf(s, "[],") < |s| && s[k] == '[' && s[k + 1..] == inside
    requires 0 < close == FirstOf(inside, "]") < |inside| && Ended(inside[close + 1..]) == Some(rest)
    ensures NextPiece(s) == Some(Piece(s[..k], Some(inside[..close]), rest))
  {
  }

  lemma Slices(a: string, c: char, b: string)
    ensures (a + [c] + b)[..|a|] == a && (a + [c] + b)[|a|] == c && (a + [c] + b)[|a| + 1..] == b
  {
  }

  lemma TailEnds(tail: string, rest: string)
    requires (tail == "" && rest == "") || tail == "," + rest
    ensures Ended(tail) == Some(rest)
  {
    assert tail != "" ==> tail[0] == ',' && tail[1..] == rest;
  }

  lemma Regroup(prefix: string, text: string, tail: string)
    ensures prefix + "[" + text + "]" + tail == prefix + ['['] + (text + [']'] + tail)
  {
  }

  /** `s` is the prefix, the opening bracket and `inside`; `inside` is the text, the closing bracket and the tail. */
  lemma BracketPiece(s: string, inside: string, prefix: string, text: string, tail: string, rest: string)
    requires prefix != "" && Free(prefix, "[],") && text != "" && Free(text, "]") && Ended(tail) == Some(rest)
    requires s == prefix + ['['] + inside && inside == text + [']'] + tail
    ensures NextPiece(s) == Some(Piece(prefix, Some(text), rest))
  {
    FirstOfConcat(prefix, '[', inside, "[],");
    Slices(prefix, '[', inside);
    FirstOfConcat(text, ']', tail, "]");
    Slices(text, ']', tail);
    BracketsParse(s, |prefix|, inside, |text|, rest);
  }

  /** Expanding a rendered node list gives back exactly the hosts it names, in order and with their zero padding. */
  lemma {:induction false} ExpandRendered(read: Reader, groups: seq<Group>)
    requires ReadsDecimals(read) && forall g :: g in groups ==> GroupOk(g)
    ensures Expanded(read, Rendered(groups)) == Names(groups)
  {
    if groups != [] {
      var first, others := groups[0], groups[1..];
      assert forall g :: g in others ==> g in groups;
      ExpandRendered(read, others);
      if others == [] {
        GroupRead(read, first, "", "");
        assert GroupText(first) + "" == GroupText(first) == Rendered(groups);
        assert Expanded(read, "") == [] && Names(groups) == GroupNames(first) + [];
      } else {
        GroupRead(read, first, "," + Rendered(others), Rendered(others));
        assert GroupText(first) + ("," + Rendered(others)) == Rendered(groups);
      }
    }
  }
}
