/** What a judge slot comes to, and what counts of it, read off disk, answers and results alone. */
module SlotRules {
  import opened Options
  import opened Judging
  import Scoring
  import Search

  type Response = Search.Response

  // ---- what the loop means --------------------------------------------------------------------

  /** What attempt `a` gives: its row on disk, else what its request gives. */
  function AnswerAt(s: Slot, disk: map<nat, Response>, a: nat): Option<Response> {
    if a in disk then Some(disk[a]) else s.ask(a)
  }

  /** The attempt has an answer, and the answer has no score. */
  ghost predicate Invalid(s: Slot, disk: map<nat, Response>, a: nat) {
    AnswerAt(s, disk, a).Some? && s.score(AnswerAt(s, disk, a).value).None?
  }

  /**
   * The result of a slot and what it cost, attempt by attempt from `from` on: the attempts before the last one had answers
   * without score, at most four are made; the last one's score is the result, a parked one gives none; exactly the attempts
   * without a row are requested, in order, and exactly their answers written.
   */
  ghost predicate SlotRule(s: Slot, disk: map<nat, Response>, from: nat, r: Run) {
    var last := r.result.attempts - 1;
    && from <= last <= 3 && r.result.seed == s.slot + last * s.n
    && (forall a :: from <= a < last ==> Invalid(s, disk, a))
    && (r.result.valid <==> AnswerAt(s, disk, last).Some? && s.score(AnswerAt(s, disk, last).value).Some?)
    && r.result.score == (if r.result.valid then s.score(AnswerAt(s, disk, last).value) else None)
    && (last < 3 ==> !Invalid(s, disk, last))
    && (forall a :: a in r.asked <==> from <= a <= last && a !in disk)
    && (forall j, k :: 0 <= j < k < |r.asked| ==> r.asked[j] < r.asked[k])
    && (forall j :: j in r.written <==> j.attempt in r.asked && s.ask(j.attempt) == Some(j.resp))
  }

  lemma RuleReplayed(s: Slot, disk: map<nat, Response>, from: nat)
    requires from < 3 && from in disk && Invalid(s, disk, from) && SlotRule(s, disk, from + 1, From(s, disk, from + 1))
    ensures SlotRule(s, disk, from, From(s, disk, from))
  {
  }

  /** One more request and row in front. */
  lemma RuleAsked(s: Slot, disk: map<nat, Response>, from: nat)
    requires from < 3 && from !in disk && Invalid(s, disk, from) && SlotRule(s, disk, from + 1, From(s, disk, from + 1))
    ensures SlotRule(s, disk, from, From(s, disk, from))
  {
    var rest, j := From(s, disk, from + 1), Judgment(from, s.ask(from).value);
    assert From(s, disk, from) == Run(rest.result, [from] + rest.asked, [j] + rest.written);
    RuleCons(s, disk, from, rest, j);
  }

  lemma RuleCons(s: Slot, disk: map<nat, Response>, from: nat, rest: Run, j: Judgment)
    requires from < 3 && from !in disk && Invalid(s, disk, from) && SlotRule(s, disk, from + 1, rest)
    requires s.ask(from) == Some(j.resp) && j.attempt == from
    ensures SlotRule(s, disk, from, Run(rest.result, [from] + rest.asked, [j] + rest.written))
  {
    var asked, written := [from] + rest.asked, [j] + rest.written;
    assert forall a :: a in asked <==> a == from || a in rest.asked;
    forall x ensures x in written <==> x.attempt in asked && s.ask(x.attempt) == Some(x.resp) {
      assert x in written <==> x == j || x in rest.written;
      assert x.attempt == from && s.ask(x.attempt) == Some(x.resp) ==> x == j;
    }
    forall m, k | 0 <= m < k < |asked| ensures asked[m] < asked[k] {
      assert asked[k] == rest.asked[k - 1] && rest.asked[k - 1] in rest.asked;
      if m > 0 { assert asked[m] == rest.asked[m - 1]; }
    }
  }

  /** The fourth attempt has an answer without score. */
  lemma RuleGivesUp(s: Slot, disk: map<nat, Response>)
    requires Invalid(s, disk, 3)
    ensures SlotRule(s, disk, 3, From(s, disk, 3))
  {
    var none := Run(SlotResult(4, None, false, Seed(s, 3)), [], []);
    assert From(s, disk, 4) == none;
    if 3 !in disk {
      assert From(s, disk, 3) == Run(none.result, [3] + [], [Judgment(3, s.ask(3).value)] + []);
    }
  }

  lemma RuleFound(s: Slot, disk: map<nat, Response>, from: nat)
    requires from <= 3 && from in disk && s.score(disk[from]).Some?
    ensures SlotRule(s, disk, from, From(s, disk, from))
  {
    assert From(s, disk, from) == Run(SlotResult(from + 1, s.score(disk[from]), true, Seed(s, from)), [], []);
  }

  lemma RuleParked(s: Slot, disk: map<nat, Response>, from: nat)
    requires from <= 3 && from !in disk && s.ask(from).None?
    ensures SlotRule(s, disk, from, From(s, disk, from))
  {
    assert From(s, disk, from) == Run(SlotResult(from + 1, None, false, Seed(s, from)), [from], []);
  }

  lemma RuleScored(s: Slot, disk: map<nat, Response>, from: nat)
    requires from <= 3 && from !in disk && s.ask(from).Some? && s.score(s.ask(from).value).Some?
    ensures SlotRule(s, disk, from, From(s, disk, from))
  {
    var resp := s.ask(from).value;
    assert From(s, disk, from) == Run(SlotResult(from + 1, s.score(resp), true, Seed(s, from)), [from], [Judgment(from, resp)]);
  }

  /** The attempt decides. */
  lemma RuleEnds(s: Slot, disk: map<nat, Response>, from: nat)
    requires from <= 3 && !Invalid(s, disk, from)
    ensures SlotRule(s, disk, from, From(s, disk, from))
  {
    if from in disk {
      RuleFound(s, disk, from);
    } else if s.ask(from).None? {
      RuleParked(s, disk, from);
    } else {
      RuleScored(s, disk, from);
    }
  }

  lemma {:induction false} FromMeaning(s: Slot, disk: map<nat, Response>, from: nat)
    requires from <= 3
    ensures SlotRule(s, disk, from, From(s, disk, from))
    decreases 3 - from
  {
    if from < 3 && Invalid(s, disk, from) {
      FromMeaning(s, disk, from + 1);
      if from in disk { RuleReplayed(s, disk, from); } else { RuleAsked(s, disk, from); }
    } else if from == 3 && Invalid(s, disk, 3) {
      RuleGivesUp(s, disk);
    } else {
      RuleEnds(s, disk, from);
    }
  }

  /** What one slot comes to, read off the disk and the answers alone. */
  lemma SlotMeaning(s: Slot, disk: map<nat, Response>)
    ensures SlotRule(s, disk, 0, Judge(s, disk))
  {
    FromMeaning(s, disk, 0);
  }

  // ---- what counts of a judge's slots ---------------------------------------------------------

  /** A row's scores, one for every valid slot, and their total. */
  function RowTotal(row: seq<SlotResult>): real {
    if row == [] then 0.0 else (if row[0].valid && row[0].score.Some? then row[0].score.value else 0.0) + RowTotal(row[1..])
  }

  ghost function ValidPlaces(row: seq<SlotResult>): set<int> {
    set k | 0 <= k < |row| && row[k].valid && row[k].score.Some?
  }

  lemma {:induction false} ShiftPlaces(row: seq<SlotResult>)
    requires row != []
    ensures |ValidPlaces(row)| == |ValidPlaces(row[1..])| + (if row[0].valid && row[0].score.Some? then 1 else 0)
  {
    var n := |row| - 1;
    if n > 0 {
      ShiftPlaces(row[..n]);
      assert row[..n][1..] == row[1..][..n - 1];
      LastPlace(row);
      LastPlace(row[1..]);
    } else {
      LastPlace(row);
      assert row[..n] == [] && ValidPlaces([]) == {} && row[1..] == [];
    }
  }

  lemma LastPlace(row: seq<SlotResult>)
    requires row != []
    ensures var n := |row| - 1;
      |ValidPlaces(row)| == |ValidPlaces(row[..n])| + (if row[n].valid && row[n].score.Some? then 1 else 0)
  {
    var n := |row| - 1;
    assert n !in ValidPlaces(row[..n]);
    assert ValidPlaces(row) == if row[n].valid && row[n].score.Some? then ValidPlaces(row[..n]) + {n} else ValidPlaces(row[..n]);
  }

  /** The scores of a judge's row are as many as it has valid slots, and add up to their total. */
  lemma {:induction false} RowScoresMeaning(row: seq<SlotResult>)
    ensures |RowScores(row)| == |ValidPlaces(row)| && Scoring.Sum(RowScores(row)) == RowTotal(row)
  {
    if row == [] {
      assert ValidPlaces(row) == {};
    } else {
      RowScoresMeaning(row[1..]);
      ShiftPlaces(row);
      Scoring.SumAppend(ScoreOf(row[0]), RowScores(row[1..]));
    }
  }

  ghost function ResampledPlaces(slots: seq<Tagged>): set<int> {
    set k | 0 <= k < |slots| && slots[k].result.attempts >= 2
  }

  lemma LastResampled(slots: seq<Tagged>)
    requires slots != []
    ensures var n := |slots| - 1;
      |ResampledPlaces(slots)| == |ResampledPlaces(slots[..n])| + (if slots[n].result.attempts >= 2 then 1 else 0)
  {
    var n := |slots| - 1;
    assert n !in ResampledPlaces(slots[..n]);
    assert ResampledPlaces(slots) == if slots[n].result.attempts >= 2 then ResampledPlaces(slots[..n]) + {n} else ResampledPlaces(slots[..n]);
  }

  lemma {:induction false} FirstResampled(slots: seq<Tagged>)
    requires slots != []
    ensures |ResampledPlaces(slots)| == |ResampledPlaces(slots[1..])| + (if slots[0].result.attempts >= 2 then 1 else 0)
  {
    var n := |slots| - 1;
    if n > 0 {
      FirstResampled(slots[..n]);
      assert slots[..n][1..] == slots[1..][..n - 1];
      LastResampled(slots);
      LastResampled(slots[1..]);
    } else {
      LastResampled(slots);
      assert slots[..n] == [] && ResampledPlaces([]) == {} && slots[1..] == [];
    }
  }

  /** A slot counts as resampled when it took two attempts or more. */
  lemma {:induction false} ResampledMeaning(slots: seq<Tagged>)
    ensures Resampled(slots) == |ResampledPlaces(slots)|
  {
    if slots == [] {
      assert ResampledPlaces(slots) == {};
    } else {
      ResampledMeaning(slots[1..]);
      FirstResampled(slots);
    }
  }
}
