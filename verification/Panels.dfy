/** What a concluded panel says, read off the seats themselves. */
module Panels {
  import opened Options
  import opened Search
  import opened Text
  import CritiqueGuarantees
  import Critiques
  import Scoring

  /** Every verifier gave exactly `judgments` judgments, all of them valid. */
  ghost predicate FullScores(scores: seq<seq<Option<real>>>, judgments: nat) {
    forall a :: 0 <= a < |scores| ==> |scores[a]| == judgments && forall b :: 0 <= b < |scores[a]| ==> scores[a][b].Some?
  }

  ghost predicate AllOnes(scores: seq<seq<Option<real>>>, judgments: nat) {
    forall a :: 0 <= a < |scores| ==> |scores[a]| == judgments && forall b :: 0 <= b < |scores[a]| ==> scores[a][b].Some? && scores[a][b].value == 1.0
  }

  ghost predicate Votes(cfg: Config, seat: Seat, score: real) {
    seat.Got? && cfg.parseVote(seat.resp).Some? && cfg.parseVote(seat.resp).value == score
  }

  ghost predicate Scored(cfg: Config, seat: Seat) {
    seat.Got? && cfg.parseVote(seat.resp).Some?
  }

  lemma {:induction false} ValidCounts(v: seq<Option<real>>)
    ensures |Scoring.Valid(v)| <= |v|
    ensures |Scoring.Valid(v)| == |v| <==> forall b :: 0 <= b < |v| ==> v[b].Some?
    ensures forall x :: x in Scoring.Valid(v) <==> Some(x) in v
  {
    if v != [] {
      ValidCounts(v[1..]);
      assert v == [v[0]] + v[1..];
      assert Scoring.Valid(v) == (if v[0].Some? then [v[0].value] else []) + Scoring.Valid(v[1..]);
    }
  }

  lemma {:induction false} AllValidMembers(panel: seq<seq<Option<real>>>)
    ensures forall x :: x in Scoring.AllValid(panel) <==> exists a :: 0 <= a < |panel| && Some(x) in panel[a]
  {
    if panel != [] {
      var rest := panel[1..];
      AllValidMembers(rest);
      ValidCounts(panel[0]);
      forall x ensures x in Scoring.AllValid(panel) <==> exists a :: 0 <= a < |panel| && Some(x) in panel[a] {
        if x in Scoring.AllValid(rest) {
          var a :| 0 <= a < |rest| && Some(x) in rest[a];
          assert Some(x) in panel[a + 1];
        }
        if a :| 0 <= a < |panel| && Some(x) in panel[a] {
          if a > 0 { assert Some(x) in rest[a - 1]; }
        }
      }
    }
  }

  lemma CompleteIsFull(panel: seq<seq<Option<real>>>, judgments: nat)
    requires forall a :: 0 <= a < |panel| ==> |panel[a]| <= judgments
    ensures Scoring.Complete(panel, judgments, false) <==> FullScores(panel, judgments)
  {
    forall a | 0 <= a < |panel|
      ensures |Scoring.Valid(panel[a])| == judgments <==> |panel[a]| == judgments && forall b :: 0 <= b < |panel[a]| ==> panel[a][b].Some?
    {
      ValidCounts(panel[a]);
    }
    if FullScores(panel, judgments) {
      forall v | v in panel ensures |Scoring.Valid(v)| == judgments {
        var a :| 0 <= a < |panel| && panel[a] == v;
      }
    } else {
      var a :| 0 <= a < |panel| && !(|panel[a]| == judgments && forall b :: 0 <= b < |panel[a]| ==> panel[a][b].Some?);
      assert panel[a] in panel;
    }
  }

  ghost predicate OnlyOnes(xs: seq<real>) {
    forall x :: x in xs ==> x == 1.0
  }

  lemma OnesAreFullOnes(panel: seq<seq<Option<real>>>, judgments: nat)
    ensures AllOnes(panel, judgments) <==> FullScores(panel, judgments) && OnlyOnes(Scoring.AllValid(panel))
  {
    AllValidMembers(panel);
    if AllOnes(panel, judgments) {
      forall x | x in Scoring.AllValid(panel) ensures x == 1.0 {
        var a :| 0 <= a < |panel| && Some(x) in panel[a];
        var b :| 0 <= b < |panel[a]| && panel[a][b] == Some(x);
      }
    }
    if FullScores(panel, judgments) && OnlyOnes(Scoring.AllValid(panel)) {
      forall a, b | 0 <= a < |panel| && 0 <= b < |panel[a]| ensures panel[a][b].value == 1.0 {
        var x := panel[a][b].value;
        assert panel[a][b] == Some(x) && Some(x) in panel[a];
        assert x in Scoring.AllValid(panel);
      }
    }
  }

  /** A verdict of at most `judgments` scores per verifier: complete means full, accepted means full of ones. */
  lemma VerdictMeaning(panel: seq<seq<Option<real>>>, judgments: nat)
    requires panel != [] && judgments > 0 && forall a :: 0 <= a < |panel| ==> |panel[a]| <= judgments
    ensures Scoring.Verdict(panel, judgments, false).complete <==> FullScores(panel, judgments)
    ensures Scoring.Verdict(panel, judgments, false).accepted <==> AllOnes(panel, judgments)
    ensures !Scoring.Verdict(panel, judgments, true).complete && !Scoring.Verdict(panel, judgments, true).accepted
  {
    CompleteIsFull(panel, judgments);
    OnesAreFullOnes(panel, judgments);
    if FullScores(panel, judgments) {
      var v := Scoring.Verdict(panel, judgments, false);
      assert v.accepted <==> OnlyOnes(v.validScores);
    }
  }

  lemma {:induction false} RowMeaning(cfg: Config, row: seq<Seat>)
    ensures |RowScores(cfg, row)| <= |row|
    ensures |RowScores(cfg, row)| == |row| <==> forall b :: 0 <= b < |row| ==> row[b].Got?
    ensures |RowScores(cfg, row)| == |row| ==> forall b :: 0 <= b < |row| ==> RowScores(cfg, row)[b] == cfg.parseVote(row[b].resp)
  {
    if row != [] {
      RowMeaning(cfg, row[1..]);
      assert row == [row[0]] + row[1..];
    }
  }

  lemma {:induction false} RowsMeaning(cfg: Config, seats: seq<seq<Seat>>)
    requires Shaped(cfg, seats)
    ensures forall a :: 0 <= a < |seats| ==> |PanelScores(cfg, seats)[a]| <= cfg.judgments
    ensures FullScores(PanelScores(cfg, seats), cfg.judgments) <==> (forall a: nat, b: nat :: InPanel(cfg, a, b) ==> Scored(cfg, seats[a][b]))
    ensures AllOnes(PanelScores(cfg, seats), cfg.judgments) <==> (forall a: nat, b: nat :: InPanel(cfg, a, b) ==> Votes(cfg, seats[a][b], 1.0))
    ensures FullScores(PanelScores(cfg, seats), cfg.judgments) ==>
      forall a: nat, b: nat :: InPanel(cfg, a, b) ==> PanelScores(cfg, seats)[a][b] == cfg.parseVote(seats[a][b].resp)
  {
    var scores := PanelScores(cfg, seats);
    forall a | 0 <= a < |seats|
      ensures |scores[a]| <= cfg.judgments
      ensures |scores[a]| == cfg.judgments <==> forall b :: 0 <= b < cfg.judgments ==> seats[a][b].Got?
      ensures |scores[a]| == cfg.judgments ==> forall b :: 0 <= b < cfg.judgments ==> scores[a][b] == cfg.parseVote(seats[a][b].resp)
    {
      RowMeaning(cfg, seats[a]);
    }
    if forall a: nat, b: nat :: InPanel(cfg, a, b) ==> Scored(cfg, seats[a][b]) {
      forall a | 0 <= a < |scores| ensures |scores[a]| == cfg.judgments && forall b :: 0 <= b < |scores[a]| ==> scores[a][b].Some? {
        assert forall b: nat :: b < cfg.judgments ==> InPanel(cfg, a, b);
      }
    }
    if forall a: nat, b: nat :: InPanel(cfg, a, b) ==> Votes(cfg, seats[a][b], 1.0) {
      forall a | 0 <= a < |scores| ensures |scores[a]| == cfg.judgments && forall b :: 0 <= b < |scores[a]| ==> scores[a][b].Some? && scores[a][b].value == 1.0 {
        assert forall b: nat :: b < cfg.judgments ==> InPanel(cfg, a, b);
      }
    }
  }

  /**
   * The verdict of a concluded panel: complete exactly when every seat holds a response with a score,
   * accepted exactly when every seat holds a response scored 1, and then each score stands at its seat.
   */
  lemma JudgedMeaning(cfg: Config, rec: Record, seats: seq<seq<Seat>>)
    requires Shaped(cfg, seats) && |cfg.verifiers| > 0 && cfg.judgments > 0
    ensures var r := Judged(cfg, rec, seats);
      && r.scores == PanelScores(cfg, seats)
      && (r.verdict.value.complete <==> forall a: nat, b: nat :: InPanel(cfg, a, b) ==> Scored(cfg, seats[a][b]))
      && (r.verdict.value.accepted <==> forall a: nat, b: nat :: InPanel(cfg, a, b) ==> Votes(cfg, seats[a][b], 1.0))
      && (r.verdict.value.complete <==> FullScores(r.scores, cfg.judgments))
      && (r.verdict.value.accepted <==> AllOnes(r.scores, cfg.judgments))
  {
    RowsMeaning(cfg, seats);
    VerdictMeaning(PanelScores(cfg, seats), cfg.judgments);
  }

  // ---- means ---------------------------------------------------------------------------------

  /** What one seat adds to the total: its score, nothing without one. */
  function VoteOf(cfg: Config, seat: Seat): real {
    if seat.Got? && cfg.parseVote(seat.resp).Some? then cfg.parseVote(seat.resp).value else 0.0
  }

  function RowTotal(cfg: Config, row: seq<Seat>): real {
    if row == [] then 0.0 else VoteOf(cfg, row[0]) + RowTotal(cfg, row[1..])
  }

  function PanelTotal(cfg: Config, seats: seq<seq<Seat>>): real {
    if seats == [] then 0.0 else RowTotal(cfg, seats[0]) + PanelTotal(cfg, seats[1..])
  }

  lemma {:induction false} RowSum(cfg: Config, row: seq<Seat>)
    ensures Scoring.Sum(Scoring.Valid(RowScores(cfg, row))) == RowTotal(cfg, row)
  {
    if row != [] {
      RowSum(cfg, row[1..]);
      if row[0].Got? {
        var score, rest := cfg.parseVote(row[0].resp), RowScores(cfg, row[1..]);
        assert RowScores(cfg, row) == [score] + rest && ([score] + rest)[1..] == rest;
        Scoring.SumAppend(if score.Some? then [score.value] else [], Scoring.Valid(rest));
      } else {
        assert RowScores(cfg, row) == RowScores(cfg, row[1..]);
      }
    }
  }

  lemma {:induction false} PanelSum(cfg: Config, seats: seq<seq<Seat>>)
    ensures Scoring.Sum(Scoring.AllValid(PanelScores(cfg, seats))) == PanelTotal(cfg, seats)
  {
    if seats != [] {
      var scores := PanelScores(cfg, seats);
      PanelSum(cfg, seats[1..]);
      RowSum(cfg, seats[0]);
      assert scores[1..] == PanelScores(cfg, seats[1..]);
      Scoring.SumAppend(Scoring.Valid(scores[0]), Scoring.AllValid(scores[1..]));
    }
  }

  lemma {:induction false} MeanAt(panel: seq<seq<Option<real>>>, a: nat)
    requires a < |panel| && forall v :: v in panel ==> Scoring.Valid(v) != []
    ensures Scoring.Means(panel)[a] == Scoring.Mean(Scoring.Valid(panel[a]))
  {
    if a > 0 {
      assert forall v :: v in panel[1..] ==> v in panel;
      MeanAt(panel[1..], a - 1);
    }
  }

  /**
   * The means of a concluded panel: a complete one has the total of its votes over their number, and each verifier's own,
   * and its valid scores are as many as its seats and add up to that total; any other has zeros.
   */
  lemma JudgedMean(cfg: Config, rec: Record, seats: seq<seq<Seat>>)
    requires Shaped(cfg, seats) && |cfg.verifiers| > 0 && cfg.judgments > 0
    ensures var v := Judged(cfg, rec, seats).verdict.value;
      && |v.verifierMeans| == |cfg.verifiers|
      && (v.complete ==> v.mean == PanelTotal(cfg, seats) / (|cfg.verifiers| * cfg.judgments) as real)
      && (v.complete ==> forall a :: 0 <= a < |seats| ==> v.verifierMeans[a] == RowTotal(cfg, seats[a]) / cfg.judgments as real)
      && (v.complete ==> |v.validScores| == |cfg.verifiers| * cfg.judgments && Scoring.Sum(v.validScores) == PanelTotal(cfg, seats))
      && (!v.complete ==> v.mean == 0.0 && v.validScores == [] && forall a :: 0 <= a < |seats| ==> v.verifierMeans[a] == 0.0)
  {
    if Judged(cfg, rec, seats).verdict.value.complete {
      CompleteMean(cfg, seats);
      forall a | 0 <= a < |seats|
        ensures Judged(cfg, rec, seats).verdict.value.verifierMeans[a] == RowTotal(cfg, seats[a]) / cfg.judgments as real
      {
        CompleteRowMean(cfg, seats, a);
      }
    }
  }

  lemma CompleteMean(cfg: Config, seats: seq<seq<Seat>>)
    requires Shaped(cfg, seats) && |cfg.verifiers| > 0 && cfg.judgments > 0
    requires Scoring.Verdict(PanelScores(cfg, seats), cfg.judgments, false).complete
    ensures var v := Scoring.Verdict(PanelScores(cfg, seats), cfg.judgments, false);
      && v.mean == PanelTotal(cfg, seats) / (|cfg.verifiers| * cfg.judgments) as real
      && |v.validScores| == |cfg.verifiers| * cfg.judgments && Scoring.Sum(v.validScores) == PanelTotal(cfg, seats)
  {
    var panel, n := PanelScores(cfg, seats), |cfg.verifiers| * cfg.judgments;
    Scoring.MeanOfMeansIsFlatMean(panel, cfg.judgments, false);
    PanelSum(cfg, seats);
    assert |Scoring.AllValid(panel)| == n;
  }

  lemma CompleteRowMean(cfg: Config, seats: seq<seq<Seat>>, a: nat)
    requires Shaped(cfg, seats) && |cfg.verifiers| > 0 && cfg.judgments > 0 && a < |seats|
    requires Scoring.Verdict(PanelScores(cfg, seats), cfg.judgments, false).complete
    ensures var means := Scoring.Verdict(PanelScores(cfg, seats), cfg.judgments, false).verifierMeans;
      |means| == |cfg.verifiers| && means[a] == RowTotal(cfg, seats[a]) / cfg.judgments as real
  {
    var panel := PanelScores(cfg, seats);
    assert panel[a] in panel;
    MeanAt(panel, a);
    RowSum(cfg, seats[a]);
  }

  // ---- critiques -----------------------------------------------------------------------------

  /** The critique of a verifier's seat, if the row from seed `slot` on has that seat and it is scored. */
  ghost predicate InRow(cfg: Config, verifier: string, row: seq<Seat>, slot: nat, c: Critiques.Critique) {
    && c.verifier == verifier && slot <= c.seed < slot + |row| && row[c.seed - slot].Got?
    && cfg.parseVote(row[c.seed - slot].resp) == Some(c.score) && c.rating == StripThink(row[c.seed - slot].resp.text)
  }

  /** The critique of judgment `b` of verifier `a`. */
  ghost predicate FromSeat(cfg: Config, seats: seq<seq<Seat>>, a: nat, b: nat, c: Critiques.Critique) {
    && a < |seats| && a < |cfg.verifiers| && b < |seats[a]| && seats[a][b].Got?
    && c.verifier == cfg.verifiers[a] && c.seed == b
    && cfg.parseVote(seats[a][b].resp) == Some(c.score) && c.rating == StripThink(seats[a][b].resp.text)
  }

  lemma RowCandidatesCons(cfg: Config, verifier: string, row: seq<Seat>, slot: nat) returns (head: seq<Critiques.Critique>)
    requires row != []
    ensures RowCandidates(cfg, verifier, row, slot) == head + RowCandidates(cfg, verifier, row[1..], slot + 1) && |head| <= 1
    ensures head != [] <==> Scored(cfg, row[0])
    ensures head != [] ==> InRow(cfg, verifier, row, slot, head[0]) && head[0].seed == slot
    ensures forall c :: InRow(cfg, verifier, row, slot, c) <==> c in head || InRow(cfg, verifier, row[1..], slot + 1, c)
  {
    head := if Scored(cfg, row[0]) then [Critiques.Critique(StripThink(row[0].resp.text), cfg.parseVote(row[0].resp).value, verifier, slot)] else [];
  }

  lemma {:induction false} RowMembers(cfg: Config, verifier: string, row: seq<Seat>, slot: nat)
    ensures forall c :: c in RowCandidates(cfg, verifier, row, slot) <==> InRow(cfg, verifier, row, slot, c)
  {
    if row != [] {
      var head := RowCandidatesCons(cfg, verifier, row, slot);
      RowMembers(cfg, verifier, row[1..], slot + 1);
    }
  }

  lemma {:induction false} RowDistinct(cfg: Config, verifier: string, row: seq<Seat>, slot: nat)
    ensures CritiqueGuarantees.DistinctVotes(RowCandidates(cfg, verifier, row, slot))
  {
    if row != [] {
      var head := RowCandidatesCons(cfg, verifier, row, slot);
      RowMembers(cfg, verifier, row[1..], slot + 1);
      RowDistinct(cfg, verifier, row[1..], slot + 1);
      JoinDistinct(head, RowCandidates(cfg, verifier, row[1..], slot + 1));
    }
  }

  lemma JoinDistinct(a: seq<Critiques.Critique>, b: seq<Critiques.Critique>)
    requires CritiqueGuarantees.DistinctVotes(a) && CritiqueGuarantees.DistinctVotes(b)
    requires forall c, d :: c in a && d in b ==> c.verifier != d.verifier || c.seed != d.seed
    ensures CritiqueGuarantees.DistinctVotes(a + b)
  {
    forall i, j | 0 <= i < j < |a + b|
      ensures (a + b)[i].verifier != (a + b)[j].verifier || (a + b)[i].seed != (a + b)[j].seed
    {
      if i < |a| <= j { assert (a + b)[i] in a && (a + b)[j] in b; }
    }
  }

  /** The candidates are the critiques of the scored seats, one each. */
  lemma {:induction false} CandidatesFromSeats(cfg: Config, seats: seq<seq<Seat>>, a: nat)
    requires a <= |seats| == |cfg.verifiers|
    ensures forall c :: c in Candidates(cfg, seats, a) <==> exists w :: a <= w < |seats| && InRow(cfg, cfg.verifiers[w], seats[w], 0, c)
    ensures NoDup(cfg.verifiers) ==> CritiqueGuarantees.DistinctVotes(Candidates(cfg, seats, a))
    decreases |seats| - a
  {
    if a < |seats| {
      CandidatesFromSeats(cfg, seats, a + 1);
      RowMembers(cfg, cfg.verifiers[a], seats[a], 0);
      RowDistinct(cfg, cfg.verifiers[a], seats[a], 0);
      if NoDup(cfg.verifiers) {
        JoinDistinct(RowCandidates(cfg, cfg.verifiers[a], seats[a], 0), Candidates(cfg, seats, a + 1));
      }
    }
  }

  /**
   * The critiques of a concluded panel: none unless every seat is scored; then each is that of a seat, with the seat's
   * verifier, seed and score and the text behind the reasoning prefix; and up to four verifiers are all heard.
   */
  lemma JudgedCritiques(cfg: Config, rec: Record, seats: seq<seq<Seat>>)
    requires Shaped(cfg, seats) && |cfg.verifiers| > 0 && cfg.judgments > 0 && NoDup(cfg.verifiers)
    ensures var r, full := Judged(cfg, rec, seats), forall a: nat, b: nat :: InPanel(cfg, a, b) ==> Scored(cfg, seats[a][b]);
      && (!full ==> r.critiques == [])
      && (forall c :: c in r.critiques ==> exists a: nat, b: nat :: FromSeat(cfg, seats, a, b, c))
      && (full && |cfg.verifiers| <= 4 ==> forall v :: v in cfg.verifiers ==> exists c :: c in r.critiques && c.verifier == v)
  {
    JudgedMeaning(cfg, rec, seats);
    var r := Judged(cfg, rec, seats);
    if r.verdict.value.complete {
      var candidates := Candidates(cfg, seats, 0);
      CandidatesFromSeats(cfg, seats, 0);
      SeatGivesCandidate(cfg, seats, 0, 0);
      var each := CritiqueGuarantees.WithinLimit(candidates, cfg.verifiers);
      forall c | c in r.critiques ensures exists a: nat, b: nat :: FromSeat(cfg, seats, a, b, c) {
        var a :| 0 <= a < |seats| && InRow(cfg, cfg.verifiers[a], seats[a], 0, c);
        assert FromSeat(cfg, seats, a, c.seed, c);
      }
      if |cfg.verifiers| <= 4 {
        forall v | v in cfg.verifiers ensures exists c :: c in candidates && c.verifier == v {
          var a :| 0 <= a < |cfg.verifiers| && cfg.verifiers[a] == v;
          SeatGivesCandidate(cfg, seats, a, 0);
        }
        CritiqueGuarantees.EveryVerifierHeard(candidates, cfg.verifiers);
      }
    }
  }

  lemma SeatGivesCandidate(cfg: Config, seats: seq<seq<Seat>>, a: nat, b: nat)
    requires Shaped(cfg, seats) && InPanel(cfg, a, b) && Scored(cfg, seats[a][b])
    ensures exists c :: c in Candidates(cfg, seats, 0) && c.verifier == cfg.verifiers[a] && c.seed == b
  {
    CandidatesFromSeats(cfg, seats, 0);
    var c := Critiques.Critique(StripThink(seats[a][b].resp.text), cfg.parseVote(seats[a][b].resp).value, cfg.verifiers[a], b);
    assert InRow(cfg, cfg.verifiers[a], seats[a], 0, c);
  }
}
