/** The critiques' trip through a pool record (orchestrator.py): grouped by printed score, flattened for the prompt. */
module PoolRecord {
  import opened Options
  import opened Critiques
  import opened CritiqueGuarantees
  import Sorting

  /** `str(score)` for the three scores a verifier can give. */
  function ScoreText(s: real): string {
    if s == 0.0 then "0.0" else if s == 0.5 then "0.5" else "1.0"
  }

  /** The text is the score in decimal notation with one place. */
  lemma ScoreTextReads(s: real)
    requires PanelScore(s)
    ensures var t := ScoreText(s);
      |t| == 3 && '0' <= t[0] <= '9' && t[1] == '.' && '0' <= t[2] <= '9' &&
      (t[0] as int - '0' as int) as real + (t[2] as int - '0' as int) as real / 10.0 == s
  {
  }

  predicate PanelScore(s: real) {
    s == 0.0 || s == 0.5 || s == 1.0
  }

  /** Dictionary entries in insertion order. */
  datatype Group = Group(key: string, members: seq<Critique>)

  function Grouped(critiques: seq<Critique>): seq<Group> {
    if critiques == [] then []
    else AddToGroup(Grouped(critiques[..|critiques| - 1]), ScoreText(critiques[|critiques| - 1].score), critiques[|critiques| - 1])
  }

  /** `setdefault(key, []).append(c)`. */
  function AddToGroup(groups: seq<Group>, key: string, c: Critique): seq<Group> {
    if groups == [] then [Group(key, [c])]
    else if groups[0].key == key then [Group(key, groups[0].members + [c])] + groups[1..]
    else [groups[0]] + AddToGroup(groups[1..], key, c)
  }

  /** The loop of `pool_record`. */
  method GroupByScore(critiques: seq<Critique>) returns (groups: seq<Group>)
    ensures groups == Grouped(critiques)
  {
    groups := [];
    for i := 0 to |critiques|
      invariant groups == Grouped(critiques[..i])
    {
      assert critiques[..i + 1][..i] == critiques[..i];
      groups := AddToGroup(groups, ScoreText(critiques[i].score), critiques[i]);
    }
    assert critiques[..|critiques|] == critiques;
  }

  /** Strings compare character by character. */
  predicate TextBefore(a: string, b: string) {
    if b == "" then false
    else if a == "" then true
    else a[0] < b[0] || (a[0] == b[0] && TextBefore(a[1..], b[1..]))
  }

  function Flatten(groups: seq<Group>): seq<Critique> {
    if groups == [] then [] else Flatten(groups[..|groups| - 1]) + groups[|groups| - 1].members
  }

  /** The refinement prompt's critique list: groups in sorted key order, members in order. */
  function PromptCritiques(groups: seq<Group>): seq<Critique> {
    Flatten(Sorting.Sort((a: Group, b: Group) => TextBefore(a.key, b.key), groups))
  }

  lemma ScoreTextOrder(s: real, t: real)
    requires PanelScore(s) && PanelScore(t)
    ensures TextBefore(ScoreText(s), ScoreText(t)) <==> s < t
    ensures ScoreText(s) == ScoreText(t) <==> s == t
  {
    var a, b := ScoreText(s), ScoreText(t);
    assert a[1..] == [a[1], a[2]] && b[1..] == [b[1], b[2]];
    assert a[1..][1..] == [a[2]] && b[1..][1..] == [b[2]];
    assert TextBefore(a[1..][1..], b[1..][1..]) <==> a[2] < b[2];
    assert TextBefore(a[1..], b[1..]) <==> a[1] < b[1] || (a[1] == b[1] && a[2] < b[2]);
  }

  /** The score a group stands for. */
  function Lead(g: Group): real {
    if g.members == [] then 0.0 else g.members[0].score
  }

  ghost predicate GroupOk(g: Group) {
    g.members != [] && g.key == ScoreText(Lead(g)) && PanelScore(Lead(g))
  }

  /** Groups in strictly increasing score order, each keyed by its score. */
  ghost predicate Tidy(groups: seq<Group>) {
    && (forall i :: 0 <= i < |groups| ==> GroupOk(groups[i]))
    && (forall i, j :: 0 <= i < j < |groups| ==> Lead(groups[i]) < Lead(groups[j]))
  }

  ghost predicate ByScore(critiques: seq<Critique>) {
    && (forall c :: c in critiques ==> PanelScore(c.score))
    && (forall i, j :: 0 <= i < j < |critiques| ==> critiques[i].score <= critiques[j].score)
  }

  lemma {:induction false} AddAtEnd(groups: seq<Group>, key: string, c: Critique)
    requires groups != [] && forall i :: 0 <= i < |groups| - 1 ==> groups[i].key != key
    ensures var last := groups[|groups| - 1];
      AddToGroup(groups, key, c) ==
        if last.key == key then groups[..|groups| - 1] + [Group(key, last.members + [c])] else groups + [Group(key, [c])]
  {
    if |groups| > 1 {
      AddAtEnd(groups[1..], key, c);
      assert groups == [groups[0]] + groups[1..];
      assert groups[..|groups| - 1] == [groups[0]] + groups[1..][..|groups| - 2];
    } else {
      assert groups == [groups[0]];
    }
  }

  lemma FlattenAppend(groups: seq<Group>, g: Group)
    ensures Flatten(groups + [g]) == Flatten(groups) + g.members
  {
    assert (groups + [g])[..|groups|] == groups;
  }

  lemma TidyAppend(groups: seq<Group>, g: Group)
    requires Tidy(groups) && GroupOk(g) && (groups == [] || Lead(groups[|groups| - 1]) < Lead(g))
    ensures Tidy(groups + [g])
  {
    var all := groups + [g];
    forall i, j | 0 <= i < j < |all| ensures Lead(all[i]) < Lead(all[j]) {
      if j == |groups| && i < |groups| - 1 {
        assert Lead(groups[i]) < Lead(groups[|groups| - 1]);
      }
    }
  }

  lemma TidyFront(front: seq<Group>, last: Group)
    requires Tidy(front + [last])
    ensures Tidy(front) && GroupOk(last)
    ensures forall i :: 0 <= i < |front| ==> Lead(front[i]) < Lead(last) && front[i].key != last.key
  {
    var groups := front + [last];
    assert groups[|front|] == last && GroupOk(groups[|front|]);
    forall i | 0 <= i < |front| ensures GroupOk(front[i]) && Lead(front[i]) < Lead(last) && front[i].key != last.key {
      assert groups[i] == front[i] && GroupOk(groups[i]) && Lead(groups[i]) < Lead(groups[|front|]);
      ScoreTextOrder(Lead(front[i]), Lead(last));
    }
    assert forall i, j :: 0 <= i < j < |front| ==> groups[i] == front[i] && groups[j] == front[j];
  }

  lemma GrownFlattens(front: seq<Group>, last: Group, c: Critique)
    ensures Flatten(front + [Group(last.key, last.members + [c])]) == Flatten(front + [last]) + [c]
  {
    FlattenAppend(front, Group(last.key, last.members + [c]));
    FlattenAppend(front, last);
    Associate(Flatten(front), last.members, [c]);
  }

  lemma GrownAdds(front: seq<Group>, last: Group, c: Critique)
    requires Tidy(front + [last])
    ensures AddToGroup(front + [last], last.key, c) == front + [Group(last.key, last.members + [c])]
  {
    TidyFront(front, last);
    assert (front + [last])[..|front|] == front;
    AddAtEnd(front + [last], last.key, c);
  }

  lemma GrownTidy(front: seq<Group>, last: Group, c: Critique)
    requires Tidy(front + [last]) && Lead(last) == c.score
    ensures Tidy(front + [Group(last.key, last.members + [c])])
  {
    var grown := Group(last.key, last.members + [c]);
    TidyFront(front, last);
    assert grown.members[0] == last.members[0];
    TidyAppend(front, grown);
  }

  /** The critique joins the last group. */
  lemma JoinLast(front: seq<Group>, last: Group, c: Critique)
    requires Tidy(front + [last]) && Lead(last) == c.score
    ensures AddToGroup(front + [last], last.key, c) == front + [Group(last.key, last.members + [c])]
    ensures Tidy(front + [Group(last.key, last.members + [c])])
    ensures Flatten(front + [Group(last.key, last.members + [c])]) == Flatten(front + [last]) + [c]
  {
    GrownAdds(front, last, c);
    GrownTidy(front, last, c);
    GrownFlattens(front, last, c);
  }

  /** The critique opens the next group. */
  lemma OpenNext(groups: seq<Group>, key: string, c: Critique)
    requires Tidy(groups) && PanelScore(c.score) && key == ScoreText(c.score)
    requires groups != [] ==> Lead(groups[|groups| - 1]) < c.score
    ensures AddToGroup(groups, key, c) == groups + [Group(key, [c])]
    ensures Tidy(groups + [Group(key, [c])])
    ensures Flatten(groups + [Group(key, [c])]) == Flatten(groups) + [c]
  {
    var g := Group(key, [c]);
    assert Lead(g) == c.score && GroupOk(g);
    if groups != [] {
      forall i | 0 <= i < |groups| ensures groups[i].key != key {
        assert GroupOk(groups[i]);
        ScoreTextOrder(Lead(groups[i]), c.score);
        assert Lead(groups[i]) <= Lead(groups[|groups| - 1]);
      }
      AddAtEnd(groups, key, c);
    }
    TidyAppend(groups, g);
    FlattenAppend(groups, g);
  }

  lemma SplitLast(groups: seq<Group>)
    requires groups != []
    ensures groups[..|groups| - 1] + [groups[|groups| - 1]] == groups
  {
  }

  lemma GroupedUnfold(front: seq<Critique>, c: Critique)
    ensures Grouped(front + [c]) == AddToGroup(Grouped(front), ScoreText(c.score), c)
  {
    assert (front + [c])[..|front|] == front;
  }

  lemma Associate(a: seq<Critique>, b: seq<Critique>, c: seq<Critique>)
    ensures a + (b + c) == (a + b) + c
  {
  }

  /** The highest score grouped so far. */
  function Top(groups: seq<Group>): real {
    if groups == [] then -1.0 else Lead(groups[|groups| - 1])
  }

  lemma GroupingStep(groups: seq<Group>, c: Critique)
    requires Tidy(groups) && PanelScore(c.score) && Top(groups) <= c.score
    ensures var all := AddToGroup(groups, ScoreText(c.score), c);
      Tidy(all) && Flatten(all) == Flatten(groups) + [c] && Top(all) == c.score
  {
    if Top(groups) == c.score && groups != [] {
      var m := |groups| - 1;
      assert GroupOk(groups[m]);
      SplitLast(groups);
      JoinLast(groups[..m], groups[m], c);
    } else {
      OpenNext(groups, ScoreText(c.score), c);
    }
  }

  lemma ByScoreFront(front: seq<Critique>, c: Critique)
    requires ByScore(front + [c])
    ensures ByScore(front) && PanelScore(c.score)
    ensures front != [] ==> front[|front| - 1].score <= c.score
  {
    var all := front + [c];
    assert all[|front|] == c && c in all;
    assert forall i :: 0 <= i < |front| ==> front[i] == all[i];
    assert forall d :: d in front ==> d in all;
  }

  lemma {:induction false} GroupingTidy(critiques: seq<Critique>)
    requires ByScore(critiques)
    ensures Tidy(Grouped(critiques)) && Flatten(Grouped(critiques)) == critiques
    ensures Top(Grouped(critiques)) == if critiques == [] then -1.0 else critiques[|critiques| - 1].score
  {
    if critiques != [] {
      var n := |critiques| - 1;
      var front, c := critiques[..n], critiques[n];
      assert critiques == front + [c];
      ByScoreFront(front, c);
      GroupingTidy(front);
      GroupedUnfold(front, c);
      GroupingStep(Grouped(front), c);
    }
  }

  lemma {:induction false} TextOrder(a: string, b: string, c: string)
    ensures !TextBefore(a, a)
    ensures TextBefore(a, b) && TextBefore(b, c) ==> TextBefore(a, c)
    ensures TextBefore(a, c) ==> TextBefore(a, b) || TextBefore(b, c)
  {
    if a != "" { TextIrreflexive(a); }
    if a != "" && b != "" && c != "" {
      TextOrder(a[1..], b[1..], c[1..]);
    }
  }

  lemma {:induction false} TextIrreflexive(a: string)
    ensures !TextBefore(a, a)
  {
    if a != "" { TextIrreflexive(a[1..]); }
  }

  /** Grouping by printed score and flattening in sorted key order gives back the retained list, in order. */
  lemma PromptRoundTrip(critiques: seq<Critique>)
    requires ByScore(critiques)
    ensures PromptCritiques(Grouped(critiques)) == critiques
  {
    var groups := Grouped(critiques);
    GroupingTidy(critiques);
    var before := (a: Group, b: Group) => TextBefore(a.key, b.key);
    forall a: Group, b: Group, c: Group
      ensures !before(a, a) && (before(a, b) && before(b, c) ==> before(a, c)) && (before(a, c) ==> before(a, b) || before(b, c))
    {
      TextOrder(a.key, b.key, c.key);
    }
    assert Sorting.WeakOrder(before);
    forall i, j | 0 <= i < j < |groups| ensures before(groups[i], groups[j]) {
      assert GroupOk(groups[i]) && GroupOk(groups[j]);
      ScoreTextOrder(Lead(groups[i]), Lead(groups[j]));
    }
    Sorting.SortIdentity(before, groups);
    assert PromptCritiques(groups) == Flatten(Sorting.Sort(before, groups));
  }

  /** In particular for what retention returns on a panel's judgments. */
  lemma RetainedRoundTrip(candidates: seq<Critique>, order: seq<string>)
    requires DistinctVotes(candidates) && NoDup(order) && forall c :: c in candidates ==> PanelScore(c.score)
    ensures PromptCritiques(Grouped(Retain(candidates, order))) == Retain(candidates, order)
  {
    var kept := Retain(candidates, order);
    if candidates != [] && order != [] {
      var _ := RetainGuarantees(candidates, order);
      forall i, j | 0 <= i < j < |kept| ensures kept[i].score <= kept[j].score {
        assert OutputBefore(order, kept[i], kept[j]);
      }
      PromptRoundTrip(kept);
    } else {
      PromptRoundTrip([]);
    }
  }
}
