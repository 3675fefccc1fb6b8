/** The suggestions panel (components/SessionSuggestionsPanel.tsx): it groups the
    session's suggestions by tag, renders each non-empty group, numbers ranking
    items, and hands a clicked question's text to its callback. */
module SessionSuggestionsPanel {
  import opened Wrappers
  import opened Types

  /** `suggestions.filter(s => s.type === tag)`. */
  function Group(ss: seq<Suggestion>, tag: string): (r: seq<Suggestion>)
    ensures |r| <= |ss|
    ensures forall s :: s in r ==> s in ss && Tag(s) == tag
    ensures forall s :: s in ss && Tag(s) == tag ==> s in r
  {
    if ss == [] then []
    else (if Tag(ss[0]) == tag then [ss[0]] else []) + Group(ss[1..], tag)
  }

  /** A group holds each suggestion of its tag exactly as often as the list
      does, and no other. */
  lemma {:induction false} GroupCount(ss: seq<Suggestion>, tag: string)
    ensures forall s :: multiset(Group(ss, tag))[s] == (if Tag(s) == tag then multiset(ss)[s] else 0)
  {
    if ss != [] {
      GroupCount(ss[1..], tag);
      assert ss == [ss[0]] + ss[1..];
      assert multiset(ss) == multiset([ss[0]]) + multiset(ss[1..]);
    }
  }

  /** Filtering is order-preserving: the group of a concatenation is the
      concatenation of the groups. */
  lemma {:induction false} GroupAppend(a: seq<Suggestion>, b: seq<Suggestion>, tag: string)
    ensures Group(a + b, tag) == Group(a, tag) + Group(b, tag)
    decreases |a|
  {
    if a == [] {
      assert a + b == b;
    } else {
      assert (a + b)[0] == a[0];
      assert (a + b)[1..] == a[1..] + b;
      GroupAppend(a[1..], b, tag);
    }
  }

  /** The three groups partition the suggestions: together they hold every
      suggestion exactly as often as the list does, and no suggestion is in two. */
  lemma GroupsPartition(ss: seq<Suggestion>)
    ensures multiset(Group(ss, "question")) + multiset(Group(ss, "ranking")) + multiset(Group(ss, "next-step"))
         == multiset(ss)
    ensures |Group(ss, "question")| + |Group(ss, "ranking")| + |Group(ss, "next-step")| == |ss|
    ensures forall s :: s in Group(ss, "question") ==> s !in Group(ss, "ranking") && s !in Group(ss, "next-step")
    ensures forall s :: s in Group(ss, "ranking") ==> s !in Group(ss, "next-step")
  {
    GroupCount(ss, "question");
    GroupCount(ss, "ranking");
    GroupCount(ss, "next-step");
    var all := multiset(Group(ss, "question")) + multiset(Group(ss, "ranking")) + multiset(Group(ss, "next-step"));
    forall s
      ensures all[s] == multiset(ss)[s]
    {
      assert Tag(s) in {"question", "ranking", "next-step"};
    }
    assert all == multiset(ss);
    assert |all| == |multiset(ss)|;
  }

  /** One numbered row of a ranking. */
  datatype RankRow = RankRow(number: nat, entityTitle: string, reason: string)

  /** The rows of a ranking, numbered from `first`. */
  function RowsFrom(items: seq<RankItem>, first: nat): (r: seq<RankRow>)
    ensures |r| == |items|
    ensures forall i :: 0 <= i < |items| ==>
              r[i] == RankRow(first + i, EntityTitle(items[i]), Reason(items[i]))
  {
    if items == [] then [] else [RankRow(first, EntityTitle(items[0]), Reason(items[0]))] + RowsFrom(items[1..], first + 1)
  }

  /** `items.map((item, itemIdx) => ... itemIdx + 1 ...)`: rows numbered 1..n in
      input order. */
  function NumberedRows(items: seq<RankItem>): (r: seq<RankRow>)
    ensures |r| == |items|
    ensures forall i :: 0 <= i < |items| ==> r[i].number == i + 1 && r[i].entityTitle == EntityTitle(items[i])
                                              && r[i].reason == Reason(items[i])
  {
    RowsFrom(items, 1)
  }

  /** A rendered ranking: its basis and its numbered rows. */
  datatype RankingView = RankingView(basis: string, rows: seq<RankRow>)

  /** What the panel renders: nothing, or the three groups (the question
      buttons' texts, the rankings, the next steps' texts). A group's section is
      rendered exactly when the group is non-empty. */
  datatype PanelView =
    | Hidden
    | Shown(questions: seq<string>, rankings: seq<RankingView>, nextSteps: seq<string>)

  function Texts(ss: seq<Suggestion>): (r: seq<string>)
    requires forall s :: s in ss ==> !s.Ranking?
    ensures |r| == |ss|
    ensures forall i :: 0 <= i < |ss| ==> r[i] == ss[i].text
  {
    if ss == [] then [] else [ss[0].text] + Texts(ss[1..])
  }

  function Rankings(ss: seq<Suggestion>): (r: seq<RankingView>)
    requires forall s :: s in ss ==> s.Ranking?
    ensures |r| == |ss|
    ensures forall i :: 0 <= i < |ss| ==> r[i] == RankingView(ss[i].basis, NumberedRows(ss[i].items))
  {
    if ss == [] then [] else [RankingView(ss[0].basis, NumberedRows(ss[0].items))] + Rankings(ss[1..])
  }

  /** The panel: hidden for a missing state or an empty suggestion list,
      otherwise the three groups in input order. */
  function Panel(state: Option<RegenerateState>): (r: PanelView)
    ensures r.Hidden? <==> state.None? || state.value.suggestions == []
  {
    if state.None? || state.value.suggestions == [] then Hidden
    else
      var ss := state.value.suggestions;
      Shown(Texts(Group(ss, "question")), Rankings(Group(ss, "ranking")), Texts(Group(ss, "next-step")))
  }

  /** Every position of a group holds a suggestion of the group's kind. */
  lemma GroupKinds(ss: seq<Suggestion>)
    ensures forall i :: 0 <= i < |Group(ss, "question")| ==> Group(ss, "question")[i].Question?
    ensures forall i :: 0 <= i < |Group(ss, "ranking")| ==> Group(ss, "ranking")[i].Ranking?
    ensures forall i :: 0 <= i < |Group(ss, "next-step")| ==> Group(ss, "next-step")[i].NextStep?
  {
    assert "question"[0] != "ranking"[0] && "question"[0] != "next-step"[0] && "ranking"[0] != "next-step"[0];
    var q, k, n := Group(ss, "question"), Group(ss, "ranking"), Group(ss, "next-step");
    assert forall i :: 0 <= i < |q| ==> q[i] in q;
    assert forall i :: 0 <= i < |k| ==> k[i] in k;
    assert forall i :: 0 <= i < |n| ==> n[i] in n;
  }

  /** The question section of a shown panel lists the question texts in input
      order. */
  lemma PanelQuestions(state: Option<RegenerateState>)
    requires Panel(state).Shown?
    ensures var r := Panel(state);
      var g := Group(state.value.suggestions, "question");
      && |r.questions| == |g|
      && forall i :: 0 <= i < |g| ==> g[i] == Question(r.questions[i])
  {
    GroupKinds(state.value.suggestions);
  }

  /** The next-step section of a shown panel lists the next-step texts in input
      order. */
  lemma PanelNextSteps(state: Option<RegenerateState>)
    requires Panel(state).Shown?
    ensures var r := Panel(state);
      var g := Group(state.value.suggestions, "next-step");
      && |r.nextSteps| == |g|
      && forall i :: 0 <= i < |g| ==> g[i] == NextStep(r.nextSteps[i])
  {
    GroupKinds(state.value.suggestions);
  }

  /** The ranking section of a shown panel shows each ranking's basis and its
      rows numbered from 1, in input order. */
  lemma PanelRankings(state: Option<RegenerateState>)
    requires Panel(state).Shown?
    ensures var r := Panel(state);
      var g := Group(state.value.suggestions, "ranking");
      && |r.rankings| == |g|
      && forall i :: 0 <= i < |g| ==>
           && g[i].Ranking?
           && g[i].basis == r.rankings[i].basis
           && r.rankings[i].rows == NumberedRows(g[i].items)
  {
    GroupKinds(state.value.suggestions);
  }

  /** A shown panel has at least one non-empty section. */
  lemma ShownPanelHasASection(state: Option<RegenerateState>)
    requires Panel(state).Shown?
    ensures var p := Panel(state); |p.questions| > 0 || |p.rankings| > 0 || |p.nextSteps| > 0
  {
    GroupsPartition(state.value.suggestions);
  }

  /** `onQuestionClick?.(suggestion.text)`: the text a question button passes. */
  function QuestionClick(s: Suggestion): (r: Option<string>)
    ensures r.Some? <==> s.Question?
    ensures r.Some? ==> s == Question(r.value)
  {
    if s.Question? then Some(s.text) else None
  }
}
