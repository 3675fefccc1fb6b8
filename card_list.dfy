/** The display rules of the session cards (components/SessionCardList.tsx):
    which text describes a session, the category badge and the screenshot
    count's plural. */
module SessionCardList {
  import opened Wrappers
  import opened Text
  import opened Types

  /** The part of a list item the card reads (`SessionListItem`). */
  datatype CardSession = CardSession(
    name: string,
    description: Option<string>,
    screenshotCount: int,
    regenerateState: Option<RegenerateState>)

  /** How many characters of a summary a card shows. */
  const SummaryLimit: nat := 120

  const NoDescription: string := "No description"

  /** `session.regenerateState?.sessionSummary`, with `undefined` as `""`. */
  function SummaryOf(session: CardSession): string
  {
    if session.regenerateState.Some? then session.regenerateState.value.sessionSummary else ""
  }

  /** `displayDescription`: the description when truthy; otherwise a non-empty
      summary cut to 120 characters, `'...'` added exactly when it was longer;
      otherwise `'No description'`. */
  function DisplayDescription(session: CardSession): (r: string)
    ensures session.description.Some? && session.description.value != "" ==> r == session.description.value
    ensures !(session.description.Some? && session.description.value != "") && SummaryOf(session) != "" ==>
              && |r| <= SummaryLimit + 3
              && r == Truncate(SummaryOf(session), SummaryLimit)
    ensures !(session.description.Some? && session.description.value != "") && SummaryOf(session) == "" ==>
              r == NoDescription
    ensures r != ""
  {
    if session.description.Some? && session.description.value != "" then session.description.value
    else
      var summary := SummaryOf(session);
      if summary != "" then
        TruncateSpec(summary, SummaryLimit);
        Truncate(summary, SummaryLimit)
      else NoDescription
  }

  /** A summary shown on a card is its beginning: the first characters of the
      summary, then `'...'` only when something was cut. */
  lemma SummaryDescriptionIsPrefix(session: CardSession)
    requires !(session.description.Some? && session.description.value != "")
    requires SummaryOf(session) != ""
    ensures var s := SummaryOf(session);
      var r := DisplayDescription(session);
      && (|s| <= SummaryLimit ==> r == s)
      && (|s| > SummaryLimit ==> r == s[..SummaryLimit] + "..." && |r| == SummaryLimit + 3)
  {
    TruncateSpec(SummaryOf(session), SummaryLimit);
  }

  /** The category badge: shown only for a truthy category, and its label
      replaces only the first `'-'` with a space. */
  function CategoryBadge(category: string): (r: Option<string>)
    ensures r.None? <==> category == ""
    ensures r.Some? ==> |r.value| == |category|
    ensures r.Some? ==> forall i :: 0 <= i < |category| ==>
              r.value[i] == (if i == IndexOf(category, '-') then ' ' else category[i])
  {
    if category == "" then None else Some(ReplaceFirst(category, '-', ' '))
  }

  /** For a two-part category such as `trip-planning` the label is the two words
      with a space; any later `'-'` is kept. */
  lemma CategoryLabelOfWords(first: string, rest: string)
    requires '-' !in first
    ensures CategoryBadge(first + "-" + rest) == Some(first + " " + rest)
  {
    var c := first + "-" + rest;
    assert c[|first|] == '-';
    assert forall i :: 0 <= i < |first| ==> c[i] == first[i];
    assert IndexOf(c, '-') == |first|;
    var r := CategoryBadge(c).value;
    assert |r| == |first + " " + rest|;
    var want := first + " " + rest;
    forall i | 0 <= i < |r|
      ensures r[i] == want[i]
    {
      if i > |first| {
        assert c[i] == rest[i - |first| - 1] == want[i];
      }
    }
    assert r == want;
  }

  /** The badge of a card: the category of its state, when there is one. */
  function CardBadge(session: CardSession): (r: Option<string>)
    ensures r.Some? <==> session.regenerateState.Some? && session.regenerateState.value.sessionCategory != ""
    ensures r.Some? ==> r == CategoryBadge(session.regenerateState.value.sessionCategory)
  {
    if session.regenerateState.Some? then CategoryBadge(session.regenerateState.value.sessionCategory) else None
  }

  /** `screenshot` for exactly one screenshot, `screenshots` otherwise. */
  function ScreenshotWord(count: int): (r: string)
    ensures r == "screenshot" <==> count == 1
    ensures r == "screenshots" <==> count != 1
  {
    "screenshot" + (if count != 1 then "s" else "")
  }
}
