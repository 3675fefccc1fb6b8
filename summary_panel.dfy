/** The summary panel (components/SessionSummaryPanel.tsx): the title it shows,
    whether the original name is shown under it, the category badge, and the
    summary section with its entity count. */
module SessionSummaryPanel {
  import opened Wrappers
  import opened Text
  import opened Types
  import SessionCardList

  /** `regenerateState?.suggestedNotebookTitle`, with `undefined` and `null` as `""`. */
  function SuggestedTitle(state: Option<RegenerateState>): string
  {
    if state.Some? && state.value.suggestedNotebookTitle.Some? then state.value.suggestedNotebookTitle.value else ""
  }

  /** `displayTitle`: the suggested title when truthy, otherwise the session name. */
  function DisplayTitle(name: string, state: Option<RegenerateState>): (r: string)
    ensures SuggestedTitle(state) != "" ==> r == SuggestedTitle(state)
    ensures SuggestedTitle(state) == "" ==> r == name
  {
    if SuggestedTitle(state) != "" then SuggestedTitle(state) else name
  }

  /** `showOriginalName`: a truthy suggested title that differs from the name. */
  function ShowOriginalName(name: string, state: Option<RegenerateState>): (r: bool)
    ensures r <==> SuggestedTitle(state) != "" && SuggestedTitle(state) != name
  {
    SuggestedTitle(state) != "" && SuggestedTitle(state) != name
  }

  /** The original name is shown exactly when the title on display is not the
      session's name, so the name is always visible somewhere. */
  lemma OriginalNameShownIffRenamed(name: string, state: Option<RegenerateState>)
    ensures ShowOriginalName(name, state) <==> DisplayTitle(name, state) != name
  {
  }

  /** The category badge of the panel: the card list's label rule, applied to
      the state's category when there is a state. */
  function Badge(state: Option<RegenerateState>): (r: Option<string>)
    ensures state.None? ==> r.None?
    ensures state.Some? ==> r == SessionCardList.CategoryBadge(state.value.sessionCategory)
    ensures r.Some? ==> state.Some? && state.value.sessionCategory != ""
  {
    if state.Some? then SessionCardList.CategoryBadge(state.value.sessionCategory) else None
  }

  /** The entity line: none for no entities; otherwise the count and `entity`
      for one, `entities` for any other count. */
  function EntityCountLabel(count: nat): (r: Option<string>)
    ensures r.None? <==> count == 0
    ensures r.Some? ==> r.value == NatToString(count) + " " + (if count == 1 then "entity" else "entities") + " tracked"
  {
    if count == 0 then None
    else Some(NatToString(count) + " entit" + (if count != 1 then "ies" else "y") + " tracked")
  }

  /** The summary section: the placeholder without a state, otherwise the
      summary text and the entity line. */
  datatype SummarySection =
    | Placeholder
    | Summary(text: string, entityLine: Option<string>)

  function Section(state: Option<RegenerateState>): (r: SummarySection)
    ensures r.Placeholder? <==> state.None?
    ensures r.Summary? ==> r.text == state.value.sessionSummary
    ensures r.Summary? ==> (r.entityLine.Some? <==> |state.value.entities| > 0)
  {
    if state.None? then Placeholder
    else Summary(state.value.sessionSummary, EntityCountLabel(|state.value.entities|))
  }
}
