/** The session-list mapping of the home page (app/app/page.tsx): each backend
    session record, in snake_case, becomes the frontend's camelCase list item;
    the nested regeneration state accepts either naming, snake_case first. */
module SessionMapper {
  import opened Wrappers
  import opened Json

  /** The mapped regeneration state. Nothing is validated, so the fields stay JSON
      values; `None` is `undefined`. */
  datatype MappedState = MappedState(
    sessionSummary: Option<Json>,
    sessionCategory: Option<Json>,
    entities: Json,
    suggestedNotebookTitle: Option<Json>,
    suggestions: Json)

  /** One mapped list item (`SessionListItem`); `regenerateState` is `None` for `null`. */
  datatype SessionListItem = SessionListItem(
    id: Option<Json>,
    name: Option<Json>,
    description: Option<Json>,
    createdAt: Option<Json>,
    updatedAt: Option<Json>,
    screenshotCount: Json,
    regenerateState: Option<MappedState>)

  /** `snake || camel`: the snake_case value when truthy, otherwise the camelCase
      value as it is (possibly `undefined`). */
  function Pick(state: Json, snake: string, camel: string): (r: Option<Json>)
    ensures Truthy(Get(state, snake)) ==> r == Get(state, snake)
    ensures !Truthy(Get(state, snake)) ==> r == Get(state, camel)
  {
    if Truthy(Get(state, snake)) then Get(state, snake) else Get(state, camel)
  }

  /** The nested state of a record whose `regenerate_state` is truthy. */
  function MapState(state: Json): (r: MappedState)
    ensures r.sessionSummary == Pick(state, "session_summary", "sessionSummary")
    ensures r.sessionCategory == Pick(state, "session_category", "sessionCategory")
    ensures r.suggestedNotebookTitle == Pick(state, "suggested_notebook_title", "suggestedNotebookTitle")
    ensures Truthy(Get(state, "entities")) ==> r.entities == Get(state, "entities").value
    ensures !Truthy(Get(state, "entities")) ==> r.entities == JArr([])
    ensures Truthy(Get(state, "suggestions")) ==> r.suggestions == Get(state, "suggestions").value
    ensures !Truthy(Get(state, "suggestions")) ==> r.suggestions == JArr([])
  {
    MappedState(
      Pick(state, "session_summary", "sessionSummary"),
      Pick(state, "session_category", "sessionCategory"),
      Or(Get(state, "entities"), JArr([])),
      Pick(state, "suggested_notebook_title", "suggestedNotebookTitle"),
      Or(Get(state, "suggestions"), JArr([])))
  }

  /** `mapSessionFromBackend`; `None` where its first property read throws,
      which is for a `null` element. */
  function MapSession(backend: Json): (r: Option<SessionListItem>)
    ensures r.None? <==> backend == JNull
    ensures r.Some? ==>
              && r.value.id == Get(backend, "id")
              && r.value.name == Get(backend, "name")
              && r.value.description == Get(backend, "description")
              && r.value.createdAt == Get(backend, "created_at")
              && r.value.updatedAt == Get(backend, "updated_at")
    ensures r.Some? && Truthy(Get(backend, "screenshot_count")) ==>
              r.value.screenshotCount == Get(backend, "screenshot_count").value
    ensures r.Some? && !Truthy(Get(backend, "screenshot_count")) ==> r.value.screenshotCount == JNum(0.0)
    ensures r.Some? ==> (r.value.regenerateState.None? <==> !Truthy(Get(backend, "regenerate_state")))
    ensures r.Some? && r.value.regenerateState.Some? ==>
              r.value.regenerateState.value == MapState(Get(backend, "regenerate_state").value)
  {
    if backend == JNull then None
    else
      var state := Get(backend, "regenerate_state");
      Some(SessionListItem(
        Get(backend, "id"),
        Get(backend, "name"),
        Get(backend, "description"),
        Get(backend, "created_at"),
        Get(backend, "updated_at"),
        Or(Get(backend, "screenshot_count"), JNum(0.0)),
        if Truthy(state) then Some(MapState(state.value)) else None))
  }

  /** `rawData.map(mapSessionFromBackend)`; `None` when some element throws. */
  function MapAll(xs: seq<Json>): (r: Option<seq<SessionListItem>>)
    ensures r.Some? <==> JNull !in xs
    ensures r.Some? ==> |r.value| == |xs|
    ensures r.Some? ==> forall i :: 0 <= i < |xs| ==> MapSession(xs[i]) == Some(r.value[i])
  {
    if xs == [] then Some([])
    else
      var head := MapSession(xs[0]);
      var rest := MapAll(xs[1..]);
      if head.Some? && rest.Some? then
        assert forall i :: 1 <= i < |xs| ==> xs[i] == xs[1..][i - 1];
        Some([head.value] + rest.value)
      else
        None
  }

  /** The list the page stores: a non-array response gives no sessions, and an
      array is mapped element by element, keeping its length and order. */
  function MapSessions(raw: Json): (r: Option<seq<SessionListItem>>)
    ensures !raw.JArr? ==> r == Some([])
    ensures raw.JArr? ==> (r.Some? <==> JNull !in raw.elems)
    ensures raw.JArr? && r.Some? ==>
              && |r.value| == |raw.elems|
              && forall i :: 0 <= i < |raw.elems| ==> MapSession(raw.elems[i]) == Some(r.value[i])
  {
    if raw.JArr? then MapAll(raw.elems) else Some([])
  }

  /** The naming convention of the nested state does not matter: a state written
      in snake_case and the same state written in camelCase map alike, as long
      as the values are truthy. */
  lemma NamingDoesNotMatter(summary: Json, category: Json, title: Json, rest: map<string, Json>)
    requires TruthyValue(summary) && TruthyValue(category) && TruthyValue(title)
    requires forall k :: k in rest ==> k in {"entities", "suggestions"}
    ensures MapState(JObj(rest + map["session_summary" := summary, "session_category" := category,
                                     "suggested_notebook_title" := title]))
         == MapState(JObj(rest + map["sessionSummary" := summary, "sessionCategory" := category,
                                     "suggestedNotebookTitle" := title]))
  {
    var snake := JObj(rest + map["session_summary" := summary, "session_category" := category,
                                 "suggested_notebook_title" := title]);
    var camel := JObj(rest + map["sessionSummary" := summary, "sessionCategory" := category,
                                 "suggestedNotebookTitle" := title]);
    assert Get(snake, "session_summary") == Some(summary);
    assert Get(snake, "session_category") == Some(category);
    assert Get(snake, "suggested_notebook_title") == Some(title);
    assert Get(camel, "session_summary") == None;
    assert Get(camel, "session_category") == None;
    assert Get(camel, "suggested_notebook_title") == None;
    assert Get(camel, "sessionSummary") == Some(summary);
    assert Get(camel, "sessionCategory") == Some(category);
    assert Get(camel, "suggestedNotebookTitle") == Some(title);
    assert Get(snake, "entities") == Get(camel, "entities");
    assert Get(snake, "suggestions") == Get(camel, "suggestions");
  }
}
