/** The regeneration route (app/api/regenerate/route.ts): it assembles one prompt
    from the prior session state and the ordered screenshot analyses, hands it to
    the generation service, and turns the untrusted answer into a session state:
    suggestions are filtered to the three known variants, the other fields fall
    back to neutral defaults, and every failure yields the same neutral state. */
module Regenerate {
  import opened Wrappers
  import opened Json
  import opened Text
  import opened Types
  import opened Generation

  /** One screenshot's analysis as the caller sends it (`AnalyzeResponse`). */
  datatype Analysis = Analysis(
    rawText: string,
    summary: string,
    category: string,
    entities: seq<Json>,
    suggestedNotebookTitle: Option<string>)

  datatype ScreenInput = ScreenInput(id: string, analysis: Analysis)

  datatype PreviousSession = PreviousSession(
    sessionSummary: string,
    sessionCategory: string,
    entities: seq<Json>)

  /** A request that passed the route's guard. `sessionId` is whatever truthy
      value the caller sent; it is echoed back unchanged. */
  datatype RegenerateRequest = RegenerateRequest(
    sessionId: Json,
    previousSession: Option<PreviousSession>,
    screens: seq<ScreenInput>)

  /** The response record. Fields filled with `parsed.x || default` keep whatever
      truthy value the generator sent, so they stay JSON values. */
  datatype RegenerateResponse = RegenerateResponse(
    sessionId: Json,
    sessionSummary: Json,
    sessionCategory: Json,
    entities: seq<Json>,
    suggestedNotebookTitle: Json,
    suggestions: seq<Suggestion>)

  /* ---------------------------------------------------------------------- */
  /* Prompt assembly                                                         */
  /* ---------------------------------------------------------------------- */

  /** How many characters of a screenshot's raw text enter the prompt. */
  const RawTextLimit: nat := 200

  /** The fixed task instructions, the closed category list and the output
      schema that open every regeneration prompt (wording abbreviated). */
  const Instructions: string :=
    "You are an intelligent session analyzer for a notebook app.\n\n"
    + "CATEGORIES (choose one):\n- trip-planning\n- shopping\n- job-search\n- research\n"
    + "- content-writing\n- productivity\n- other\n\n"
    + "SUGGESTION TYPES: question, ranking, next-step\n\n"
    + "OUTPUT FORMAT (JSON ONLY): sessionSummary, sessionCategory, entities, "
    + "suggestedNotebookTitle, suggestions\n\n"

  /** The closing instruction of every regeneration prompt. */
  const Closing: string := "\nNOW ANALYZE THE ENTIRE SESSION AND RETURN ONLY THE JSON RESPONSE."

  /** The continuity block added when a previous session state is supplied. */
  function ContinuityBlock(p: PreviousSession, stringify: seq<Json> -> string): string
  {
    "\n--- PREVIOUS SESSION STATE (MAINTAIN CONTINUITY) ---\nSession Summary: " + p.sessionSummary
    + "\nSession Category: " + p.sessionCategory
    + "\nPrevious Entities Count: " + NatToString(|p.entities|)
    + "\nPrevious Entities: " + stringify(p.entities) + "\n\n"
  }

  function ScreensHeader(count: nat): string
  {
    "\n--- CURRENT SCREENS IN SESSION (" + NatToString(count) + " total) ---\n"
  }

  /** `analysis.suggestedNotebookTitle || 'none'`. */
  function TitleOrNone(title: Option<string>): string
  {
    if title.Some? && title.value != "" then title.value else "none"
  }

  /** The block for the screen at 0-based position `index`, numbered from 1. */
  function ScreenBlock(index: nat, screen: ScreenInput, stringify: seq<Json> -> string): string
  {
    var a := screen.analysis;
    "\nScreen " + NatToString(index + 1) + " (ID: " + screen.id + "):\n  Summary: " + a.summary
    + "\n  Category: " + a.category
    + "\n  Suggested Title: " + TitleOrNone(a.suggestedNotebookTitle)
    + "\n  Entities Count: " + NatToString(|a.entities|)
    + "\n  Entities: " + stringify(a.entities)
    + "\n  Raw Text (truncated): " + Truncate(a.rawText, RawTextLimit) + "\n\n"
  }

  /** The blocks of all screens, in input order. */
  function ScreenBlocks(screens: seq<ScreenInput>, stringify: seq<Json> -> string): string
  {
    Join(screens, (index: nat, screen: ScreenInput) => ScreenBlock(index, screen, stringify))
  }

  /** The part of the prompt before the screen blocks. */
  function PromptHead(req: RegenerateRequest, stringify: seq<Json> -> string): string
  {
    Instructions
    + (if req.previousSession.Some? then ContinuityBlock(req.previousSession.value, stringify) else "")
    + ScreensHeader(|req.screens|)
  }

  /** The prompt the route sends to the generation service. */
  function RegeneratePrompt(req: RegenerateRequest, stringify: seq<Json> -> string): string
  {
    PromptHead(req, stringify) + ScreenBlocks(req.screens, stringify) + Closing
  }

  /** The prompt builder of `analyzeSession`: `let prompt = ...; prompt += ...`
      with one block appended per screen inside `screens.forEach`. */
  method BuildPrompt(req: RegenerateRequest, stringify: seq<Json> -> string) returns (prompt: string)
    ensures prompt == RegeneratePrompt(req, stringify)
  {
    prompt := Instructions;
    if req.previousSession.Some? {
      prompt := prompt + ContinuityBlock(req.previousSession.value, stringify);
    } else {
      AppendEmpty(Instructions);
    }
    prompt := prompt + ScreensHeader(|req.screens|);
    assert prompt == PromptHead(req, stringify);
    prompt := AppendScreenBlocks(prompt, req.screens, stringify);
    prompt := prompt + Closing;
  }

  /** `reqBody.screens.forEach(...)`: one block appended per screen, in order. */
  method AppendScreenBlocks(start: string, screens: seq<ScreenInput>, stringify: seq<Json> -> string)
    returns (prompt: string)
    ensures prompt == start + ScreenBlocks(screens, stringify)
  {
    prompt := start;
    var i := 0;
    while i < |screens|
      invariant 0 <= i <= |screens|
      invariant prompt == start + ScreenBlocks(screens[..i], stringify)
    {
      var block := ScreenBlock(i, screens[i], stringify);
      JoinSnoc(screens, i, (index: nat, screen: ScreenInput) => ScreenBlock(index, screen, stringify));
      AppendAssoc(start, ScreenBlocks(screens[..i], stringify), block);
      prompt := prompt + block;
      i := i + 1;
    }
    assert screens[..i] == screens;
  }

  /** Screens appear in the prompt in input order: the block of the screen at
      position `k`, numbered `k + 1`, follows the blocks of the screens before it. */
  lemma ScreenBlockAt(screens: seq<ScreenInput>, k: nat, stringify: seq<Json> -> string)
    requires k < |screens|
    ensures var off := |ScreenBlocks(screens[..k], stringify)|;
      var block := ScreenBlock(k, screens[k], stringify);
      && off + |block| <= |ScreenBlocks(screens, stringify)|
      && ScreenBlocks(screens, stringify)[off..off + |block|] == block
  {
    JoinAt(screens, k, (index: nat, screen: ScreenInput) => ScreenBlock(index, screen, stringify));
  }

  /** Without a previous session the continuity block is absent: the screen
      header follows the instructions directly. */
  lemma NoPreviousSessionPrompt(req: RegenerateRequest, stringify: seq<Json> -> string)
    requires req.previousSession.None?
    ensures RegeneratePrompt(req, stringify)
         == Instructions + ScreensHeader(|req.screens|) + ScreenBlocks(req.screens, stringify) + Closing
  {
    AppendEmpty(Instructions);
  }

  /* ---------------------------------------------------------------------- */
  /* Suggestion validation                                                   */
  /* ---------------------------------------------------------------------- */

  /** A suggestion the validator can emit: a ranking has at least one item. */
  predicate WellFormed(s: Suggestion)
  {
    s.Ranking? ==> |s.items| > 0
  }

  /** `suggestion.items.filter(item => item && typeof item.entityTitle === 'string'
      && typeof item.reason === 'string')`. */
  function ValidItems(items: seq<Json>): (r: seq<RankItem>)
    ensures |r| <= |items|
    ensures forall x :: x in r ==> x in items
    ensures forall x :: x in items && IsRankItem(x) ==> x in r
  {
    if items == [] then []
    else if IsRankItem(items[0]) then [items[0]] + ValidItems(items[1..])
    else ValidItems(items[1..])
  }

  /** The filter keeps a list of valid items as it is. */
  lemma {:induction false} ValidItemsKeepsValid(items: seq<RankItem>)
    ensures ValidItems(items) == items
  {
    if items != [] {
      ValidItemsKeepsValid(items[1..]);
    }
  }

  /** The filter looks at one item at a time: a single item is kept exactly
      when it is valid. */
  lemma ValidItemsSingle(x: Json)
    ensures ValidItems([x]) == (if IsRankItem(x) then [x] else [])
  {
    assert [x][1..] == [];
  }

  /** The filter keeps order: filtering a concatenation concatenates the
      filtered parts. With `ValidItemsSingle` this fixes the result as the valid
      items, in input order, each as often as it occurs. */
  lemma {:induction false} ValidItemsAppend(a: seq<Json>, b: seq<Json>)
    ensures ValidItems(a + b) == ValidItems(a) + ValidItems(b)
    decreases |a|
  {
    if a == [] {
      assert a + b == b;
    } else {
      assert (a + b)[0] == a[0];
      assert (a + b)[1..] == a[1..] + b;
      ValidItemsAppend(a[1..], b);
    }
  }

  /** One iteration of the validation loop: the suggestion it pushes, if any. */
  function ValidateOne(j: Json): (r: Option<Suggestion>)
    ensures !TruthyValue(j) || !IsString(Get(j, "type")) ==> r == None
    ensures r.Some? ==> Get(j, "type") == Some(JStr(Tag(r.value))) && WellFormed(r.value)
    ensures Get(j, "type") in {Some(JStr("question")), Some(JStr("next-step"))} ==>
              (r.Some? <==> IsString(Get(j, "text")))
    ensures r.Some? && !r.value.Ranking? ==> Get(j, "text") == Some(JStr(r.value.text))
    ensures Get(j, "type") == Some(JStr("ranking")) ==>
              (r.Some? <==> IsString(Get(j, "basis")) && IsArray(Get(j, "items"))
                            && ValidItems(Get(j, "items").value.elems) != [])
    ensures r.Some? && r.value.Ranking? ==>
              && Get(j, "basis") == Some(JStr(r.value.basis))
              && IsArray(Get(j, "items"))
              && r.value.items == ValidItems(Get(j, "items").value.elems)
  {
    if !TruthyValue(j) || !IsString(Get(j, "type")) then None
    else
      var tag := Get(j, "type").value.s;
      var text := Get(j, "text");
      if tag == "question" then
        if IsString(text) then Some(Question(text.value.s)) else None
      else if tag == "ranking" then
        var basis := Get(j, "basis");
        var items := Get(j, "items");
        if IsString(basis) && IsArray(items) then
          var valid := ValidItems(items.value.elems);
          if |valid| > 0 then Some(Ranking(basis.value.s, valid)) else None
        else None
      else if tag == "next-step" then
        if IsString(text) then Some(NextStep(text.value.s)) else None
      else None
  }

  /** The suggestions the loop collects from an array, in order. */
  function Validated(xs: seq<Json>): (r: seq<Suggestion>)
    ensures |r| <= |xs|
    ensures forall s :: s in r ==> WellFormed(s)
    decreases |xs|
  {
    if xs == [] then []
    else
      var rest := Validated(xs[..|xs| - 1]);
      match ValidateOne(xs[|xs| - 1])
      case Some(s) => rest + [s]
      case None => rest
  }

  /** The positions of the array elements that survive validation, ascending. */
  function Survivors(xs: seq<Json>): seq<nat>
    decreases |xs|
  {
    if xs == [] then []
    else
      var rest := Survivors(xs[..|xs| - 1]);
      if ValidateOne(xs[|xs| - 1]).Some? then rest + [|xs| - 1] else rest
  }

  /** The surviving positions are exactly the positions whose element
      `ValidateOne` accepts, in ascending order. */
  lemma {:induction false} SurvivorsSpec(xs: seq<Json>)
    ensures forall k :: 0 <= k < |Survivors(xs)| ==>
              Survivors(xs)[k] < |xs| && ValidateOne(xs[Survivors(xs)[k]]).Some?
    ensures forall k, l :: 0 <= k < l < |Survivors(xs)| ==> Survivors(xs)[k] < Survivors(xs)[l]
    ensures forall i :: 0 <= i < |xs| && ValidateOne(xs[i]).Some? ==> i in Survivors(xs)
    decreases |xs|
  {
    if xs != [] {
      var init := xs[..|xs| - 1];
      SurvivorsSpec(init);
      assert forall i :: 0 <= i < |init| ==> xs[i] == init[i];
    }
  }

  /** The validated suggestions are an order-preserving subsequence of the input:
      the k-th output is the conversion of the k-th surviving element. */
  lemma {:induction false} ValidatedFollowsSurvivors(xs: seq<Json>)
    ensures |Validated(xs)| == |Survivors(xs)|
    ensures forall k :: 0 <= k < |Survivors(xs)| ==>
              Survivors(xs)[k] < |xs| && ValidateOne(xs[Survivors(xs)[k]]) == Some(Validated(xs)[k])
    decreases |xs|
  {
    if xs != [] {
      var init := xs[..|xs| - 1];
      ValidatedFollowsSurvivors(init);
      assert forall i :: 0 <= i < |init| ==> xs[i] == init[i];
    }
  }

  /** `Array.isArray(parsed.suggestions) ? <loop result> : []`. */
  function SuggestionsOf(v: Option<Json>): seq<Suggestion>
  {
    if IsArray(v) then Validated(v.value.elems) else []
  }

  /** The validation loop of `analyzeSession`: it walks `parsed.suggestions` and
      pushes every element that passes its variant's checks. */
  method ValidateSuggestions(suggestions: Option<Json>) returns (validated: seq<Suggestion>)
    ensures validated == SuggestionsOf(suggestions)
    ensures !IsArray(suggestions) ==> validated == []
  {
    validated := [];
    if IsArray(suggestions) {
      var xs := suggestions.value.elems;
      var i := 0;
      while i < |xs|
        invariant 0 <= i <= |xs|
        invariant validated == Validated(xs[..i])
      {
        assert xs[..i + 1][..i] == xs[..i];
        var s := ValidateOne(xs[i]);
        if s.Some? {
          validated := validated + [s.value];
        }
        i := i + 1;
      }
      assert xs[..i] == xs;
    }
  }

  /** The wire form of a suggestion: its tag and exactly its variant's fields. */
  function EncodeSuggestion(s: Suggestion): Json
  {
    match s
    case Question(t) => JObj(map["type" := JStr("question"), "text" := JStr(t)])
    case Ranking(b, items) => JObj(map["type" := JStr("ranking"), "basis" := JStr(b), "items" := JArr(items)])
    case NextStep(t) => JObj(map["type" := JStr("next-step"), "text" := JStr(t)])
  }

  function EncodeAll(ss: seq<Suggestion>): (r: seq<Json>)
    ensures |r| == |ss|
    decreases |ss|
  {
    if ss == [] then [] else EncodeAll(ss[..|ss| - 1]) + [EncodeSuggestion(ss[|ss| - 1])]
  }

  /** Every well-formed suggestion survives validation of its own wire form unchanged. */
  lemma ValidateEncoded(s: Suggestion)
    requires WellFormed(s)
    ensures ValidateOne(EncodeSuggestion(s)) == Some(s)
  {
    var j := EncodeSuggestion(s);
    match s
    case Question(t) =>
      assert Get(j, "type") == Some(JStr("question"));
      assert Get(j, "text") == Some(JStr(t));
    case NextStep(t) =>
      assert Get(j, "type") == Some(JStr("next-step"));
      assert Get(j, "text") == Some(JStr(t));
    case Ranking(b, items) =>
      assert Get(j, "type") == Some(JStr("ranking"));
      assert Get(j, "basis") == Some(JStr(b));
      assert Get(j, "items") == Some(JArr(items));
      ValidItemsKeepsValid(items);
  }

  /** Validation is a round trip on well-formed suggestion lists: validating the
      wire form of what it emitted gives the same list back. */
  lemma {:induction false} ValidatedEncodeAll(ss: seq<Suggestion>)
    requires forall s :: s in ss ==> WellFormed(s)
    ensures Validated(EncodeAll(ss)) == ss
    decreases |ss|
  {
    if ss != [] {
      var init := ss[..|ss| - 1];
      ValidatedEncodeAll(init);
      var xs := EncodeAll(ss);
      assert xs[..|xs| - 1] == EncodeAll(init);
      ValidateEncoded(ss[|ss| - 1]);
      assert init + [ss[|ss| - 1]] == ss;
    }
  }

  /* ---------------------------------------------------------------------- */
  /* Normalisation and fallback                                              */
  /* ---------------------------------------------------------------------- */

  /** The neutral response every failure path returns. */
  function Fallback(sessionId: Json): RegenerateResponse
  {
    RegenerateResponse(sessionId, JStr(""), JStr("other"), [], JNull, [])
  }

  /** The shape every response of the route has: each defaulted field is either
      a truthy value or its default, and no ranking is empty. */
  predicate Normalised(r: RegenerateResponse)
  {
    && (TruthyValue(r.sessionSummary) || r.sessionSummary == JStr(""))
    && (TruthyValue(r.sessionCategory) || r.sessionCategory == JStr("other"))
    && (TruthyValue(r.suggestedNotebookTitle) || r.suggestedNotebookTitle == JNull)
    && (forall s :: s in r.suggestions ==> WellFormed(s))
  }

  /** The result object built from a parsed (non-null) answer. */
  function Normalise(parsed: Json, sessionId: Json): (r: RegenerateResponse)
    ensures r.sessionId == sessionId
    ensures Normalised(r)
    ensures Truthy(Get(parsed, "sessionSummary")) ==> r.sessionSummary == Get(parsed, "sessionSummary").value
    ensures !Truthy(Get(parsed, "sessionSummary")) ==> r.sessionSummary == JStr("")
    ensures Truthy(Get(parsed, "sessionCategory")) ==> r.sessionCategory == Get(parsed, "sessionCategory").value
    ensures !Truthy(Get(parsed, "sessionCategory")) ==> r.sessionCategory == JStr("other")
    ensures IsArray(Get(parsed, "entities")) ==> r.entities == Get(parsed, "entities").value.elems
    ensures !IsArray(Get(parsed, "entities")) ==> r.entities == []
    ensures Truthy(Get(parsed, "suggestedNotebookTitle")) ==>
              r.suggestedNotebookTitle == Get(parsed, "suggestedNotebookTitle").value
    ensures !Truthy(Get(parsed, "suggestedNotebookTitle")) ==> r.suggestedNotebookTitle == JNull
    ensures r.suggestions == SuggestionsOf(Get(parsed, "suggestions"))
  {
    var entities := Get(parsed, "entities");
    RegenerateResponse(
      sessionId,
      Or(Get(parsed, "sessionSummary"), JStr("")),
      Or(Get(parsed, "sessionCategory"), JStr("other")),
      if IsArray(entities) then entities.value.elems else [],
      Or(Get(parsed, "suggestedNotebookTitle"), JNull),
      SuggestionsOf(Get(parsed, "suggestions")))
  }

  /** The wire form of a response. */
  function EncodeResponse(r: RegenerateResponse): Json
  {
    JObj(map[
      "sessionId" := r.sessionId,
      "sessionSummary" := r.sessionSummary,
      "sessionCategory" := r.sessionCategory,
      "entities" := JArr(r.entities),
      "suggestedNotebookTitle" := r.suggestedNotebookTitle,
      "suggestions" := JArr(EncodeAll(r.suggestions))])
  }

  /** Normalisation is idempotent: a normalised response, fed back as the
      generator's answer, normalises to itself. */
  lemma NormaliseIdempotent(r: RegenerateResponse)
    requires Normalised(r)
    ensures Normalise(EncodeResponse(r), r.sessionId) == r
  {
    var j := EncodeResponse(r);
    assert Get(j, "sessionSummary") == Some(r.sessionSummary);
    assert Get(j, "sessionCategory") == Some(r.sessionCategory);
    assert Get(j, "entities") == Some(JArr(r.entities));
    assert Get(j, "suggestedNotebookTitle") == Some(r.suggestedNotebookTitle);
    assert Get(j, "suggestions") == Some(JArr(EncodeAll(r.suggestions)));
    ValidatedEncodeAll(r.suggestions);
  }

  /** The neutral response is what an empty answer normalises to, and it is a
      normalised response itself. */
  lemma FallbackIsEmptyAnswer(sessionId: Json)
    ensures Normalise(JObj(map[]), sessionId) == Fallback(sessionId)
    ensures Normalised(Fallback(sessionId))
  {
  }

  /** `analyzeSession`: no key, a thrown call, a non-ok status, an answer with no
      text, unparsable text and a `null` answer (whose first property read throws)
      all give the neutral response; anything else is normalised. */
  function AnalyzeSession(
    req: RegenerateRequest,
    apiKey: Option<string>,
    service: string -> Outcome,
    parse: string -> Option<Json>,
    stringify: seq<Json> -> string): (r: RegenerateResponse)
    ensures r.sessionId == req.sessionId
    ensures Normalised(r)
    ensures !HasKey(apiKey) ==> r == Fallback(req.sessionId)
    ensures HasKey(apiKey) ==>
              var outcome := service(RegeneratePrompt(req, stringify));
              && (outcome.Threw? || outcome.HttpError? ==> r == Fallback(req.sessionId))
              && (outcome == Answered("") ==> r == Fallback(req.sessionId))
              && (outcome.Answered? && parse(outcome.text) == None ==> r == Fallback(req.sessionId))
              && (outcome.Answered? && parse(outcome.text) == Some(JNull) ==> r == Fallback(req.sessionId))
              && (outcome.Answered? && outcome.text != "" && parse(outcome.text).Some?
                  && parse(outcome.text).value != JNull ==>
                    r == Normalise(parse(outcome.text).value, req.sessionId))
  {
    if !HasKey(apiKey) then Fallback(req.sessionId)
    else
      match service(RegeneratePrompt(req, stringify))
      case Threw => Fallback(req.sessionId)
      case HttpError(_) => Fallback(req.sessionId)
      case Answered(text) =>
        if text == "" then Fallback(req.sessionId)
        else
          match parse(text)
          case None => Fallback(req.sessionId)
          case Some(parsed) =>
            if parsed == JNull then Fallback(req.sessionId) else Normalise(parsed, req.sessionId)
  }

  /* ---------------------------------------------------------------------- */
  /* The POST handler                                                        */
  /* ---------------------------------------------------------------------- */

  /** The `screens` field of a request body: an array of screens, or anything
      else (missing, `null`, not an array). */
  datatype ScreensField = NotAnArray | ScreenList(items: seq<ScreenInput>)

  /** A request body as `request.json()` yields it. */
  datatype RequestBody =
    | InvalidJson
    | NullBody
    | Body(sessionId: Option<Json>, previousSession: Option<PreviousSession>, screens: ScreensField)

  datatype RegenerateReply = Ok(response: RegenerateResponse) | BadRequest(error: string)

  function Status(r: RegenerateReply): int
  {
    if r.Ok? then 200 else 400
  }

  predicate HasScreens(f: ScreensField)
  {
    f.ScreenList? && |f.items| > 0
  }

  /** `POST`: a falsy `sessionId` is rejected first, then a missing, non-array or
      empty `screens`; a body that is not JSON, or is `null`, makes the handler
      throw, and its catch answers the neutral response for session `'unknown'`. */
  function Post(
    body: RequestBody,
    apiKey: Option<string>,
    service: string -> Outcome,
    parse: string -> Option<Json>,
    stringify: seq<Json> -> string): (r: RegenerateReply)
    ensures !body.Body? ==> r == Ok(Fallback(JStr("unknown")))
    ensures body.Body? && !Truthy(body.sessionId) ==>
              r == BadRequest("Missing required field: sessionId")
    ensures body.Body? && Truthy(body.sessionId) && !HasScreens(body.screens) ==>
              r == BadRequest("Missing or empty required field: screens")
    ensures r.BadRequest? <==> body.Body? && (!Truthy(body.sessionId) || !HasScreens(body.screens))
    ensures r.Ok? ==> Normalised(r.response)
    ensures body.Body? && Truthy(body.sessionId) && HasScreens(body.screens) ==>
              r.Ok? && r.response.sessionId == body.sessionId.value
  {
    match body
    case InvalidJson => Ok(Fallback(JStr("unknown")))
    case NullBody => Ok(Fallback(JStr("unknown")))
    case Body(sessionId, previous, screens) =>
      if !Truthy(sessionId) then BadRequest("Missing required field: sessionId")
      else if !HasScreens(screens) then BadRequest("Missing or empty required field: screens")
      else
        var req := RegenerateRequest(sessionId.value, previous, screens.items);
        Ok(AnalyzeSession(req, apiKey, service, parse, stringify))
  }
}
