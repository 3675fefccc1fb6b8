/** The chat route (app/api/chat/route.ts): it builds an edit-or-question prompt
    from the user's message, the current markdown note and optional session
    context, strips code fences from the generator's answer, checks its
    structure, and otherwise answers a canned reply that leaves the note as it was. */
module ChatRoute {
  import opened Wrappers
  import opened Json
  import opened Text
  import opened Generation

  datatype ScreenshotContext = ScreenshotContext(id: string, rawText: string, summary: string)

  /** The optional context; an absent field is `None`. */
  datatype ChatContext = ChatContext(
    screenshots: Option<seq<ScreenshotContext>>,
    sessionName: Option<string>,
    sessionCategory: Option<string>)

  /* ---------------------------------------------------------------------- */
  /* Prompt assembly                                                         */
  /* ---------------------------------------------------------------------- */

  /** How many characters of a screenshot's OCR text enter the prompt. */
  const OcrLimit: nat := 500

  /** The fixed instructions that open the prompt, up to the current note
      (wording abbreviated). */
  const HeadInstructions: string :=
    "You are an AI assistant helping a user manage their markdown notes and research sessions.\n\n"
    + "Decide if the user's message is an EDIT COMMAND or a QUESTION.\n"
    + "When ambiguous, treat as QUESTION (do not modify).\n\n"
    + "## Current Note (Markdown):\n\n"

  /** The response format and rules that close the prompt (wording abbreviated). */
  const Tail: string :=
    "\n\n## Response Format\n\nYou MUST respond with ONLY a JSON object: "
    + "reply, updatedNote, noteWasModified\n\n"
    + "CRITICAL: Return ONLY the JSON object. No backticks, no explanations, no extra text."

  /** The opening of the prompt: instructions, the note and the quoted message. */
  function Head(userMessage: string, currentNote: string): string
  {
    HeadInstructions + currentNote + "\n\n## User Message:\n\n\"" + userMessage + "\"\n"
  }

  /** `!!s` for an optional string field. */
  predicate Present(s: Option<string>)
  {
    s.Some? && s.value != ""
  }

  function NameLine(name: string): string
  {
    "\n\n## Session Info:\n- Name: " + name
  }

  function CategoryLine(category: string): string
  {
    "\n- Category: " + category
  }

  const ShotsHeader: string := "\n\n## Screenshot Context:"

  /** The OCR line, only for a screenshot whose raw text is not empty. */
  function OcrLine(rawText: string): string
  {
    if rawText != "" then "\nOCR Text: " + Truncate(rawText, OcrLimit) else ""
  }

  /** The block of the screenshot at 0-based position `idx`, numbered from 1. */
  function ShotBlock(idx: nat, shot: ScreenshotContext): string
  {
    "\n\n### Screenshot " + NatToString(idx + 1) + " (" + shot.id + "):"
    + "\nSummary: " + shot.summary
    + OcrLine(shot.rawText)
  }

  /** The blocks of all screenshots, in order. */
  function ShotBlocks(shots: seq<ScreenshotContext>): string
  {
    Join(shots, ShotBlock)
  }

  /** The screenshot list is present and not empty. */
  predicate HasShots(ctx: ChatContext)
  {
    ctx.screenshots.Some? && |ctx.screenshots.value| > 0
  }

  /** The name line, only for a truthy session name. */
  function NamePart(ctx: ChatContext): string
  {
    if Present(ctx.sessionName) then NameLine(ctx.sessionName.value) else ""
  }

  /** The category line, only for a truthy session category. */
  function CategoryPart(ctx: ChatContext): string
  {
    if Present(ctx.sessionCategory) then CategoryLine(ctx.sessionCategory.value) else ""
  }

  /** The screenshot section, only for a non-empty screenshot list. */
  function ShotsPart(ctx: ChatContext): string
  {
    if HasShots(ctx) then ShotsHeader + ShotBlocks(ctx.screenshots.value) else ""
  }

  /** What a context adds to the prompt. */
  function ContextSection(ctx: ChatContext): string
  {
    (NamePart(ctx) + CategoryPart(ctx)) + ShotsPart(ctx)
  }

  /** The prompt `buildPrompt` returns. */
  function ChatPrompt(userMessage: string, currentNote: string, context: Option<ChatContext>): string
  {
    Head(userMessage, currentNote)
    + (if context.Some? then ContextSection(context.value) else "")
    + Tail
  }

  /** `buildPrompt`: `let prompt = ...`, then `prompt +=` under each condition
      and once per screenshot inside `forEach`, then the closing rules. */
  method BuildPrompt(userMessage: string, currentNote: string, context: Option<ChatContext>)
    returns (prompt: string)
    ensures prompt == ChatPrompt(userMessage, currentNote, context)
  {
    prompt := Head(userMessage, currentNote);
    if context.Some? {
      prompt := AppendContext(prompt, context.value);
    } else {
      AppendEmpty(prompt);
    }
    prompt := prompt + Tail;
  }

  /** The `if (context)` part of `buildPrompt`: the name line, the category
      line and the screenshot section, each under its own condition. */
  method AppendContext(start: string, ctx: ChatContext) returns (prompt: string)
    ensures prompt == start + ContextSection(ctx)
  {
    prompt := start;
    if Present(ctx.sessionName) {
      prompt := prompt + NameLine(ctx.sessionName.value);
    }
    assert prompt == start + NamePart(ctx);
    ghost var named := prompt;
    if Present(ctx.sessionCategory) {
      prompt := prompt + CategoryLine(ctx.sessionCategory.value);
    }
    assert prompt == named + CategoryPart(ctx);
    AppendAssoc(start, NamePart(ctx), CategoryPart(ctx));
    ghost var lines := prompt;
    if HasShots(ctx) {
      var shots := ctx.screenshots.value;
      prompt := AppendShotBlocks(prompt + ShotsHeader, shots);
      AppendAssoc(lines, ShotsHeader, ShotBlocks(shots));
    }
    assert prompt == lines + ShotsPart(ctx);
    AppendAssoc(start, NamePart(ctx) + CategoryPart(ctx), ShotsPart(ctx));
  }

  /** `context.screenshots.forEach(...)`: one block appended per screenshot,
      in order. */
  method AppendShotBlocks(start: string, shots: seq<ScreenshotContext>) returns (prompt: string)
    ensures prompt == start + ShotBlocks(shots)
  {
    prompt := start;
    var i := 0;
    while i < |shots|
      invariant 0 <= i <= |shots|
      invariant prompt == start + ShotBlocks(shots[..i])
    {
      var block := ShotBlock(i, shots[i]);
      JoinSnoc(shots, i, ShotBlock);
      AppendAssoc(start, ShotBlocks(shots[..i]), block);
      prompt := prompt + block;
      i := i + 1;
    }
    assert shots[..i] == shots;
  }

  /** Screenshots are listed in order with 1-based numbering: the block of the
      screenshot at position `k` follows the blocks of those before it. */
  lemma ShotBlockAt(shots: seq<ScreenshotContext>, k: nat)
    requires k < |shots|
    ensures var off := |ShotBlocks(shots[..k])|;
      var block := ShotBlock(k, shots[k]);
      && off + |block| <= |ShotBlocks(shots)|
      && ShotBlocks(shots)[off..off + |block|] == block
  {
    JoinAt(shots, k, ShotBlock);
  }

  /** A context whose name and category are falsy and whose screenshot list is
      missing or empty adds nothing: the prompt is the one built without context. */
  lemma EmptyContextAddsNothing(userMessage: string, currentNote: string, ctx: ChatContext)
    requires !Present(ctx.sessionName) && !Present(ctx.sessionCategory) && !HasShots(ctx)
    ensures ChatPrompt(userMessage, currentNote, Some(ctx)) == ChatPrompt(userMessage, currentNote, None)
  {
    assert ContextSection(ctx) == "";
  }

  /** The OCR line is absent for empty text, and otherwise carries the text cut
      to 500 characters, with `'...'` exactly when it was longer. */
  lemma OcrLineSpec(rawText: string)
    ensures rawText == "" ==> OcrLine(rawText) == ""
    ensures rawText != "" && |rawText| <= OcrLimit ==> OcrLine(rawText) == "\nOCR Text: " + rawText
    ensures |rawText| > OcrLimit ==> OcrLine(rawText) == "\nOCR Text: " + rawText[..OcrLimit] + "..."
  {
    TruncateSpec(rawText, OcrLimit);
  }

  /* ---------------------------------------------------------------------- */
  /* Code-fence stripping                                                    */
  /* ---------------------------------------------------------------------- */

  const JsonFence: string := "```json"
  const Fence: string := "```"

  /** `marker` starts `s`. */
  predicate StartsWith(s: string, marker: string)
  {
    |marker| <= |s| && s[..|marker|] == marker
  }

  /** `s.replace(/<marker>\n?/g, '')`: scanning from the left, every occurrence
      of `marker` is removed together with one newline right after it. */
  function StripMarker(s: string, marker: string): (r: string)
    requires marker != []
    ensures |r| <= |s|
    ensures forall c :: c in r ==> c in s
    ensures marker[0] !in s ==> r == s
    ensures IsSubsequence(r, s)
    decreases |s|
  {
    if s == [] then []
    else if StartsWith(s, marker) then
      var rest := s[|marker|..];
      if rest != [] && rest[0] == '\n' then
        var r := StripMarker(rest[1..], marker);
        assert s[|marker| + 1..] == rest[1..];
        SubsequenceOfSuffix(r, s, |marker| + 1);
        r
      else
        var r := StripMarker(rest, marker);
        SubsequenceOfSuffix(r, s, |marker|);
        r
    else
      var tail := StripMarker(s[1..], marker);
      var r := [s[0]] + tail;
      assert r[1..] == tail;
      r
  }

  /** The cleaned answer text of `callGemini`. */
  function CleanResponse(s: string): (r: string)
    ensures |r| <= |s|
    ensures NoFence(r)
  {
    var t := StripMarker(StripMarker(s, JsonFence), Fence);
    StripLeavesNoFence(StripMarker(s, JsonFence));
    TrimKeepsNoFence(t);
    Trim(t)
  }

  /** Three backticks start at position `i` of `s`. */
  predicate FenceAt(s: string, i: int)
  {
    0 <= i && i + 3 <= |s| && s[i] == '`' && s[i + 1] == '`' && s[i + 2] == '`'
  }

  /** No three consecutive backticks anywhere in `s`. */
  predicate NoFence(s: string)
  {
    forall i :: 0 <= i < |s| ==> !FenceAt(s, i)
  }

  /** `s` starts with two backticks. */
  predicate DoubleTick(s: string)
  {
    |s| >= 2 && s[0] == '`' && s[1] == '`'
  }

  /** Text that does not start with a backtick keeps its first character. */
  lemma StripKeepsFirst(t: string)
    requires t != [] && t[0] != '`'
    ensures StripMarker(t, Fence) == [t[0]] + StripMarker(t[1..], Fence)
  {
    assert !StartsWith(t, Fence) by {
      if |Fence| <= |t| {
        assert t[..|Fence|][0] == t[0];
      }
    }
  }

  /** A pass cannot make text start with two backticks that did not before. */
  lemma StripNoDoubleTick(t: string)
    requires !DoubleTick(t)
    ensures !DoubleTick(StripMarker(t, Fence))
  {
    if t != [] {
      if t[0] != '`' {
        StripKeepsFirst(t);
      } else {
        assert !StartsWith(t, Fence) by {
          if |Fence| <= |t| {
            assert t[..|Fence|][1] == t[1];
          }
        }
        var u := t[1..];
        assert StripMarker(t, Fence) == [t[0]] + StripMarker(u, Fence);
        if u != [] {
          StripKeepsFirst(u);
        }
      }
    }
  }

  /** After the second pass no fence marker is left anywhere. */
  lemma {:induction false} StripLeavesNoFence(s: string)
    ensures NoFence(StripMarker(s, Fence))
    decreases |s|
  {
    if s == [] {
    } else if StartsWith(s, Fence) {
      var rest := s[|Fence|..];
      if rest != [] && rest[0] == '\n' {
        StripLeavesNoFence(rest[1..]);
      } else {
        StripLeavesNoFence(rest);
      }
    } else {
      var tail := StripMarker(s[1..], Fence);
      StripLeavesNoFence(s[1..]);
      var r := [s[0]] + tail;
      assert StripMarker(s, Fence) == r;
      if s[0] == '`' {
        // s does not start with three backticks, so what follows its first
        // character does not start with two, before or after the pass.
        assert !DoubleTick(s[1..]);
        StripNoDoubleTick(s[1..]);
      }
      forall i | 0 <= i < |r|
        ensures !FenceAt(r, i)
      {
        if i > 0 && FenceAt(r, i) {
          assert FenceAt(tail, i - 1);
        }
      }
    }
  }

  /** Trimming cannot create a fence marker. */
  lemma TrimKeepsNoFence(t: string)
    requires NoFence(t)
    ensures NoFence(Trim(t))
  {
    var k := TrimFrom(t);
    var r := Trim(t);
    assert forall j :: 0 <= j < |r| ==> r[j] == t[k + j];
    forall i | 0 <= i < |r|
      ensures !FenceAt(r, i)
    {
      assert !FenceAt(t, k + i);
    }
  }

  /** Text containing no backticks changes only by trimming. */
  lemma CleanWithoutBackticks(s: string)
    requires '`' !in s
    ensures CleanResponse(s) == Trim(s)
  {
  }

  /** Leading text without backticks is copied through a pass unchanged. */
  lemma {:induction false} StripAfterPlain(p: string, q: string, marker: string)
    requires marker != [] && marker[0] == '`' && '`' !in p
    ensures StripMarker(p + q, marker) == p + StripMarker(q, marker)
    decreases |p|
  {
    if p != [] {
      var s := p + q;
      assert s[0] == p[0];
      assert s != [];
      assert !StartsWith(s, marker) by {
        if |marker| <= |s| {
          assert s[..|marker|][0] == s[0];
        }
      }
      assert StripMarker(s, marker) == [s[0]] + StripMarker(s[1..], marker);
      assert s[1..] == p[1..] + q;
      StripAfterPlain(p[1..], q, marker);
      assert StripMarker(s, marker) == [p[0]] + (p[1..] + StripMarker(q, marker));
      assert [p[0]] + p[1..] == p;
      AppendAssoc([p[0]], p[1..], StripMarker(q, marker));
    } else {
      assert p + q == q;
    }
  }

  /** The case the stripping is for: a JSON text fenced as a `json` code block
      comes out exactly as it went in. */
  lemma CleanFencedJson(t: string)
    requires '`' !in t
    requires t == [] || (!IsWhitespace(t[0]) && !IsWhitespace(t[|t| - 1]))
    ensures CleanResponse("```json\n" + t + "\n```") == t
  {
    StripJsonFence(t);
    StripClosingFence(t);
    TrimNewlineAfter(t);
  }

  /** The first pass removes the opening `json` fence and its newline only. */
  lemma StripJsonFence(t: string)
    requires '`' !in t
    ensures StripMarker("```json\n" + t + "\n```", JsonFence) == (t + "\n") + "```"
  {
    var rest := (t + "\n") + "```";
    assert "```json\n" + t + "\n```" == JsonFence + "\n" + rest;
    StripMarkerAfterMarker(JsonFence, rest);
    StripAfterPlain(t + "\n", "```", JsonFence);
    StripShorterThanMarker("```", JsonFence);
  }

  /** A marker and the newline after it are removed together. */
  lemma StripMarkerAfterMarker(marker: string, rest: string)
    requires marker != []
    ensures StripMarker(marker + "\n" + rest, marker) == StripMarker(rest, marker)
  {
    var s := marker + "\n" + rest;
    assert s[..|marker|] == marker;
    assert s[|marker|..] == "\n" + rest;
    assert ("\n" + rest)[1..] == rest;
  }

  /** Text shorter than the marker cannot contain it. */
  lemma {:induction false} StripShorterThanMarker(s: string, marker: string)
    requires marker != [] && |s| < |marker|
    ensures StripMarker(s, marker) == s
    decreases |s|
  {
    if s != [] {
      StripShorterThanMarker(s[1..], marker);
      assert [s[0]] + s[1..] == s;
    }
  }

  /** The second pass removes the closing fence. */
  lemma StripClosingFence(t: string)
    requires '`' !in t
    ensures StripMarker((t + "\n") + "```", Fence) == t + "\n"
  {
    StripAfterPlain(t + "\n", "```", Fence);
    assert StripMarker("```", Fence) == "";
  }

  /** Trimming text followed by one newline gives back the text when it has no
      white space at either end. */
  lemma TrimNewlineAfter(t: string)
    requires t == [] || (!IsWhitespace(t[0]) && !IsWhitespace(t[|t| - 1]))
    ensures Trim(t + "\n") == t
  {
    var s := t + "\n";
    if t == [] {
      assert SkipForward(s, 1) == 1;
    } else {
      assert TrimFrom(s) == 0;
      assert s[|s| - 2] == t[|t| - 1];
      assert SkipBackward(s, 0, |s| - 1) == |t|;
      assert s[..|t|] == t;
    }
  }

  /* ---------------------------------------------------------------------- */
  /* Validation and the call                                                 */
  /* ---------------------------------------------------------------------- */

  /** The structural check of `callGemini`: `reply` is a string,
      `noteWasModified` a boolean, and a modified note comes with a truthy
      `updatedNote`. A `null` result fails on its first property read. */
  predicate ValidChatResult(parsed: Json)
  {
    && parsed != JNull
    && IsString(Get(parsed, "reply"))
    && IsBool(Get(parsed, "noteWasModified"))
    && (Get(parsed, "noteWasModified").value.b ==> Truthy(Get(parsed, "updatedNote")))
  }

  /** The checks of `callGemini`: the parsed result itself when it passes. */
  function ValidateChat(parsed: Json): (r: Option<Json>)
    ensures r.Some? ==> r.value == parsed
    ensures r.Some? <==> ValidChatResult(parsed)
    ensures !IsString(Get(parsed, "reply")) || !IsBool(Get(parsed, "noteWasModified")) ==> r == None
    ensures Get(parsed, "noteWasModified") == Some(JBool(true)) && !Truthy(Get(parsed, "updatedNote")) ==> r == None
  {
    if parsed == JNull then None
    else if !IsString(Get(parsed, "reply")) || !IsBool(Get(parsed, "noteWasModified")) then None
    else if Get(parsed, "noteWasModified").value.b && !Truthy(Get(parsed, "updatedNote")) then None
    else Some(parsed)
  }

  /** `callGemini`: the validated result, or `None` where it throws (a thrown
      call, a non-ok status, text that does not parse after cleaning, a failed check). */
  function CallGemini(prompt: string, service: string -> Outcome, parse: string -> Option<Json>): (r: Option<Json>)
    ensures !service(prompt).Answered? ==> r == None
    ensures service(prompt).Answered? ==>
              var parsed := parse(CleanResponse(service(prompt).text));
              && (parsed == None ==> r == None)
              && (parsed.Some? ==> r == ValidateChat(parsed.value))
    ensures r.Some? ==> ValidChatResult(r.value)
  {
    match service(prompt)
    case Threw => None
    case HttpError(_) => None
    case Answered(text) =>
      match parse(CleanResponse(text))
      case None => None
      case Some(parsed) => ValidateChat(parsed)
  }

  /** An answer fenced as a `json` block is parsed from exactly its inner text. */
  lemma CallGeminiReadsFencedAnswer(prompt: string, service: string -> Outcome, parse: string -> Option<Json>, t: string)
    requires service(prompt) == Answered("```json\n" + t + "\n```")
    requires '`' !in t
    requires t == [] || (!IsWhitespace(t[0]) && !IsWhitespace(t[|t| - 1]))
    requires parse(t).Some?
    ensures CallGemini(prompt, service, parse) == ValidateChat(parse(t).value)
  {
    CleanFencedJson(t);
  }

  /* ---------------------------------------------------------------------- */
  /* The POST handler                                                        */
  /* ---------------------------------------------------------------------- */

  const Apology: string := "Sorry, I couldn't process that request, but your note is unchanged."

  /** The canned reply: the apology, the note as it was, and no modification. */
  function FallbackBody(currentNote: string): Json
  {
    JObj(map[
      "reply" := JStr(Apology),
      "updatedNote" := JStr(currentNote),
      "noteWasModified" := JBool(false)])
  }

  /** The canned reply passes the route's own check and leaves the note unchanged. */
  lemma FallbackIsValid(currentNote: string)
    ensures ValidateChat(FallbackBody(currentNote)) == Some(FallbackBody(currentNote))
    ensures Get(FallbackBody(currentNote), "updatedNote") == Some(JStr(currentNote))
    ensures Get(FallbackBody(currentNote), "noteWasModified") == Some(JBool(false))
  {
    var j := FallbackBody(currentNote);
    assert Get(j, "reply") == Some(JStr(Apology));
    assert Get(j, "noteWasModified") == Some(JBool(false));
  }

  /** A request body as `request.json()` yields it. */
  datatype ChatBody =
    | InvalidJson
    | NullBody
    | Fields(sessionId: Option<Json>, userMessage: Option<Json>, currentNote: Option<Json>, context: Option<ChatContext>)

  /** A 200 reply with its JSON body, or an error status with `error` and an
      optional `message`. */
  datatype ChatReply =
    | Reply(body: Json)
    | Failure(status: int, error: string, message: Option<string>)

  /** `!v || typeof v !== 'string'` is false. */
  predicate NonEmptyString(v: Option<Json>)
  {
    IsString(v) && v.value.s != ""
  }

  /** `POST`: the key is checked first (500), then the body must be JSON (400);
      then `sessionId` and `userMessage` must be non-empty strings and
      `currentNote` a string (400 each, in that order). A `null` body makes the
      first field read throw, which the outer catch answers with 500. A failed
      call gives the canned reply; a validated result is returned as it is. */
  function Post(
    body: ChatBody,
    apiKey: Option<string>,
    service: string -> Outcome,
    parse: string -> Option<Json>): (r: ChatReply)
    ensures !HasKey(apiKey) ==> r == Failure(500, "Missing GEMINI_API_KEY", None)
    ensures HasKey(apiKey) && body.InvalidJson? ==>
              r == Failure(400, "Invalid request", Some("Request body must be valid JSON"))
    ensures HasKey(apiKey) && body.NullBody? ==> r == Failure(500, "Internal server error", None)
    ensures HasKey(apiKey) && body.Fields? && !NonEmptyString(body.sessionId) ==>
              r == Failure(400, "Invalid request", Some("sessionId is required and must be a string"))
    ensures HasKey(apiKey) && body.Fields? && NonEmptyString(body.sessionId)
            && !NonEmptyString(body.userMessage) ==>
              r == Failure(400, "Invalid request", Some("userMessage is required and must be a string"))
    ensures HasKey(apiKey) && body.Fields? && NonEmptyString(body.sessionId)
            && NonEmptyString(body.userMessage) && !IsString(body.currentNote) ==>
              r == Failure(400, "Invalid request", Some("currentNote is required and must be a string"))
    ensures r.Reply? <==> HasKey(apiKey) && body.Fields? && NonEmptyString(body.sessionId)
                          && NonEmptyString(body.userMessage) && IsString(body.currentNote)
    ensures r.Reply? ==> ValidChatResult(r.body)
    ensures r.Reply? ==>
              var prompt := ChatPrompt(body.userMessage.value.s, body.currentNote.value.s, body.context);
              var result := CallGemini(prompt, service, parse);
              && (result.Some? ==> r.body == result.value)
              && (result.None? ==> r.body == FallbackBody(body.currentNote.value.s))
  {
    if !HasKey(apiKey) then Failure(500, "Missing GEMINI_API_KEY", None)
    else
      match body
      case InvalidJson => Failure(400, "Invalid request", Some("Request body must be valid JSON"))
      case NullBody => Failure(500, "Internal server error", None)
      case Fields(sessionId, userMessage, currentNote, context) =>
        if !NonEmptyString(sessionId) then
          Failure(400, "Invalid request", Some("sessionId is required and must be a string"))
        else if !NonEmptyString(userMessage) then
          Failure(400, "Invalid request", Some("userMessage is required and must be a string"))
        else if !IsString(currentNote) then
          Failure(400, "Invalid request", Some("currentNote is required and must be a string"))
        else
          var prompt := ChatPrompt(userMessage.value.s, currentNote.value.s, context);
          match CallGemini(prompt, service, parse)
          case Some(result) => Reply(result)
          case None =>
            FallbackIsValid(currentNote.value.s);
            Reply(FallbackBody(currentNote.value.s))
  }

  /** The route does not put the original note back into an accepted answer: a
      question answered without `updatedNote` goes out without it. */
  lemma AcceptedAnswerMayOmitNote()
    ensures var answer := JObj(map["reply" := JStr("It costs $299."), "noteWasModified" := JBool(false)]);
      && ValidateChat(answer) == Some(answer)
      && Get(answer, "updatedNote") == None
  {
    var answer := JObj(map["reply" := JStr("It costs $299."), "noteWasModified" := JBool(false)]);
    assert Get(answer, "reply") == Some(JStr("It costs $299."));
    assert Get(answer, "noteWasModified") == Some(JBool(false));
  }
}
