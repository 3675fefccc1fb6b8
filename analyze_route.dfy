/** The screenshot-analysis route (app/api/analyze/route.ts): it strips a data-URL
    prefix from the uploaded image, asks the generation service for the OCR text
    and the most prominent hotel listing, and normalises the answer so that every
    entity field is either a truthy value or `null`. Without a key it answers a
    fixed mock analysis. */
module AnalyzeRoute {
  import opened Wrappers
  import opened Json
  import opened Text
  import opened Generation

  /** The normalised hotel entity; `entityType` is the source's `type` field. */
  datatype EntityOutput = EntityOutput(
    entityType: string,
    name: Json,
    price: Json,
    rating: Json,
    location: Json,
    url: Json)

  datatype AnalyzeResponse = AnalyzeResponse(rawText: Json, entity: EntityOutput)

  /** Why the analysis threw; `POST` answers every one of them with 500. */
  datatype AnalyzeError =
    | InvalidRequestJson   // `request.json()` rejected the body
    | TypeError            // a property read on `null`, or a string method on a non-string
    | Unreachable          // the service call itself threw
    | ApiError(status: int)
    | NoContent
    | UnparsableAnswer

  datatype AnalyzeResult = Analyzed(response: AnalyzeResponse) | Failed(error: AnalyzeError)

  /** The analysis returned when no key is configured. */
  const Mock: AnalyzeResponse := AnalyzeResponse(
    JStr("Hotel Deluxe\n5 Star Rating\n$299/night\nSan Francisco, CA\nwww.hoteldeluxe.com"),
    EntityOutput("hotel", JStr("Hotel Deluxe"), JStr("$299/night"), JStr("5 Star"),
                 JStr("San Francisco, CA"), JStr("www.hoteldeluxe.com")))

  /** `s.includes(',') ? s.split(',')[1] : s`: the text between the first comma
      and the next comma (or the end), and the whole text when it has no comma. */
  function StripDataUrlPrefix(s: string): (r: string)
    ensures ',' !in s ==> r == s
    ensures ',' in s ==>
              var k := IndexOf(s, ',');
              && k + 1 + |r| <= |s|
              && r == s[k + 1..k + 1 + |r|]
              && ',' !in r
              && (k + 1 + |r| == |s| || s[k + 1 + |r|] == ',')
  {
    var k := IndexOf(s, ',');
    if k == |s| then s
    else
      var rest := s[k + 1..];
      rest[..IndexOf(rest, ',')]
  }

  /** A data URL loses exactly its header: for a header and a payload without
      commas, the payload comes back. */
  lemma StripDataUrl(header: string, payload: string)
    requires ',' !in header && ',' !in payload
    ensures StripDataUrlPrefix(header + "," + payload) == payload
  {
    var s := header + "," + payload;
    assert s[|header|] == ',';
    assert forall i :: 0 <= i < |header| ==> s[i] == header[i];
    assert IndexOf(s, ',') == |header|;
    assert s[|header| + 1..] == payload;
  }

  /** Stripping is idempotent: its result never has a comma. */
  lemma StripIdempotent(s: string)
    ensures StripDataUrlPrefix(StripDataUrlPrefix(s)) == StripDataUrlPrefix(s)
  {
  }

  /** `parsed.entity?.<field> || null`. */
  function EntityField(parsed: Json, field: string): (r: Json)
    ensures Truthy(GetOpt(Get(parsed, "entity"), field)) ==> r == GetOpt(Get(parsed, "entity"), field).value
    ensures !Truthy(GetOpt(Get(parsed, "entity"), field)) ==> r == JNull
    ensures TruthyOrNull(r)
  {
    Or(GetOpt(Get(parsed, "entity"), field), JNull)
  }

  /** The normalisation of a parsed (non-null) answer. */
  function Normalise(parsed: Json): (r: AnalyzeResponse)
    ensures r.entity.entityType == "hotel"
    ensures forall f :: f in {"name", "price", "rating", "location", "url"} ==>
              (Truthy(GetOpt(Get(parsed, "entity"), f)) ==> EntityField(parsed, f) == GetOpt(Get(parsed, "entity"), f).value)
              && (!Truthy(GetOpt(Get(parsed, "entity"), f)) ==> EntityField(parsed, f) == JNull)
    ensures r.entity.name == EntityField(parsed, "name")
    ensures r.entity.price == EntityField(parsed, "price")
    ensures r.entity.rating == EntityField(parsed, "rating")
    ensures r.entity.location == EntityField(parsed, "location")
    ensures r.entity.url == EntityField(parsed, "url")
    ensures Truthy(Get(parsed, "rawText")) ==> r.rawText == Get(parsed, "rawText").value
    ensures !Truthy(Get(parsed, "rawText")) ==> r.rawText == JStr("")
  {
    var entity := EntityOutput(
      "hotel",
      EntityField(parsed, "name"),
      EntityField(parsed, "price"),
      EntityField(parsed, "rating"),
      EntityField(parsed, "location"),
      EntityField(parsed, "url"));
    AnalyzeResponse(Or(Get(parsed, "rawText"), JStr("")), entity)
  }

  /** A field that is a truthy value or `null`. */
  predicate TruthyOrNull(j: Json)
  {
    TruthyValue(j) || j == JNull
  }

  /** The shape of every analysis the route returns. */
  predicate Normalised(r: AnalyzeResponse)
  {
    && r.entity.entityType == "hotel"
    && TruthyOrNull(r.entity.name)
    && TruthyOrNull(r.entity.price)
    && TruthyOrNull(r.entity.rating)
    && TruthyOrNull(r.entity.location)
    && TruthyOrNull(r.entity.url)
    && (TruthyValue(r.rawText) || r.rawText == JStr(""))
  }

  /** Normalisation always produces the normalised shape. */
  lemma NormaliseIsNormalised(parsed: Json)
    ensures Normalised(Normalise(parsed))
  {
  }

  /** The wire form of an analysis. */
  function EncodeResponse(r: AnalyzeResponse): Json
  {
    JObj(map[
      "rawText" := r.rawText,
      "entity" := JObj(map[
        "type" := JStr(r.entity.entityType),
        "name" := r.entity.name,
        "price" := r.entity.price,
        "rating" := r.entity.rating,
        "location" := r.entity.location,
        "url" := r.entity.url])])
  }

  /** Normalisation is idempotent: a normalised analysis, fed back as an answer,
      normalises to itself. */
  lemma NormaliseIdempotent(r: AnalyzeResponse)
    requires Normalised(r)
    ensures Normalise(EncodeResponse(r)) == r
  {
    var j := EncodeResponse(r);
    var e := Get(j, "entity").value;
    assert Get(j, "rawText") == Some(r.rawText);
    assert GetOpt(Some(e), "name") == Some(r.entity.name);
    assert GetOpt(Some(e), "price") == Some(r.entity.price);
    assert GetOpt(Some(e), "rating") == Some(r.entity.rating);
    assert GetOpt(Some(e), "location") == Some(r.entity.location);
    assert GetOpt(Some(e), "url") == Some(r.entity.url);
  }

  /** The mock analysis has the shape of a real one. */
  lemma MockIsNormalised()
    ensures Normalised(Mock)
    ensures Normalise(EncodeResponse(Mock)) == Mock
  {
    NormaliseIdempotent(Mock);
  }

  /** `callGemini`: the mock without a key; otherwise the image must be a string
      (its `includes` is called), its payload goes to the service, and a thrown
      call, a non-ok status, an empty answer, an unparsable answer or a `null`
      answer fail. */
  function CallGemini(
    image: Json,
    apiKey: Option<string>,
    service: string -> Outcome,
    parse: string -> Option<Json>): (r: AnalyzeResult)
    ensures !HasKey(apiKey) ==> r == Analyzed(Mock)
    ensures HasKey(apiKey) && !image.JStr? ==> r == Failed(TypeError)
    ensures HasKey(apiKey) && image.JStr? ==>
              var outcome := service(StripDataUrlPrefix(image.s));
              && (outcome == Threw ==> r == Failed(Unreachable))
              && (outcome.HttpError? ==> r == Failed(ApiError(outcome.status)))
              && (outcome == Answered("") ==> r == Failed(NoContent))
              && (outcome.Answered? && outcome.text != "" ==>
                    && (parse(outcome.text) == None ==> r == Failed(UnparsableAnswer))
                    && (parse(outcome.text) == Some(JNull) ==> r == Failed(TypeError))
                    && (parse(outcome.text).Some? && parse(outcome.text).value != JNull ==>
                          r == Analyzed(Normalise(parse(outcome.text).value))))
    ensures r.Analyzed? ==> Normalised(r.response)
  {
    if !HasKey(apiKey) then
      MockIsNormalised();
      Analyzed(Mock)
    else if !image.JStr? then Failed(TypeError)
    else
      match service(StripDataUrlPrefix(image.s))
      case Threw => Failed(Unreachable)
      case HttpError(status) => Failed(ApiError(status))
      case Answered(text) =>
        if text == "" then Failed(NoContent)
        else
          match parse(text)
          case None => Failed(UnparsableAnswer)
          case Some(parsed) =>
            if parsed == JNull then Failed(TypeError)
            else
              NormaliseIsNormalised(parsed);
              Analyzed(Normalise(parsed))
  }

  /** A request body as `request.json()` yields it. */
  datatype AnalyzeBody = InvalidJson | NullBody | Body(image: Option<Json>)

  /** 200 with the analysis, or an error status; a 500 carries why it failed. */
  datatype AnalyzeReply =
    | Ok(response: AnalyzeResponse)
    | Failure(status: int, error: string, cause: Option<AnalyzeError>)

  /** `POST`: a falsy `image` is rejected with 400 before any analysis; every
      thrown error, including an invalid or `null` body, becomes 500. */
  function Post(
    body: AnalyzeBody,
    apiKey: Option<string>,
    service: string -> Outcome,
    parse: string -> Option<Json>): (r: AnalyzeReply)
    ensures body.InvalidJson? ==> r == Failure(500, "Failed to analyze image", Some(InvalidRequestJson))
    ensures body.NullBody? ==> r == Failure(500, "Failed to analyze image", Some(TypeError))
    ensures body.Body? && !Truthy(body.image) ==> r == Failure(400, "Missing required field: image", None)
    ensures body.Body? && Truthy(body.image) ==>
              var result := CallGemini(body.image.value, apiKey, service, parse);
              && (result.Analyzed? ==> r == Ok(result.response))
              && (result.Failed? ==> r == Failure(500, "Failed to analyze image", Some(result.error)))
    ensures r.Ok? ==> Normalised(r.response)
    ensures r.Failure? ==> r.status in {400, 500}
  {
    match body
    case InvalidJson => Failure(500, "Failed to analyze image", Some(InvalidRequestJson))
    case NullBody => Failure(500, "Failed to analyze image", Some(TypeError))
    case Body(image) =>
      if !Truthy(image) then Failure(400, "Missing required field: image", None)
      else
        match CallGemini(image.value, apiKey, service, parse)
        case Analyzed(response) => Ok(response)
        case Failed(error) => Failure(500, "Failed to analyze image", Some(error))
  }
}
