/** The chat panel (components/SessionChatPanel.tsx): an append-only message
    log, the input box, a loading flag and an error line. A send trims the
    input, logs the question, and logs exactly one assistant message once the
    exchange with the server has ended. */
module SessionChatPanel {
  import opened Wrappers
  import opened Json
  import opened Text

  datatype Role = User | Assistant

  /** A logged message. The content of an assistant message is whatever the
      answer extraction yields, so it is a JSON value; ids and timestamps are
      not modelled. */
  datatype ChatMessage = ChatMessage(role: Role, content: Json)

  /** How one exchange with the server ended: the request threw (with the
      error's message when it is an `Error`), or a response arrived with its
      status flag, status text and raw body. */
  datatype Exchange =
    | Threw(message: Option<string>)
    | Responded(ok: bool, statusText: string, body: string)

  /** How many characters of an unparsable body are shown. */
  const RawLimit: nat := 500

  const Apology: string := "\U{274C} Sorry, I encountered an error processing your question. Please try again."

  const NoAnswer: string := "No answer provided"

  /** The answer text of a successful response: `data.answer || data.response ||
      'No answer provided'`, and the first 500 characters of the raw body when it
      does not parse or parses to `null` (whose property read throws). */
  function ExtractAnswer(raw: string, parse: string -> Option<Json>): (r: Json)
    ensures parse(raw) == None || parse(raw) == Some(JNull) ==>
              r == JStr(Prefix(raw, RawLimit)) && |r.s| <= RawLimit
    ensures parse(raw).Some? && parse(raw).value != JNull ==>
              var data := parse(raw).value;
              && (Truthy(Get(data, "answer")) ==> r == Get(data, "answer").value)
              && (!Truthy(Get(data, "answer")) && Truthy(Get(data, "response")) ==> r == Get(data, "response").value)
              && (!Truthy(Get(data, "answer")) && !Truthy(Get(data, "response")) ==> r == JStr(NoAnswer))
    ensures parse(raw).Some? && parse(raw).value != JNull ==> TruthyValue(r)
  {
    match parse(raw)
    case None => JStr(Prefix(raw, RawLimit))
    case Some(data) =>
      if data == JNull then JStr(Prefix(raw, RawLimit))
      else Or(Get(data, "answer"), Or(Get(data, "response"), JStr(NoAnswer)))
  }

  /** The assistant message an exchange produces: the apology for a thrown
      request or a non-ok status, the extracted answer otherwise. */
  function AssistantContent(exchange: Exchange, parse: string -> Option<Json>): (r: Json)
    ensures exchange.Threw? || !exchange.ok ==> r == JStr(Apology)
    ensures exchange.Responded? && exchange.ok ==> r == ExtractAnswer(exchange.body, parse)
  {
    match exchange
    case Threw(_) => JStr(Apology)
    case Responded(ok, _, body) => if ok then ExtractAnswer(body, parse) else JStr(Apology)
  }

  /** The error line an exchange sets, if any: the thrown error's message (or
      `'Failed to send message'` for a non-`Error` value), and for a non-ok
      status the message of the error the panel throws itself. */
  function ErrorOf(exchange: Exchange): (r: Option<string>)
    ensures r.None? <==> exchange.Responded? && exchange.ok
  {
    match exchange
    case Threw(message) => Some(if message.Some? then message.value else "Failed to send message")
    case Responded(ok, statusText, _) => if ok then None else Some("Failed to send message: " + statusText)
  }

  /** Roles alternate, user first: every question is followed by its answer. */
  predicate Alternating(messages: seq<ChatMessage>)
  {
    forall i :: 0 <= i < |messages| ==> messages[i].role == (if i % 2 == 0 then User else Assistant)
  }

  /** Appending a question and its answer to an alternating, even-length log
      keeps it alternating. */
  lemma AlternatingAppendPair(messages: seq<ChatMessage>, question: ChatMessage, answer: ChatMessage)
    requires Alternating(messages) && |messages| % 2 == 0
    requires question.role == User && answer.role == Assistant
    ensures Alternating(messages + [question] + [answer])
    ensures |messages + [question] + [answer]| % 2 == 0
  {
    AlternatingSnoc(messages, question);
    AlternatingSnoc(messages + [question], answer);
  }

  /** A message whose role is the one due next keeps the log alternating. */
  lemma AlternatingSnoc(messages: seq<ChatMessage>, m: ChatMessage)
    requires Alternating(messages)
    requires m.role == (if |messages| % 2 == 0 then User else Assistant)
    ensures Alternating(messages + [m])
  {
    var all := messages + [m];
    forall i | 0 <= i < |all|
      ensures all[i].role == (if i % 2 == 0 then User else Assistant)
    {
      if i < |messages| {
        assert all[i] == messages[i];
      }
    }
  }

  class ChatPanel {
    var messages: seq<ChatMessage>
    var inputValue: string
    var isLoading: bool
    var error: Option<string>

    /** Between sends the log is a run of question/answer pairs; while a send
        is in flight it ends with the pending question. */
    predicate Valid()
      reads this
    {
      && Alternating(messages)
      && |messages| % 2 == (if isLoading then 1 else 0)
    }

    /** The initial state: no messages, empty input, idle, no error. */
    constructor()
      ensures messages == [] && inputValue == "" && !isLoading && error == None
      ensures Valid()
    {
      messages := [];
      inputValue := "";
      isLoading := false;
      error := None;
    }

    /** Typing into the input box. */
    method SetInput(text: string)
      modifies this
      ensures inputValue == text
      ensures messages == old(messages) && isLoading == old(isLoading) && error == old(error)
    {
      inputValue := text;
    }

    /** A clicked suggestion question pre-fills the input when it is truthy. */
    method Prefill(question: Option<string>)
      modifies this
      ensures question.Some? && question.value != "" ==> inputValue == question.value
      ensures !(question.Some? && question.value != "") ==> inputValue == old(inputValue)
      ensures messages == old(messages) && isLoading == old(isLoading) && error == old(error)
    {
      if question.Some? && question.value != "" {
        inputValue := question.value;
      }
    }

    /** The first half of `handleSend`: input that is empty after trimming does
        nothing; otherwise the trimmed question is logged, the input cleared,
        loading set and the error cleared. The input is disabled while loading. */
    method BeginSend() returns (question: Option<string>)
      requires Valid() && !isLoading
      modifies this
      ensures Trim(old(inputValue)) == "" ==> question == None
      ensures Trim(old(inputValue)) == "" ==>
                messages == old(messages) && inputValue == old(inputValue) && !isLoading && error == old(error)
      ensures Trim(old(inputValue)) != "" ==>
                && question == Some(Trim(old(inputValue)))
                && messages == old(messages) + [ChatMessage(User, JStr(Trim(old(inputValue))))]
                && inputValue == "" && isLoading && error == None
      ensures Valid()
    {
      var q := Trim(inputValue);
      if q == "" {
        return None;
      }
      AlternatingSnoc(messages, ChatMessage(User, JStr(q)));
      messages := messages + [ChatMessage(User, JStr(q))];
      inputValue := "";
      isLoading := true;
      error := None;
      question := Some(q);
    }

    /** The second half of `handleSend`, once the exchange has ended: exactly
        one assistant message is appended, the error is set on failure, and
        loading ends. */
    method FinishSend(exchange: Exchange, parse: string -> Option<Json>)
      requires Valid() && isLoading
      modifies this
      ensures messages == old(messages) + [ChatMessage(Assistant, AssistantContent(exchange, parse))]
      ensures ErrorOf(exchange).Some? ==> error == ErrorOf(exchange)
      ensures ErrorOf(exchange).None? ==> error == old(error)
      ensures !isLoading && inputValue == old(inputValue)
      ensures Valid()
    {
      var content: Json;
      match exchange {
        case Threw(_) =>
          error := ErrorOf(exchange);
          content := JStr(Apology);
        case Responded(ok, _, body) =>
          if !ok {
            error := ErrorOf(exchange);
            content := JStr(Apology);
          } else {
            content := ExtractAnswer(body, parse);
          }
      }
      AlternatingSnoc(messages, ChatMessage(Assistant, content));
      messages := messages + [ChatMessage(Assistant, content)];
      isLoading := false;
    }

    /** `handleSend` with its exchange: nothing for blank input; otherwise the
        question and then its answer are appended to the unchanged earlier log. */
    method Send(exchange: Exchange, parse: string -> Option<Json>) returns (sent: bool)
      requires Valid() && !isLoading
      modifies this
      ensures sent <==> Trim(old(inputValue)) != ""
      ensures !sent ==> messages == old(messages) && inputValue == old(inputValue) && error == old(error)
      ensures sent ==>
                && messages == old(messages) + [ChatMessage(User, JStr(Trim(old(inputValue)))),
                                                ChatMessage(Assistant, AssistantContent(exchange, parse))]
                && inputValue == ""
                && error == ErrorOf(exchange)
      ensures !isLoading && Valid()
    {
      var question := BeginSend();
      sent := question.Some?;
      if sent {
        FinishSend(exchange, parse);
      }
    }
  }
}
