/** frontend/src/pages/Home/Home.jsx: the page state (the uploaded document
    and the list of answers shown, newest first) and the normaliser that turns
    whatever the server replied into one answer card. The server call, the
    clock and the loading flags are left to the caller, and the alerts are
    returned to it; the JavaScript conversions `parseFloat` and `JSON.stringify` are parameters. */
module Home {
  import opened JsValues
  import opened Text

  const EmptyResponseMessage := "Empty response from server"
  const NotAStringMessage := "answerText.toLowerCase is not a function"
  const NoDocumentMessage := "No document available. Please upload a document first."
  const NoAnswerText := "No answer provided"
  const DefaultPercentage := 80.0
  const UploadFailedMessage := "Failed to process uploaded file"

  /** One answer card: `{ question, answer, confidence, sources, metadata }`. */
  datatype QueryResult = QueryResult(question: Value, answer: string, confidence: Value, sources: Value, metadata: Value)

  /** `parseFloat` (None for NaN) and `JSON.stringify`. */
  datatype Conversions = Conversions(parseFloat: string -> Option<real>, stringify: Value -> string)

  /** The answer admits that the document does not say. */
  predicate IsNoInfo(answer: string) {
    var lower := ToLower(answer);
    || Contains(lower, "not enough information")
    || Contains(lower, "no information")
    || Contains(lower, "does not provide")
    || Contains(lower, "not mentioned")
  }

  function Clamp(c: real): real {
    RMin(RMax(c, 0.0), 1.0)
  }

  /** A reported confidence as a percentage: a number is clamped to [0, 1]
      first, a numeric string is not; anything else gives the fallback. */
  function Percentage(reported: Value, fallback: Value, conv: Conversions): Value {
    if reported.Num? then Num(Clamp(reported.n) * 100.0)
    else if reported.Str? && conv.parseFloat(reported.s).Some? then Num(conv.parseFloat(reported.s).value * 100.0)
    else fallback
  }

  function ConfidenceOf(answer: string, reported: Value, fallback: Value, conv: Conversions): Value {
    if IsNoInfo(answer) then Num(0.0) else Percentage(reported, fallback, conv)
  }

  function SourcesOf(v: Value): Value {
    if v.Arr? then v else Arr([])
  }

  predicate HasAnswer(v: Value) {
    Truthy(Get(v, "answer")) || Truthy(Get(v, "text"))
  }

  /** The four reply formats, tried in this order, and the empty reply. */
  datatype Shape = Direct | FirstOfResults | Simple | Plain | Empty

  function ShapeOf(response: Value): Shape {
    if !Truthy(response) then Empty
    else if Truthy(Get(response, "question")) && HasAnswer(response) then Direct
    else if Get(response, "results").Arr? && |Get(response, "results").items| > 0 then FirstOfResults
    else if (response.Obj? || response.Arr?) && HasAnswer(response) then Simple
    else Plain
  }

  /** The value whose `confidence`, `sources` and `metadata` fill the card. */
  function Reporter(response: Value): Value {
    if ShapeOf(response) == FirstOfResults then Get(response, "results").items[0] else response
  }

  /** A card from an answer text read off `source`; the text must be a string
      for the no-information check to run. */
  function FromAnswer(question: Value, answerText: Value, source: Value, fallback: Value, conv: Conversions)
    : Result<QueryResult, string>
  {
    if !answerText.Str? then Err(NotAStringMessage)
    else Ok(QueryResult(question, answerText.s,
                        ConfidenceOf(answerText.s, Get(source, "confidence"), fallback, conv),
                        SourcesOf(Get(source, "sources")),
                        Or(Get(source, "metadata"), Obj(map[]))))
  }

  /** The card for a reply to `question`, or the message of the error that
      stops it. */
  function Normalise(response: Value, question: string, conv: Conversions): Result<QueryResult, string> {
    match ShapeOf(response)
    case Empty => Err(EmptyResponseMessage)
    case Direct =>
      var text := Or(Get(response, "answer"), Or(Get(response, "text"), Str("")));
      FromAnswer(Get(response, "question"), text, response, Num(DefaultPercentage), conv)
    case FirstOfResults =>
      var first := Get(response, "results").items[0];
      if first.Null? then Err("Cannot read properties of null (reading 'answer')")
      else if first.Undefined? then Err("Cannot read properties of undefined (reading 'answer')")
      else
        var text := Or(Get(first, "answer"), Or(Get(first, "text"), Or(Str(conv.stringify(first)), Str(NoAnswerText))));
        FromAnswer(Str(question), text, first, Or(Get(first, "score"), Num(0.0)), conv)
    case Simple =>
      var text := Or(Get(response, "answer"), Or(Get(response, "text"), Str(conv.stringify(response))));
      FromAnswer(Str(question), text, response, Or(Get(response, "score"), Num(0.0)), conv)
    case Plain =>
      var text := if response.Str? then response.s else conv.stringify(response);
      Ok(QueryResult(Str(question), text, ConfidenceOf(text, Undefined, Num(DefaultPercentage), conv),
                     Arr([]), Obj(map[])))
  }

  // ---------------------------------------------------------------------------
  // Properties of the normaliser

  /** Only an empty reply is reported as empty. */
  lemma EmptyReplyIsReported(response: Value, question: string, conv: Conversions)
    ensures Normalise(response, question, conv) == Err(EmptyResponseMessage) <==> !Truthy(response)
  {
    if Truthy(response) && Normalise(response, question, conv).Err? {
      var m := Normalise(response, question, conv).error;
      assert m[|m| - 1] != EmptyResponseMessage[|EmptyResponseMessage| - 1];
    }
  }

  /** A card whose answer admits ignorance shows 0 %, whatever was reported. */
  lemma NoInfoShowsZero(response: Value, question: string, conv: Conversions)
    requires Normalise(response, question, conv).Ok?
    requires IsNoInfo(Normalise(response, question, conv).value.answer)
    ensures Normalise(response, question, conv).value.confidence == Num(0.0)
  {
  }

  /** A reported number becomes a percentage between 0 and 100. */
  lemma NumericConfidenceIsPercentage(response: Value, question: string, conv: Conversions)
    requires Normalise(response, question, conv).Ok?
    requires ShapeOf(response) != Plain && Get(Reporter(response), "confidence").Num?
    ensures Normalise(response, question, conv).value.confidence.Num?
    ensures 0.0 <= Normalise(response, question, conv).value.confidence.n <= 100.0
    ensures !IsNoInfo(Normalise(response, question, conv).value.answer) ==>
      Normalise(response, question, conv).value.confidence == Num(Clamp(Get(Reporter(response), "confidence").n) * 100.0)
  {
  }

  /** A numeric string is not clamped: a reported "1.5" shows as 150 %. */
  lemma StringConfidenceIsNotClamped(conv: Conversions)
    requires conv.parseFloat("1.5") == Some(1.5)
    ensures var response := Obj(map["question" := Str("Q?"), "answer" := Str("Yes."), "confidence" := Str("1.5")]);
      Normalise(response, "Q?", conv) == Ok(QueryResult(Str("Q?"), "Yes.", Num(150.0), Arr([]), Obj(map[])))
  {
    var response := Obj(map["question" := Str("Q?"), "answer" := Str("Yes."), "confidence" := Str("1.5")]);
    assert ShapeOf(response) == Direct;
    assert !IsNoInfo("Yes.");
  }

  /** Without a usable reported confidence, a card shows 80 % for the direct
      and the plain formats and the reported score (or 0) for the others. */
  lemma FallbackConfidence(response: Value, question: string, conv: Conversions)
    requires Normalise(response, question, conv).Ok?
    requires !IsNoInfo(Normalise(response, question, conv).value.answer)
    requires var c := Get(Reporter(response), "confidence"); !c.Num? && !c.Str?
    ensures ShapeOf(response) in {Direct, Plain} ==>
      Normalise(response, question, conv).value.confidence == Num(DefaultPercentage)
    ensures ShapeOf(response) in {FirstOfResults, Simple} ==>
      Normalise(response, question, conv).value.confidence == Or(Get(Reporter(response), "score"), Num(0.0))
  {
  }

  /** A reply carrying a question and an answer is shown as it is, even when
      it also carries a list of results; a list of results shows its first
      one under the question that was asked. */
  lemma DispatchPrecedence(response: Value, question: string, conv: Conversions)
    ensures Truthy(Get(response, "question")) && HasAnswer(response) ==>
      ShapeOf(response) == Direct
      && (Normalise(response, question, conv).Ok? ==>
            Normalise(response, question, conv).value.question == Get(response, "question"))
    ensures ShapeOf(response) == FirstOfResults && Normalise(response, question, conv).Ok? ==>
      var first := Get(response, "results").items[0];
      && Normalise(response, question, conv).value.question == Str(question)
      && (Get(first, "answer").Str? && Get(first, "answer").s != "" ==>
            Normalise(response, question, conv).value.answer == Get(first, "answer").s)
  {
  }

  /** A plain non-empty string reply is the answer itself, with no sources. */
  lemma PlainStringIsTheAnswer(reply: string, question: string, conv: Conversions)
    requires reply != ""
    ensures Normalise(Str(reply), question, conv).Ok?
    ensures Normalise(Str(reply), question, conv).value.answer == reply
    ensures Normalise(Str(reply), question, conv).value.sources == Arr([])
  {
  }

  // ---------------------------------------------------------------------------
  // The page state

  /** The conversion a template literal applies to a value. */
  function TemplateText(v: Value, show: Value -> string): string {
    match v
    case Str(s) => s
    case Undefined => "undefined"
    case Null => "null"
    case Bool(b) => if b then "true" else "false"
    case _ => show(v)
  }

  function UploadName(info: Value): Value {
    Or(Get(info, "fileName"), Get(Get(info, "file"), "name"))
  }

  /** The server's path for the upload, or one under `uploads/`. */
  function UploadPath(info: Value, show: Value -> string): Value {
    Or(Get(info, "path"), Str("uploads/" + TemplateText(UploadName(info), show)))
  }

  /** An accepted upload always leaves a path a query can be sent for. */
  lemma UploadPathIsUsable(info: Value, show: Value -> string)
    ensures Truthy(UploadPath(info, show))
  {
  }

  class HomePage {
    var file: Value
    var path: Value
    var fileName: Value
    var results: seq<QueryResult>
    var processing: bool

    constructor()
      ensures file == Null && path == Null && fileName == Null && results == [] && !processing
    {
      file := Null;
      path := Null;
      fileName := Null;
      results := [];
      processing := false;
    }

    /** `handleFileUpload`: an upload without a file changes nothing and is
        reported in an alert; any other replaces the document and clears the
        answers. */
    method HandleFileUpload(info: Value, show: Value -> string) returns (alert: Option<string>)
      modifies this
      ensures !Truthy(info) || !Truthy(Get(info, "file")) ==>
        file == old(file) && path == old(path) && fileName == old(fileName)
        && results == old(results) && processing == old(processing)
        && alert == Some(UploadFailedMessage)
      ensures Truthy(info) && Truthy(Get(info, "file")) ==>
        file == Get(info, "file") && path == UploadPath(info, show) && fileName == UploadName(info)
        && results == [] && processing && alert == None
    {
      if !Truthy(info) || !Truthy(Get(info, "file")) {
        return Some(UploadFailedMessage);
      }
      alert := None;
      file := Get(info, "file");
      path := UploadPath(info, show);
      fileName := UploadName(info);
      results := [];
      processing := true;
    }

    /** `handleQuery`: without a document nothing is sent; otherwise the
        reply (or the failure of the call) is turned into a card, which goes
        in front of the earlier ones, or into an alert. */
    method HandleQuery(question: string, reply: Result<Value, string>, conv: Conversions)
      returns (sent: bool, alert: Option<string>)
      modifies this
      ensures file == old(file) && path == old(path) && fileName == old(fileName) && processing == old(processing)
      ensures !Truthy(old(path)) ==> !sent && alert == Some(NoDocumentMessage) && results == old(results)
      ensures Truthy(old(path)) ==> sent
      ensures Truthy(old(path)) && reply.Err? ==>
        results == old(results) && alert == Some("Failed to get answer: " + reply.error)
      ensures Truthy(old(path)) && reply.Ok? ==>
        match Normalise(reply.value, question, conv)
        case Ok(card) => results == [card] + old(results) && alert == None
        case Err(message) => results == old(results) && alert == Some("Failed to get answer: " + message)
    {
      if !Truthy(path) {
        return false, Some(NoDocumentMessage);
      }
      if reply.Err? {
        return true, Some("Failed to get answer: " + reply.error);
      }
      var card := Normalise(reply.value, question, conv);
      if card.Err? {
        return true, Some("Failed to get answer: " + card.error);
      }
      results := [card.value] + results;
      return true, None;
    }
  }
}
