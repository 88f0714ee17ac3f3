/** The answer synthesiser of backend/services/prompt.service.js: the system
    and user prompt builders, the sampling temperature, the clean-up of the
    model's reply, the canned reply used when the model cannot be reached, and
    `answerWithGroq`, which asks the model up to three times with growing
    pauses and falls back to the canned reply. The completion service, JSON
    parsing, number formatting and the random draws of the canned reply are
    parameters. */
module Synthesis {
  import opened JsValues
  import opened Text
  import opened SearchIndex

  const MaxRetries := 3
  const InitialDelayMs := 1000
  const MaxTokens := 1024

  // ---------------------------------------------------------------------------
  // Template-literal rendering

  /** `${v}` for a value; `show` is how the engine prints a number. */
  function Display(v: Value, show: real -> string): string
    decreases v
  {
    match v
    case Undefined => "undefined"
    case Null => "null"
    case Bool(b) => if b then "true" else "false"
    case Num(n) => show(n)
    case Str(s) => s
    case Arr(items) => DisplayItems(items, show)
    case Obj(_) => ObjectString
  }

  /** An array prints its elements joined by commas, `null` and `undefined`
      as nothing. */
  function DisplayItems(items: seq<Value>, show: real -> string): string
    decreases items
  {
    if items == [] then ""
    else
      var first := if Nullish(items[0]) then "" else Display(items[0], show);
      if |items| == 1 then first else first + "," + DisplayItems(items[1..], show)
  }

  function StrArr(xs: seq<string>): (a: Value)
    ensures a.Arr? && |a.items| == |xs|
  {
    Arr(seq(|xs|, i requires 0 <= i < |xs| => Str(xs[i])))
  }

  // ---------------------------------------------------------------------------
  // System prompt

  const SystemBase := "You are an advanced AI assistant for DocuQuery AI with expertise in document analysis and information extraction.\n\nYour task is to provide clear, complete, and accurate answers based SOLELY on the provided context. Follow these guidelines:\n\n1. If the answer is found in the context, provide it directly and cite the relevant parts.\n2. If the context doesn't contain enough information, say \"The document does not provide enough information to answer this question.\"\n3. Never make up information that isn't in the context.\n4. If the question is about a definition or specific term, provide the exact definition from the context.\n5. For medical or technical terms, be precise and include any relevant details from the context.\n6. If the context contains multiple points about a topic, include all relevant points in your answer."

  const Comprehensive := " Focus on providing comprehensive and detailed responses."
  const Concise := " Provide concise but complete answers, summarizing key points."
  const Balanced := " Balance detail with clarity in your responses."
  const StructuredSentence := " Always respond in valid JSON format with clear structure."
  const ChainSentence := " Show your analytical reasoning process step by step."
  const DynamicSentence := " Adapt your response style based on the complexity and nature of the question."

  /** The sentence chosen by the question's position in the batch. */
  function PositionalSentence(questionIndex: int, totalQuestions: int): string {
    if questionIndex == 0 then Comprehensive
    else if questionIndex == totalQuestions - 1 then Concise
    else Balanced
  }

  /** The sentences appended to the base instructions, in the order they are
      appended. */
  function SystemAdditions(concepts: seq<string>, questionIndex: int, totalQuestions: int): seq<string> {
    [PositionalSentence(questionIndex, totalQuestions)]
      + (if "structured" in concepts then [StructuredSentence] else [])
      + (if "chain-thought" in concepts then [ChainSentence] else [])
      + (if "dynamic" in concepts then [DynamicSentence] else [])
  }

  /** `buildSystemPrompt` */
  function BuildSystemPrompt(concepts: seq<string>, questionIndex: int, totalQuestions: int): string {
    SystemBase + Join(SystemAdditions(concepts, questionIndex, totalQuestions), "")
  }

  /** Where a sentence may stand among the additions: the positional sentence
      first, then the structured, chain-of-thought and dynamic ones. */
  function SentenceRank(s: string): nat {
    if s == StructuredSentence then 1
    else if s == ChainSentence then 2
    else if s == DynamicSentence then 3
    else 0
  }

  /** Exactly one positional sentence comes first, chosen by position (the
      first question, else the last, else any other); each concept sentence
      follows iff its concept is selected, at most once and in a fixed order. */
  lemma SystemPromptSentences(concepts: seq<string>, questionIndex: int, totalQuestions: int)
    ensures var a := SystemAdditions(concepts, questionIndex, totalQuestions);
      && (a[0] == Comprehensive <==> questionIndex == 0)
      && (a[0] == Concise <==> questionIndex != 0 && questionIndex == totalQuestions - 1)
      && (a[0] == Balanced <==> questionIndex != 0 && questionIndex != totalQuestions - 1)
      && SentenceRank(a[0]) == 0
      && (forall i :: 0 <= i < |a| - 1 ==> SentenceRank(a[i]) < SentenceRank(a[i + 1]))
      && (StructuredSentence in a <==> "structured" in concepts)
      && (ChainSentence in a <==> "chain-thought" in concepts)
      && (DynamicSentence in a <==> "dynamic" in concepts)
  {
  }

  // ---------------------------------------------------------------------------
  // User prompt

  const UserIntro := "You are an expert insurance document analyst. Your task is to answer questions based SOLELY on the provided document context.\n\n"
  const AnalysisSteps := "ANALYSIS STEPS:\n"
    + "1. Carefully analyze each provided context chunk\n"
    + "2. Look for any information related to the question\n"
    + "3. If the information is not directly stated, try to infer from related context\n"
    + "4. If truly no information exists, state that clearly\n\n"
  const Instructions := "INSTRUCTIONS:\n1. If the answer is in the context, provide it clearly and concisely\n2. If the information is partially available, provide the most relevant details\n3. If the context doesn't contain the answer, say \"The document does not provide enough information to answer this question\"\n4. Include relevant details like definitions, conditions, or limitations when available\n\n"
  const JsonFormat := "FORMAT YOUR RESPONSE AS JSON:\n{\n  \"answer\": \"Your detailed answer here\",\n  \"confidence\": 0.0-1.0,\n  \"sources\": [\"Chunk X\"],\n  \"reasoning\": \"Brief explanation of how you arrived at this answer\"\n}"
  const TemplateFormat := "FORMAT YOUR RESPONSE AS:\nTHINKING PROCESS:\n1. [Your analysis steps]\n2. [Your reasoning]\n\nANSWER:\n[Your final answer]\n\nCONFIDENCE: [0.0-1.0]\n"

  /** `chunk.text || chunk.content || ''`, printed. */
  function PassageText(chunk: Fields, show: real -> string): string {
    Display(Or(Or(Field(chunk, "text"), Field(chunk, "content")), Str("")), show)
  }

  /** The chunk's score printed, or `N/A` when it has none. */
  function ScoreText(chunk: Fields, show: real -> string): string {
    if Field(chunk, "score") != Undefined then Display(Field(chunk, "score"), show) else "N/A"
  }

  function BlockHeader(k: nat, scoreText: string): string {
    "--- CHUNK " + NatToString(k) + " (Relevance: " + scoreText + ") ---\n"
  }

  /** One context block per chunk, numbered from 1. */
  function ChunkBlocks(chunks: seq<Fields>, show: real -> string): (blocks: seq<string>)
    ensures |blocks| == |chunks|
  {
    seq(|chunks|, i requires 0 <= i < |chunks| =>
      BlockHeader(i + 1, ScoreText(chunks[i], show)) + PassageText(chunks[i], show))
  }

  /** `.filter(chunk => chunk.trim().length > 0)` */
  function NonBlank(xs: seq<string>): (r: seq<string>)
    ensures |r| <= |xs|
  {
    if xs == [] then []
    else (if Trim(xs[0]) != [] then [xs[0]] else []) + NonBlank(xs[1..])
  }

  lemma {:induction false} NonBlankKeepsSolid(xs: seq<string>)
    requires forall i :: 0 <= i < |xs| ==> xs[i] != [] && !IsSpace(xs[i][0])
    ensures NonBlank(xs) == xs
  {
    if xs != [] {
      TrimBlank(xs[0]);
      assert !AllSpace(xs[0]);
      NonBlankKeepsSolid(xs[1..]);
    }
  }

  /** The blank filter never drops a block: every block starts with its
      header. So the context holds one block per chunk, in order, block `k`
      headed by `k` and the chunk's score or `N/A`. */
  lemma ContextKeepsEveryBlock(chunks: seq<Fields>, show: real -> string)
    ensures NonBlank(ChunkBlocks(chunks, show)) == ChunkBlocks(chunks, show)
    ensures forall i :: 0 <= i < |chunks| ==>
      StartsWith(ChunkBlocks(chunks, show)[i], BlockHeader(i + 1, ScoreText(chunks[i], show)))
  {
    var blocks := ChunkBlocks(chunks, show);
    forall i | 0 <= i < |blocks|
      ensures blocks[i] != [] && !IsSpace(blocks[i][0])
      ensures StartsWith(blocks[i], BlockHeader(i + 1, ScoreText(chunks[i], show)))
    {
      var header := BlockHeader(i + 1, ScoreText(chunks[i], show));
      assert blocks[i] == header + PassageText(chunks[i], show);
      HeaderStartsWithDash(i + 1, ScoreText(chunks[i], show));
      PrefixOfConcat(header, PassageText(chunks[i], show));
    }
    NonBlankKeepsSolid(blocks);
  }

  lemma HeaderStartsWithDash(k: nat, scoreText: string)
    ensures BlockHeader(k, scoreText) != [] && BlockHeader(k, scoreText)[0] == '-'
  {
  }

  function ContextText(chunks: seq<Fields>, show: real -> string): string {
    Join(NonBlank(ChunkBlocks(chunks, show)), "\n\n")
  }

  /** The part between the optional analysis steps and the format
      instructions: the numbered context, the question and the instructions. */
  function PromptBody(question: string, chunks: seq<Fields>, show: real -> string): (body: string)
    ensures body != [] && body[0] == 'D'
  {
    "DOCUMENT CONTEXT (" + NatToString(|chunks|) + " chunks):\n" + ContextText(chunks, show) + "\n\n"
      + "QUESTION: " + question + "\n\n"
      + Instructions
  }

  /** `buildUserPrompt` */
  function BuildUserPrompt(question: string, chunks: seq<Fields>, concepts: seq<string>, show: real -> string): string {
    UserIntro
      + ((if "chain-thought" in concepts then AnalysisSteps else "")
      + (PromptBody(question, chunks, show)
      + (if "structured" in concepts then JsonFormat else TemplateFormat)))
  }

  /** The analysis steps follow the introduction iff chain-of-thought is
      selected. */
  lemma UserPromptAnalysis(question: string, chunks: seq<Fields>, concepts: seq<string>, show: real -> string)
    ensures StartsWith(BuildUserPrompt(question, chunks, concepts, show), UserIntro + AnalysisSteps)
        <==> "chain-thought" in concepts
  {
    var body := PromptBody(question, chunks, show);
    var rest := body + (if "structured" in concepts then JsonFormat else TemplateFormat);
    if "chain-thought" in concepts {
      PrefixOfNested(UserIntro, AnalysisSteps, rest);
    } else {
      assert "" + rest == rest;
      assert rest[0] == 'D' && AnalysisSteps[0] == 'A';
      NotPrefixWhenNextDiffers(UserIntro, rest, AnalysisSteps);
    }
  }

  /** The prompt ends with the JSON schema iff structured output is selected,
      and with the thinking/answer/confidence template otherwise. */
  lemma UserPromptFormat(question: string, chunks: seq<Fields>, concepts: seq<string>, show: real -> string)
    ensures EndsWith(BuildUserPrompt(question, chunks, concepts, show), JsonFormat) <==> "structured" in concepts
    ensures "structured" !in concepts ==> EndsWith(BuildUserPrompt(question, chunks, concepts, show), TemplateFormat)
  {
    UserPromptEndsWithFormat(question, chunks, concepts, show);
    if "structured" !in concepts {
      TemplateIsNotJson(BuildUserPrompt(question, chunks, concepts, show));
    }
  }

  /** A text ending in the template does not end in the JSON schema: their
      last characters differ. */
  lemma TemplateIsNotJson(p: string)
    requires EndsWith(p, TemplateFormat)
    ensures !EndsWith(p, JsonFormat)
  {
    LastOfSuffix(p, TemplateFormat);
    assert TemplateFormat[|TemplateFormat| - 1] == '\n';
    assert JsonFormat[|JsonFormat| - 1] == '}';
    NotSuffixWhenLastDiffers(p, JsonFormat);
  }

  lemma UserPromptEndsWithFormat(question: string, chunks: seq<Fields>, concepts: seq<string>, show: real -> string)
    ensures EndsWith(BuildUserPrompt(question, chunks, concepts, show),
                     if "structured" in concepts then JsonFormat else TemplateFormat)
  {
    var analysis := if "chain-thought" in concepts then AnalysisSteps else "";
    var body := PromptBody(question, chunks, show);
    var format := if "structured" in concepts then JsonFormat else TemplateFormat;
    ConcatAssociates(UserIntro, analysis, body, format);
    SuffixOfConcat((UserIntro + analysis) + body, format);
  }

  // ---------------------------------------------------------------------------
  // Temperature

  /** `(questionIndex * 0.05) % 0.3`, over exact reals. */
  function TemperatureDelta(questionIndex: nat): real {
    var x := questionIndex as real * 0.05;
    x - 0.3 * (x / 0.3).Floor as real
  }

  /** The variation cycles through 0, 0.05, ..., 0.25 with the question's
      position. */
  lemma TemperatureCycle(questionIndex: nat)
    ensures TemperatureDelta(questionIndex) == 0.05 * (questionIndex % 6) as real
    ensures 0.0 <= TemperatureDelta(questionIndex) <= 0.25
  {
    var q, r := questionIndex / 6, questionIndex % 6;
    var x := questionIndex as real * 0.05;
    assert x / 0.3 == q as real + r as real / 6.0;
    assert (x / 0.3).Floor == q;
  }

  /** `calculateTemperature`: the configured temperature (0.1 when unset),
      varied by position when the temperature or dynamic concept is selected,
      then clamped to [0, 1]. */
  function CalculateTemperature(setting: Option<real>, concepts: seq<string>, questionIndex: nat): (t: real)
    ensures 0.0 <= t <= 1.0
  {
    var base := if setting.Some? then setting.value else 0.1;
    var varied := if "temperature" in concepts || "dynamic" in concepts then base + TemperatureDelta(questionIndex) else base;
    RMin(RMax(varied, 0.0), 1.0)
  }

  /** With the default setting the temperature is 0.1, plus the positional
      variation when it applies; a setting inside [0, 1] is kept as is when
      no variation applies. */
  lemma TemperatureDefaults(setting: Option<real>, concepts: seq<string>, questionIndex: nat)
    ensures setting == None && "temperature" !in concepts && "dynamic" !in concepts ==>
      CalculateTemperature(setting, concepts, questionIndex) == 0.1
    ensures setting == None && ("temperature" in concepts || "dynamic" in concepts) ==>
      CalculateTemperature(setting, concepts, questionIndex) == 0.1 + 0.05 * (questionIndex % 6) as real
    ensures setting.Some? && 0.0 <= setting.value <= 1.0 && "temperature" !in concepts && "dynamic" !in concepts ==>
      CalculateTemperature(setting, concepts, questionIndex) == setting.value
  {
    TemperatureCycle(questionIndex);
  }

  // ---------------------------------------------------------------------------
  // Post-processing of the model's reply

  /** Removes one leading `Answer:`, `Response:` or `Based on the context`
      (with an optional colon), in any letter case. */
  function StripLabel(s: string): string {
    var lower := ToLower(s);
    if StartsWith(lower, "answer:") then s[7..]
    else if StartsWith(lower, "response:") then s[9..]
    else if StartsWith(lower, "based on the context:") then s[21..]
    else if StartsWith(lower, "based on the context") then s[20..]
    else s
  }

  predicate HasLabel(s: string) {
    var lower := ToLower(s);
    StartsWith(lower, "answer:") || StartsWith(lower, "response:") || StartsWith(lower, "based on the context")
  }

  /** Stripping removes one label at the front and nothing else. */
  lemma StripLabelRemovesOneLabel(s: string)
    ensures var r := StripLabel(s);
      && |r| <= |s| && r == s[|s| - |r|..]
      && (|s| - |r| == 0 || |s| - |r| == 7 || |s| - |r| == 9 || |s| - |r| == 20 || |s| - |r| == 21)
      && (r == s <==> !HasLabel(s))
  {
    var lower := ToLower(s);
    if StartsWith(lower, "answer:") {
      assert StripLabel(s) == s[7..] && HasLabel(s);
    } else if StartsWith(lower, "response:") {
      assert StripLabel(s) == s[9..] && HasLabel(s);
    } else if StartsWith(lower, "based on the context:") {
      assert lower[..20] == lower[..21][..20];
      assert StripLabel(s) == s[21..] && HasLabel(s);
    } else if StartsWith(lower, "based on the context") {
      assert StripLabel(s) == s[20..] && HasLabel(s);
    } else {
      assert StripLabel(s) == s && !HasLabel(s);
      assert s[0..] == s;
    }
  }

  const NoInfoPhrases: seq<string> := [
    "not enough information",
    "no information",
    "does not provide",
    "not mentioned",
    "not found in the document",
    "not specified in the document"
  ]

  predicate IsNoInfo(clean: string) {
    exists p :: p in NoInfoPhrases && Contains(ToLower(clean), p)
  }

  function DefaultConfidence(clean: string): real {
    if IsNoInfo(clean) then 0.1 else 0.8
  }

  function CleanReply(response: string): string {
    Trim(StripLabel(response))
  }

  /** `postProcessResponse`; `parse` is `JSON.parse`, `None` where it throws. */
  function PostProcess(response: string, concepts: seq<string>, parse: string -> Option<Value>): Value {
    if response == "" then
      Obj(map["answer" := Str("No response generated"), "confidence" := Num(0.0)])
    else
      var clean := CleanReply(response);
      var confidence := DefaultConfidence(clean);
      var wrapped := Obj(map["answer" := Str(clean), "confidence" := Num(confidence),
                              "reasoning" := Str(if IsNoInfo(clean) then "No relevant information found in the document"
                                                 else "Extracted from document context")]);
      if "structured" in concepts then
        match parse(clean)
        case Some(Obj(fields)) =>
          if Field(fields, "confidence") == Undefined then Obj(fields["confidence" := Num(confidence)])
          else Obj(fields)
        case Some(Arr(items)) => Arr(items)
        case _ => wrapped
      else
        Obj(map["answer" := Str(clean), "confidence" := Num(confidence), "sources" := Arr([])])
  }

  /** Plain replies: the cleaned text with confidence 0.1 when it admits to
      missing information and 0.8 otherwise, and no sources. */
  lemma PostProcessPlain(response: string, concepts: seq<string>, parse: string -> Option<Value>)
    requires response != "" && "structured" !in concepts
    ensures var r := PostProcess(response, concepts, parse);
      && Get(r, "answer") == Str(CleanReply(response))
      && Get(r, "sources") == Arr([])
      && (Get(r, "confidence") == Num(0.1) <==> IsNoInfo(CleanReply(response)))
      && (Get(r, "confidence") == Num(0.8) <==> !IsNoInfo(CleanReply(response)))
  {
  }

  /** Structured replies never fail: a parsed object keeps its confidence or
      gets the default one; anything else is wrapped with a reasoning chosen
      by the no-information test. */
  lemma PostProcessStructured(response: string, concepts: seq<string>, parse: string -> Option<Value>)
    requires response != "" && "structured" in concepts
    ensures var r := PostProcess(response, concepts, parse);
      var clean := CleanReply(response);
      && (parse(clean).Some? && parse(clean).value.Obj? ==>
            r.Obj? && Get(r, "confidence") != Undefined
            && (Get(parse(clean).value, "confidence") != Undefined ==> r == parse(clean).value)
            && (Get(parse(clean).value, "confidence") == Undefined ==> Get(r, "confidence") == Num(DefaultConfidence(clean))))
      && (parse(clean).None? ==>
            Get(r, "answer") == Str(clean) && Get(r, "confidence") == Num(DefaultConfidence(clean))
            && (Get(r, "reasoning") == Str("No relevant information found in the document") <==> IsNoInfo(clean)))
  {
  }

  /** An empty reply yields the placeholder answer with confidence 0. */
  lemma PostProcessEmpty(concepts: seq<string>, parse: string -> Option<Value>)
    ensures Get(PostProcess("", concepts, parse), "answer") == Str("No response generated")
    ensures Get(PostProcess("", concepts, parse), "confidence") == Num(0.0)
  {
  }

  // ---------------------------------------------------------------------------
  // Canned reply

  /** The random draws of one canned reply, each in [0, 1). */
  datatype MockDraws = MockDraws(confidence: real, pages: seq<real>)

  predicate ValidDraws(d: MockDraws) {
    0.0 <= d.confidence < 1.0 && forall i :: 0 <= i < |d.pages| ==> 0.0 <= d.pages[i] < 1.0
  }

  function PageDraw(d: MockDraws, i: nat): real {
    if i < |d.pages| then d.pages[i] else 0.0
  }

  /** `s.replace('?', '')`: only the first question mark goes. */
  function DropFirstQuestionMark(s: string): (r: string)
    ensures |r| == |s| || |r| == |s| - 1
  {
    if s == [] then []
    else if s[0] == '?' then s[1..]
    else [s[0]] + DropFirstQuestionMark(s[1..])
  }

  /** The four answer templates, with and without context. */
  function MockAnswer(question: string, hasContext: bool, questionIndex: nat): string {
    MockTemplate(question, hasContext, questionIndex % 4)
  }

  function MockTemplate(question: string, hasContext: bool, k: nat): string {
    var q := DropFirstQuestionMark(ToLower(question));
    if hasContext then
      if k == 0 then "Based on the document, " + q + " is addressed in the provided context."
      else if k == 1 then "The document mentions that " + q + " is an important consideration."
      else if k == 2 then "Analysis of the content suggests that " + q + " is a key topic covered."
      else "The document provides insights into " + q + " across multiple sections."
    else
      if k == 0 then "I don't have enough context to answer \"" + question + "\" accurately."
      else if k == 1 then "I couldn't find any information about \"" + question + "\" in the document."
      else if k == 2 then "The document doesn't contain any information related to \"" + question + "\"."
      else "I'm unable to answer \"" + question + "\" as I don't have access to the relevant document content."
  }

  /** The first 200 characters, with `...` when something was cut. */
  function Excerpt(text: string): string {
    if |text| > 200 then text[..200] + "..." else text
  }

  /** `chunk.text || chunk.content || String(chunk)`, printed. */
  function SourceText(chunk: Fields, show: real -> string): string {
    Display(Or(Or(Field(chunk, "text"), Field(chunk, "content")), Obj(chunk)), show)
  }

  function Page(draw: real): int {
    (10.0 * draw).Floor + 1
  }

  function MockSource(chunk: Fields, i: nat, d: MockDraws, show: real -> string): Value {
    Obj(map["title" := Str("Document Section " + NatToString(i + 1)),
            "content" := Str(Excerpt(SourceText(chunk, show))),
            "page" := Num(Page(PageDraw(d, i)) as real)])
  }

  function MockSources(chunks: seq<Fields>, d: MockDraws, show: real -> string): (sources: seq<Value>)
    ensures |sources| == Min(3, |chunks|)
  {
    var n := Min(3, |chunks|);
    seq(n, i requires 0 <= i < n => MockSource(chunks[i], i, d, show))
  }

  /** `generateMockResponse` */
  function GenerateMockResponse(question: string, chunks: seq<Fields>, questionIndex: nat, d: MockDraws,
                                show: real -> string): Value
  {
    var hasContext := |chunks| > 0;
    Obj(map[
      "answer" := Str(MockAnswer(question, hasContext, questionIndex)),
      "confidence" := Num(if hasContext then 0.6 + d.confidence * 0.4 else 0.2),
      "sources" := Arr(if hasContext then MockSources(chunks, d, show) else []),
      "metadata" := Obj(map[
        "isMock" := Bool(true),
        "contextChunks" := Num(|chunks| as real),
        "warning" := if hasContext then Undefined else Str("No relevant context available")])])
  }

  /** The canned reply is marked as such, has confidence 0.2 exactly when
      there is no context and at least 0.6 otherwise, and cites at most three
      sources, each an excerpt of at most 203 characters on a page from 1 to
      10. */
  lemma MockReplyShape(question: string, chunks: seq<Fields>, questionIndex: nat, d: MockDraws, show: real -> string)
    requires ValidDraws(d)
    ensures var r := GenerateMockResponse(question, chunks, questionIndex, d, show);
      && Get(Get(r, "metadata"), "isMock") == Bool(true)
      && Get(r, "confidence").Num?
      && (|chunks| == 0 <==> Get(r, "confidence") == Num(0.2))
      && (|chunks| > 0 ==> 0.6 <= Get(r, "confidence").n < 1.0)
      && Get(r, "sources").Arr? && |Get(r, "sources").items| == Min(3, |chunks|)
      && forall s :: s in Get(r, "sources").items ==>
           Get(s, "content").Str? && |Get(s, "content").s| <= 203
           && Get(s, "page").Num? && 1.0 <= Get(s, "page").n <= 10.0
  {
    var r := GenerateMockResponse(question, chunks, questionIndex, d, show);
    if |chunks| > 0 {
      var sources := MockSources(chunks, d, show);
      forall i | 0 <= i < |sources|
        ensures 1 <= Page(PageDraw(d, i)) <= 10
      {
        assert 0.0 <= 10.0 * PageDraw(d, i) < 10.0;
      }
    }
  }

  /** An excerpt keeps the text when it is at most 200 characters long, and
      otherwise its first 200 characters followed by `...`. */
  lemma ExcerptShape(text: string)
    ensures |text| <= 200 ==> Excerpt(text) == text
    ensures |text| > 200 ==>
      StartsWith(Excerpt(text), text[..200]) && EndsWith(Excerpt(text), "...") && |Excerpt(text)| == 203
  {
  }

  /** The template depends on the question's position only modulo 4. */
  lemma MockAnswerCycles(question: string, hasContext: bool, questionIndex: nat)
    ensures MockAnswer(question, hasContext, questionIndex + 4) == MockAnswer(question, hasContext, questionIndex)
  {
    assert (questionIndex + 4) % 4 == questionIndex % 4;
  }

  // ---------------------------------------------------------------------------
  // The retry loop

  /** What one call to the completion service gave: the message content (if
      any) and the usage count, or an error message. */
  datatype Attempt = Completed(content: Option<string>, tokens: Value) | Failed(message: string)

  /** The request sent on every attempt. */
  datatype Request = Request(system: string, user: string, temperature: real, model: string, maxTokens: nat)

  /** The options `answerWithGroq` reads. */
  datatype Options = Options(concepts: seq<string>, temperature: Option<real>, questionIndex: nat, totalQuestions: int)

  /** What lies outside the service: whether a client could be obtained, the
      configured model name, the completion call (by request and attempt
      number), `JSON.parse`, number printing and the canned reply's draws. */
  datatype Backend = Backend(
    clientReady: bool,
    model: string,
    complete: (Request, nat) -> Attempt,
    parse: string -> Option<Value>,
    show: real -> string,
    draws: MockDraws)

  function RequestFor(question: string, chunks: seq<Fields>, opts: Options, env: Backend): Request {
    Request(
      BuildSystemPrompt(opts.concepts, opts.questionIndex, opts.totalQuestions),
      BuildUserPrompt(question, chunks, opts.concepts, env.show),
      CalculateTemperature(opts.temperature, opts.concepts, opts.questionIndex),
      env.model,
      MaxTokens)
  }

  /** The first attempt from `k` on, up to the third, that completes. */
  function FirstCompleted(request: Request, complete: (Request, nat) -> Attempt, k: nat): Option<nat>
    decreases MaxRetries + 1 - k
  {
    if k > MaxRetries then None
    else if complete(request, k).Completed? then Some(k)
    else FirstCompleted(request, complete, k + 1)
  }

  lemma {:induction false} FirstCompletedMeans(request: Request, complete: (Request, nat) -> Attempt, k: nat)
    ensures var f := FirstCompleted(request, complete, k);
      && (f.Some? ==> k <= f.value <= MaxRetries && complete(request, f.value).Completed?
                      && forall j :: k <= j < f.value ==> complete(request, j).Failed?)
      && (f.None? ==> forall j :: k <= j <= MaxRetries ==> complete(request, j).Failed?)
    decreases MaxRetries + 1 - k
  {
    if k <= MaxRetries && !complete(request, k).Completed? {
      FirstCompletedMeans(request, complete, k + 1);
    }
  }

  lemma {:induction false} FirstCompletedIs(request: Request, complete: (Request, nat) -> Attempt, k: nat, m: nat)
    requires k <= m <= MaxRetries && complete(request, m).Completed?
    requires forall j :: k <= j < m ==> complete(request, j).Failed?
    ensures FirstCompleted(request, complete, k) == Some(m)
    decreases m - k
  {
    if k < m {
      FirstCompletedIs(request, complete, k + 1, m);
    }
  }

  lemma {:induction false} NoneCompleted(request: Request, complete: (Request, nat) -> Attempt, k: nat)
    requires forall j :: k <= j <= MaxRetries ==> complete(request, j).Failed?
    ensures FirstCompleted(request, complete, k) == None
    decreases MaxRetries + 1 - k
  {
    if k <= MaxRetries {
      NoneCompleted(request, complete, k + 1);
    }
  }

  /** `completion.choices[0]?.message?.content?.trim() || "No response generated"` */
  function ResponseText(content: Option<string>): string {
    if content.Some? && Trim(content.value) != "" then Trim(content.value) else "No response generated"
  }

  /** The result object built from a processed reply on attempt `attempt`. */
  function Assemble(question: string, processed: Value, model: string, tokens: Value, attempt: nat,
                    concepts: seq<string>): Value
  {
    var carried := if Get(processed, "metadata").Obj? then Get(processed, "metadata").fields else map[];
    Obj(map[
      "question" := Str(question),
      "answer" := Or(Or(Get(processed, "answer"), processed), Str("No answer provided")),
      "confidence" := if Get(processed, "confidence") != Undefined then Get(processed, "confidence") else Num(0.8),
      "sources" := if Get(processed, "sources").Arr? then Get(processed, "sources") else Arr([]),
      "metadata" := Obj(carried["model" := Str(model)]["tokensUsed" := Or(tokens, Num(0.0))]
                               ["retryAttempts" := Num((attempt - 1) as real)]["concepts" := StrArr(concepts)])])
  }

  /** The canned reply marked with the last error after every attempt failed. */
  function Exhausted(mock: Value, lastMessage: string): Value {
    var fields := if mock.Obj? then mock.fields else map[];
    var meta := if Get(mock, "metadata").Obj? then Get(mock, "metadata").fields else map[];
    Obj(fields["metadata" := Obj(meta["error" := Str(if lastMessage != "" then lastMessage else "Unknown error")]
                                     ["retryAttempts" := Num(MaxRetries as real)]
                                     ["success" := Bool(false)])])
  }

  /** The reply `answerWithGroq` gives once a client is available. */
  function ReplyFor(question: string, chunks: seq<Fields>, opts: Options, env: Backend): Value {
    ReplyTo(question, chunks, opts, env, RequestFor(question, chunks, opts, env))
  }

  /** The reply to a given request: the first completed attempt assembled, or
      the canned reply marked with the third attempt's error. */
  function ReplyTo(question: string, chunks: seq<Fields>, opts: Options, env: Backend, request: Request): Value {
    match FirstCompleted(request, env.complete, 1)
    case Some(k) =>
      var outcome := env.complete(request, k);
      Assemble(question, PostProcess(ResponseText(outcome.content), opts.concepts, env.parse),
               env.model, outcome.tokens, k, opts.concepts)
    case None =>
      Exhausted(GenerateMockResponse(question, chunks, opts.questionIndex, env.draws, env.show),
                env.complete(request, MaxRetries).message)
  }

  /** How many calls are made: up to the first that completes, else three. */
  function CallsFor(question: string, chunks: seq<Fields>, opts: Options, env: Backend): nat {
    match FirstCompleted(RequestFor(question, chunks, opts, env), env.complete, 1)
    case Some(k) => k
    case None => MaxRetries
  }

  function Pow2(n: nat): nat {
    if n == 0 then 1 else 2 * Pow2(n - 1)
  }

  /** The pauses after the first `m` failed attempts. */
  function Backoffs(m: nat): (waits: seq<nat>)
    ensures |waits| == m
  {
    seq(m, j requires 0 <= j < m => InitialDelayMs * Pow2(j))
  }

  /** A completed attempt `k` reports `k - 1` retries and the configured
      model, whatever metadata the reply carried. */
  lemma AssembleReportsRetries(question: string, processed: Value, model: string, tokens: Value, attempt: nat,
                               concepts: seq<string>)
    requires attempt >= 1
    ensures var meta := Get(Assemble(question, processed, model, tokens, attempt, concepts), "metadata");
      && Get(meta, "retryAttempts") == Num((attempt - 1) as real)
      && Get(meta, "model") == Str(model)
  {
  }

  /** After the last failure the canned reply keeps its answer and says it
      failed, how often it tried, and why. */
  lemma ExhaustedReportsFailure(question: string, chunks: seq<Fields>, questionIndex: nat, d: MockDraws,
                                show: real -> string, lastMessage: string)
    ensures var mock := GenerateMockResponse(question, chunks, questionIndex, d, show);
      var r := Exhausted(mock, lastMessage);
      var meta := Get(r, "metadata");
      && Get(r, "answer") == Get(mock, "answer")
      && Get(meta, "retryAttempts") == Num(3.0)
      && Get(meta, "success") == Bool(false)
      && Get(meta, "isMock") == Bool(true)
      && Get(meta, "error") == Str(if lastMessage != "" then lastMessage else "Unknown error")
  {
  }

  /** The retry contract: at most three calls; a reply completed on call `k`
      reports `k - 1` retries; when all three fail the canned reply carries the
      last error, three retries and `success: false`. */
  lemma RetryContract(question: string, chunks: seq<Fields>, opts: Options, env: Backend, request: Request)
    ensures var f := FirstCompleted(request, env.complete, 1);
      var meta := Get(ReplyTo(question, chunks, opts, env, request), "metadata");
      && (f.Some? ==>
            && 1 <= f.value <= MaxRetries
            && (forall j :: 1 <= j < f.value ==> env.complete(request, j).Failed?)
            && Get(meta, "retryAttempts") == Num((f.value - 1) as real))
      && (f.None? ==>
            && (forall j :: 1 <= j <= MaxRetries ==> env.complete(request, j).Failed?)
            && Get(meta, "retryAttempts") == Num(3.0)
            && Get(meta, "success") == Bool(false)
            && Get(meta, "isMock") == Bool(true)
            && Get(meta, "error").Str? && Get(meta, "error").s != "")
  {
    FirstCompletedMeans(request, env.complete, 1);
    var f := FirstCompleted(request, env.complete, 1);
    if f.Some? {
      var outcome := env.complete(request, f.value);
      AssembleReportsRetries(question, PostProcess(ResponseText(outcome.content), opts.concepts, env.parse),
                             env.model, outcome.tokens, f.value, opts.concepts);
    } else {
      ExhaustedReportsFailure(question, chunks, opts.questionIndex, env.draws, env.show,
                              env.complete(request, MaxRetries).message);
    }
  }

  /** What `answerWithGroq` replies and how often it calls when attempt `k`
      is the first to complete. */
  lemma CompletedReply(question: string, chunks: seq<Fields>, opts: Options, env: Backend, k: nat)
    requires FirstCompleted(RequestFor(question, chunks, opts, env), env.complete, 1) == Some(k)
    ensures var outcome := env.complete(RequestFor(question, chunks, opts, env), k);
      && ReplyFor(question, chunks, opts, env)
         == Assemble(question, PostProcess(ResponseText(outcome.content), opts.concepts, env.parse),
                     env.model, outcome.tokens, k, opts.concepts)
      && CallsFor(question, chunks, opts, env) == k
  {
  }

  /** What `answerWithGroq` replies and how often it calls when no attempt
      completes. */
  lemma ExhaustedReply(question: string, chunks: seq<Fields>, opts: Options, env: Backend)
    requires FirstCompleted(RequestFor(question, chunks, opts, env), env.complete, 1) == None
    ensures ReplyFor(question, chunks, opts, env)
         == Exhausted(GenerateMockResponse(question, chunks, opts.questionIndex, env.draws, env.show),
                      env.complete(RequestFor(question, chunks, opts, env), MaxRetries).message)
    ensures CallsFor(question, chunks, opts, env) == MaxRetries
  {
  }

  lemma BackoffsExtend(m: nat)
    ensures Backoffs(m + 1) == Backoffs(m) + [InitialDelayMs * Pow2(m)]
  {
  }

  /** `answerWithGroq`: without a client the bare canned reply; otherwise up
      to three attempts, pausing `1000 * 2^(k-1)` ms after a failed attempt `k`
      unless it was the last. */
  method AnswerWithGroq(question: string, chunks: seq<Fields>, opts: Options, env: Backend)
    returns (reply: Value, calls: nat, waits: seq<nat>)
    ensures !env.clientReady ==>
      reply == GenerateMockResponse(question, chunks, opts.questionIndex, env.draws, env.show)
      && calls == 0 && waits == []
    ensures env.clientReady ==>
      reply == ReplyFor(question, chunks, opts, env)
      && calls == CallsFor(question, chunks, opts, env)
      && waits == Backoffs(if calls < MaxRetries then calls - 1 else MaxRetries - 1)
  {
    if !env.clientReady {
      return GenerateMockResponse(question, chunks, opts.questionIndex, env.draws, env.show), 0, [];
    }
    var request := RequestFor(question, chunks, opts, env);
    var attempt := 0;
    var lastError: Option<string> := None;
    waits := [];
    while attempt < MaxRetries
      invariant 0 <= attempt < MaxRetries
      invariant forall j :: 1 <= j <= attempt ==> env.complete(request, j).Failed?
      invariant waits == Backoffs(attempt)
      decreases MaxRetries - attempt
    {
      attempt := attempt + 1;
      var outcome := env.complete(request, attempt);
      if outcome.Completed? {
        var response := ResponseText(outcome.content);
        var processed := PostProcess(response, opts.concepts, env.parse);
        reply := Assemble(question, processed, env.model, outcome.tokens, attempt, opts.concepts);
        calls := attempt;
        FirstCompletedIs(request, env.complete, 1, attempt);
        CompletedReply(question, chunks, opts, env, attempt);
        return;
      }
      lastError := Some(outcome.message);
      var waitTime := InitialDelayMs * Pow2(attempt - 1);
      if attempt >= MaxRetries {
        break;
      }
      BackoffsExtend(attempt - 1);
      waits := waits + [waitTime];
    }
    NoneCompleted(request, env.complete, 1);
    ExhaustedReply(question, chunks, opts, env);
    var mock := GenerateMockResponse(question, chunks, opts.questionIndex, env.draws, env.show);
    reply := Exhausted(mock, lastError.value);
    calls := attempt;
  }
}
