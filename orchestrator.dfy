/** The pipeline of backend/services/rag.service.js: `answerQuestions` resolves
    the document, chunks it, stores the chunks under a fresh document id and
    answers every question from the chunks retrieved for it, producing one
    record per question; when preparing the document fails, every question
    gets the same failure record. The file system, the document's contents,
    the random document id and the answer service are parameters. */
module Orchestrator {
  import opened JsValues
  import opened Text
  import opened Chunker
  import opened SearchIndex
  import opened Synthesis

  const DefaultTopK := 4
  const NoTextMessage := "No text content could be extracted from the document"
  const NoContextAnswer := "I couldn't find any relevant information in the document to answer this question."

  /** The numeric settings a request may carry; 0 stands for a setting that is
      absent, which `||` treats the same way. */
  datatype Settings = Settings(topK: int, chunkSize: int, chunkOverlap: int, temperature: Option<real>)

  /** `{ model, concepts, settings }` */
  datatype AskOptions = AskOptions(model: Value, concepts: seq<string>, settings: Settings)

  /** The world `answerQuestions` runs in: the working directory, which files
      exist, what reading a source gives, the id drawn for this batch, and the
      answer service as seen by the question at each position. */
  datatype Environment = Environment(
    cwd: string,
    fileExists: string -> bool,
    load: string -> Loaded,
    documentId: string,
    backend: nat -> Backend)

  /** `x || fallback` for a number. */
  function OrInt(x: int, fallback: int): int {
    if x != 0 then x else fallback
  }

  function ChunkSizeOf(s: Settings): int {
    OrInt(s.chunkSize, DefaultChunkSize)
  }

  function OverlapOf(s: Settings): int {
    OrInt(s.chunkOverlap, DefaultOverlap)
  }

  /** `Math.min(settings.topK || 4, chunks.length)` */
  function TopK(s: Settings, chunkCount: nat): int {
    Min(OrInt(s.topK, DefaultTopK), chunkCount)
  }

  predicate IsAbsolute(p: string) {
    p != [] && p[0] == '/'
  }

  /** A relative local path is taken from the working directory; absolute
      paths and URLs are kept. */
  function ResolvePath(cwd: string, p: string): string {
    if !IsAbsolute(p) && !StartsWith(p, "http") then cwd + "/" + p else p
  }

  /** `p` without the path separators it ends with. */
  function StripTrailingSlashes(p: string): (q: string)
    ensures |q| <= |p| && (q == [] || q[|q| - 1] != '/')
  {
    if p != [] && p[|p| - 1] == '/' then StripTrailingSlashes(p[..|p| - 1]) else p
  }

  /** What follows the last separator of `p`. */
  function LastComponent(p: string): (b: string)
    ensures '/' !in b
  {
    if p == [] || p[|p| - 1] == '/' then []
    else LastComponent(p[..|p| - 1]) + [p[|p| - 1]]
  }

  /** `path.basename(p)`: the last component, ignoring trailing separators. */
  function Basename(p: string): (b: string)
    ensures '/' !in b
  {
    LastComponent(StripTrailingSlashes(p))
  }

  /** The base name of `dir/name` is `name` whenever `name` is a file name. */
  lemma {:induction false} BasenameOfJoin(dir: string, name: string)
    requires name != [] && '/' !in name
    ensures Basename(dir + "/" + name) == name
  {
    LastComponentOfJoin(dir, name);
  }

  lemma {:induction false} LastComponentOfJoin(dir: string, name: string)
    requires '/' !in name
    ensures LastComponent(dir + "/" + name) == name
    decreases |name|
  {
    var p := dir + "/" + name;
    if name == [] {
      assert p[|p| - 1] == '/';
    } else {
      var init := name[..|name| - 1];
      assert p[..|p| - 1] == dir + "/" + init;
      assert p[|p| - 1] == name[|name| - 1];
      assert name[|name| - 1] in name;
      assert forall c :: c in init ==> c in name;
      LastComponentOfJoin(dir, init);
      assert init + [name[|name| - 1]] == name;
    }
  }

  /** The chunk objects stored for the batch. */
  function ChunkObject(documentId: string, index: nat, chunk: string): Fields {
    map["content" := Str(chunk), "text" := Str(chunk),
        "id" := Str(documentId + "_" + NatToString(index)), "metadata" := Obj(map[])]
  }

  function ChunkObjects(documentId: string, raw: seq<string>): (objs: seq<Fields>)
    ensures |objs| == |raw|
  {
    seq(|raw|, i requires 0 <= i < |raw| => ChunkObject(documentId, i, raw[i]))
  }

  /** Every stored chunk is scored on its own text, so searching the batch's
      chunks never raises the content error. */
  lemma ChunkObjectsResolvable(documentId: string, raw: seq<string>)
    ensures Resolvable(ChunkObjects(documentId, raw))
    ensures forall i :: 0 <= i < |raw| && raw[i] != "" ==> ContentOf(ChunkObjects(documentId, raw)[i]) == Some(raw[i])
  {
  }

  /** The chunks of the document, or the message of the error that stops the
      whole batch: a missing file, a failed read or parse, or no text. */
  function Prepared(documentPath: string, settings: Settings, env: Environment): Result<seq<string>, string>
    requires ValidWindow(ChunkSizeOf(settings), OverlapOf(settings))
  {
    var path := ResolvePath(env.cwd, documentPath);
    if !env.fileExists(path) then Err("Document not found: " + path)
    else
      match Extracted(path, env.load(path), ChunkSizeOf(settings), OverlapOf(settings))
      case Err(message) => Err(message)
      case Ok(raw) => if raw == [] then Err(NoTextMessage) else Ok(raw)
  }

  // ---------------------------------------------------------------------------
  // Records

  /** The record every question gets when the batch fails before its loop. */
  function BatchFailure(question: string, message: string): Value {
    Obj(map[
      "question" := Str(question),
      "answer" := Str("An error occurred while processing your request: " + message
                      + ". Please try again or check the document format."),
      "metadata" := Obj(map["chunks" := Num(0.0), "error" := Str(message)])])
  }

  /** The record of a question for which nothing was retrieved. */
  function NoContextRecord(question: string, concepts: seq<string>): Value {
    Obj(map[
      "question" := Str(question),
      "answer" := Str(NoContextAnswer),
      "confidence" := Num(0.0),
      "sources" := Arr([]),
      "metadata" := Obj(map["chunks" := Num(0.0), "appliedConcepts" := StrArr(concepts),
                            "warning" := Str("No relevant content found in document")])])
  }

  /** The record of a question whose processing threw. */
  function ErrorRecord(question: string, message: string): Value {
    Obj(map[
      "question" := Str(question),
      "answer" := Str("Error: " + message),
      "confidence" := Num(0.0),
      "sources" := Arr([]),
      "error" := Bool(true)])
  }

  /** The record of an answered question. */
  function AnsweredRecord(question: string, reply: Value, chunkCount: nat, opts: AskOptions,
                          documentId: string, path: string): Value
  {
    Obj(map[
      "question" := Str(question),
      "answer" := Get(reply, "answer"),
      "confidence" := Or(Get(reply, "confidence"), Num(0.8)),
      "sources" := Or(Get(reply, "sources"), Arr([])),
      "metadata" := Obj(map[
        "chunks" := Num(chunkCount as real),
        "appliedConcepts" := StrArr(opts.concepts),
        "model" := Or(opts.model, Str("default")),
        "documentId" := Str(documentId),
        "documentPath" := Str(Basename(path))])])
  }

  /** The TypeError the variety filter raises on the first earlier record:
      its `metadata.chunks` is a number (or it has no metadata), which has no
      `includes`. */
  function IncludesFailure(first: Value): string {
    var meta := Get(first, "metadata");
    if Nullish(meta) then "Cannot read properties of undefined (reading 'chunks')"
    else if Nullish(Get(meta, "chunks")) then "Cannot read properties of undefined (reading 'includes')"
    else "result.metadata.chunks.includes is not a function"
  }

  /** What the answer service replies. */
  function AnswerFor(question: string, chunks: seq<Fields>, opts: Options, b: Backend): Value {
    if b.clientReady then ReplyFor(question, chunks, opts, b)
    else GenerateMockResponse(question, chunks, opts.questionIndex, b.draws, b.show)
  }

  /** The record of question `i` given the hits retrieved for it and the first
      record of the batch. */
  function QuestionRecord(i: nat, question: string, total: nat, hits: seq<Fields>,
                          first: Value, topK: int, opts: AskOptions, env: Environment, path: string): Value
  {
    if |hits| == 0 then NoContextRecord(question, opts.concepts)
    else if i > 0 && |hits| > topK then ErrorRecord(question, IncludesFailure(first))
    else
      var passed := hits[..SliceEnd(|hits|, topK)];
      var reply := AnswerFor(question, passed,
                             Options(opts.concepts, opts.settings.temperature, i, total), env.backend(i));
      AnsweredRecord(question, reply, |passed|, opts, env.documentId, path)
  }

  /** What the search returns for one question of the batch: it asks for
      `min(4 topK, n)` hits of the `n` stored chunks and gets that many, each
      one a scored chunk of the batch. */
  predicate Retrieval(question: string, topK: int, objs: seq<Fields>, hits: seq<Fields>) {
    && Resolvable(objs)
    && |hits| == SliceEnd(|objs|, Min(Min(topK * 4, |objs|), |objs|))
    && multiset(hits) <= multiset(HitsOf(ScoreAll(question, objs)))
  }

  // ---------------------------------------------------------------------------
  // The pipeline

  /** Resolving, reading and chunking the document: the steps before the
      question loop, any of which stops the batch. */
  method Prepare(documentPath: string, settings: Settings, env: Environment) returns (r: Result<seq<string>, string>)
    requires ValidWindow(ChunkSizeOf(settings), OverlapOf(settings))
    ensures r == Prepared(documentPath, settings, env)
    ensures r.Ok? ==> r.value != []
  {
    var path := ResolvePath(env.cwd, documentPath);
    if !env.fileExists(path) {
      return Err("Document not found: " + path);
    }
    r := ExtractAndChunk(path, env.load(path), ChunkSizeOf(settings), OverlapOf(settings));
    if r.Ok? && |r.value| == 0 {
      r := Err(NoTextMessage);
    }
  }

  /** One pass of the loop body: retrieve, then record. */
  method AnswerOne(store: DocumentStore, i: nat, question: string, total: nat, first: Value, topK: int,
                   opts: AskOptions, env: Environment, path: string)
    returns (record: Value, ghost hits: seq<Fields>)
    requires Resolvable(store.ChunksOf(env.documentId)) && store.ChunksOf(env.documentId) != []
    ensures record == QuestionRecord(i, question, total, hits, first, topK, opts, env, path)
    ensures Retrieval(question, topK, store.ChunksOf(env.documentId), hits)
  {
    var n := |store.ChunksOf(env.documentId)|;
    var found := store.SearchChunks(question, Min(topK * 4, n), env.documentId);
    var h := found.value;
    hits := h;
    if |h| == 0 {
      return NoContextRecord(question, opts.concepts), hits;
    }
    if i > 0 && |h| > topK {
      return ErrorRecord(question, IncludesFailure(first)), hits;
    }
    var passed := h[..SliceEnd(|h|, topK)];
    var o := Options(opts.concepts, opts.settings.temperature, i, total);
    var reply, _, _ := AnswerWithGroq(question, passed, o, env.backend(i));
    record := AnsweredRecord(question, reply, |passed|, opts, env.documentId, path);
  }

  /** The question loop over a store that holds the batch's chunks. */
  method AnswerAll(store: DocumentStore, questions: seq<string>, topK: int, opts: AskOptions, env: Environment,
                   path: string)
    returns (records: seq<Value>, ghost retrieved: seq<seq<Fields>>)
    requires Resolvable(store.ChunksOf(env.documentId)) && store.ChunksOf(env.documentId) != []
    ensures |records| == |questions| && |retrieved| == |questions|
    ensures forall i :: 0 <= i < |questions| ==> Get(records[i], "question") == Str(questions[i])
    ensures forall i :: 0 <= i < |questions| ==>
      && Retrieval(questions[i], topK, store.ChunksOf(env.documentId), retrieved[i])
      && records[i] == QuestionRecord(i, questions[i], |questions|, retrieved[i], records[0], topK, opts, env, path)
  {
    records := [];
    retrieved := [];
    if |questions| == 0 {
      return;
    }
    // The first question never reaches the variety filter, so it does not
    // matter that there is no first record yet.
    var first, hits0 := AnswerOne(store, 0, questions[0], |questions|, Undefined, topK, opts, env, path);
    FirstQuestionIgnoresEarlierRecords(questions[0], |questions|, hits0, Undefined, first, topK, opts, env, path);
    RecordNamesQuestion(0, questions[0], |questions|, hits0, first, topK, opts, env, path);
    records := [first];
    retrieved := [hits0];
    var i := 1;
    while i < |questions|
      invariant 1 <= i <= |questions| && |records| == i && |retrieved| == i
      invariant records[0] == first
      invariant forall j :: 0 <= j < i ==> Get(records[j], "question") == Str(questions[j])
      invariant forall j :: 0 <= j < i ==> Retrieval(questions[j], topK, store.ChunksOf(env.documentId), retrieved[j])
      invariant forall j :: 0 <= j < i ==>
        records[j] == QuestionRecord(j, questions[j], |questions|, retrieved[j], first, topK, opts, env, path)
    {
      var record, hits := AnswerOne(store, i, questions[i], |questions|, first, topK, opts, env, path);
      RecordNamesQuestion(i, questions[i], |questions|, hits, first, topK, opts, env, path);
      records := records + [record];
      retrieved := retrieved + [hits];
      i := i + 1;
    }
  }

  /** The record of the first question does not depend on earlier records. */
  lemma FirstQuestionIgnoresEarlierRecords(question: string, total: nat, hits: seq<Fields>, a: Value, b: Value,
                                           topK: int, opts: AskOptions, env: Environment, path: string)
    ensures QuestionRecord(0, question, total, hits, a, topK, opts, env, path)
         == QuestionRecord(0, question, total, hits, b, topK, opts, env, path)
  {
  }

  /** `answerQuestions`: one record per question, in order. A batch that cannot
      be prepared leaves the store alone and gives every question the same
      failure record; otherwise the chunks are stored under the batch's id,
      question `i` is recorded from what the search returned for it, and the
      id's removal is left pending. */
  method AnswerQuestions(store: DocumentStore, documentPath: string, questions: seq<string>, opts: AskOptions,
                         env: Environment)
    returns (records: seq<Value>, eviction: Option<string>, ghost retrieved: seq<seq<Fields>>)
    requires ValidWindow(ChunkSizeOf(opts.settings), OverlapOf(opts.settings))
    modifies store
    ensures |records| == |questions|
    ensures forall i :: 0 <= i < |questions| ==> Get(records[i], "question") == Str(questions[i])
    ensures Prepared(documentPath, opts.settings, env).Err? ==>
      && eviction == None
      && store.entries == old(store.entries)
      && forall i :: 0 <= i < |questions| ==>
           records[i] == BatchFailure(questions[i], Prepared(documentPath, opts.settings, env).error)
    ensures Prepared(documentPath, opts.settings, env).Ok? ==>
      var raw := Prepared(documentPath, opts.settings, env).value;
      var objs := ChunkObjects(env.documentId, raw);
      var topK := TopK(opts.settings, |raw|);
      && eviction == Some(env.documentId)
      && store.entries == old(store.entries)[env.documentId := objs]
      && |retrieved| == |questions|
      && forall i :: 0 <= i < |questions| ==>
           && Retrieval(questions[i], topK, objs, retrieved[i])
           && records[i] == QuestionRecord(i, questions[i], |questions|, retrieved[i], records[0], topK, opts, env,
                                           ResolvePath(env.cwd, documentPath))
  {
    var prepared := Prepare(documentPath, opts.settings, env);
    if prepared.Err? {
      records := BatchFailures(questions, prepared.error);
      return records, None, [];
    }
    var raw := prepared.value;
    var objs := ChunkObjects(env.documentId, raw);
    store.AddChunks(objs, env.documentId);
    ChunkObjectsResolvable(env.documentId, raw);
    records, retrieved := AnswerAll(store, questions, TopK(opts.settings, |objs|), opts, env,
                                    ResolvePath(env.cwd, documentPath));
    eviction := Some(env.documentId);
  }

  /** `questions.map(q => ...)` in the outer `catch`. */
  method BatchFailures(questions: seq<string>, message: string) returns (records: seq<Value>)
    ensures |records| == |questions|
    ensures forall i :: 0 <= i < |questions| ==> records[i] == BatchFailure(questions[i], message)
    ensures forall i :: 0 <= i < |questions| ==> Get(records[i], "question") == Str(questions[i])
  {
    records := seq(|questions|, i requires 0 <= i < |questions| => BatchFailure(questions[i], message));
  }

  /** Every record names its own question. */
  lemma RecordNamesQuestion(i: nat, question: string, total: nat, hits: seq<Fields>,
                            first: Value, topK: int, opts: AskOptions, env: Environment, path: string)
    ensures Get(QuestionRecord(i, question, total, hits, first, topK, opts, env, path), "question") == Str(question)
  {
  }

  // ---------------------------------------------------------------------------
  // Properties of the records

  /** A question with nothing retrieved is recorded with confidence 0 and no
      chunks, without asking the answer service. */
  lemma NoContextMeansZero(i: nat, question: string, total: nat, first: Value, topK: int, opts: AskOptions,
                           env: Environment, path: string)
    ensures var r := QuestionRecord(i, question, total, [], first, topK, opts, env, path);
      && Get(r, "confidence") == Num(0.0)
      && Get(Get(r, "metadata"), "chunks") == Num(0.0)
      && Get(r, "answer") == Str(NoContextAnswer)
  {
  }

  /** The first question, or any question with at most `topK` hits, is
      answered from the first `topK` hits, and its record counts them. */
  lemma AnsweredFromFirstHits(i: nat, question: string, total: nat, hits: seq<Fields>, first: Value, topK: int,
                              opts: AskOptions, env: Environment, path: string)
    requires hits != [] && (i == 0 || |hits| <= topK)
    ensures var r := QuestionRecord(i, question, total, hits, first, topK, opts, env, path);
      var passed := hits[..SliceEnd(|hits|, topK)];
      && Get(Get(r, "metadata"), "chunks") == Num(|passed| as real)
      && Get(r, "answer") == Get(AnswerFor(question, passed, Options(opts.concepts, opts.settings.temperature, i, total),
                                           env.backend(i)), "answer")
  {
    var passed := hits[..SliceEnd(|hits|, topK)];
    var reply := AnswerFor(question, passed, Options(opts.concepts, opts.settings.temperature, i, total), env.backend(i));
    assert QuestionRecord(i, question, total, hits, first, topK, opts, env, path)
        == AnsweredRecord(question, reply, |passed|, opts, env.documentId, path);
    AnsweredRecordFields(question, reply, |passed|, opts, env.documentId, path);
  }

  lemma AnsweredRecordFields(question: string, reply: Value, chunkCount: nat, opts: AskOptions,
                             documentId: string, path: string)
    ensures var r := AnsweredRecord(question, reply, chunkCount, opts, documentId, path);
      && Get(Get(r, "metadata"), "chunks") == Num(chunkCount as real)
      && Get(r, "answer") == Get(reply, "answer")
  {
  }

  /** Any later question with more hits than `topK` reaches the variety
      filter, which always throws: the question is recorded as an error. */
  lemma VarietyFilterAlwaysThrows(i: nat, question: string, total: nat, hits: seq<Fields>, first: Value, topK: int,
                                  opts: AskOptions, env: Environment, path: string)
    requires i > 0 && |hits| > topK && hits != []
    ensures var r := QuestionRecord(i, question, total, hits, first, topK, opts, env, path);
      && Get(r, "error") == Bool(true)
      && Get(r, "confidence") == Num(0.0)
      && Get(r, "answer") == Str("Error: " + IncludesFailure(first))
  {
  }

  /** The search for a batch of `n` chunks asks for `min(4 topK, n)` hits and
      gets that many; so when `0 < topK < n` there are more hits than `topK`,
      and every question after the first is recorded as an error. */
  lemma LaterQuestionsFail(i: nat, question: string, total: nat, objs: seq<Fields>, hits: seq<Fields>,
                           first: Value, topK: int, opts: AskOptions, env: Environment, path: string)
    requires Retrieval(question, topK, objs, hits)
    requires 0 < topK < |objs| && i > 0
    ensures Get(QuestionRecord(i, question, total, hits, first, topK, opts, env, path), "error") == Bool(true)
  {
    assert |hits| > topK;
  }

  /** With the default settings, a document of more than four chunks gets
      `topK = 4`, which is below the number of chunks. */
  lemma DefaultTopKIsFour(s: Settings, n: nat)
    requires s.topK == 0 && n > DefaultTopK
    ensures TopK(s, n) == DefaultTopK && 0 < TopK(s, n) < n
  {
  }

  /** A reported confidence of 0 (or none) becomes 0.8 in the record; any
      other is kept. */
  lemma ZeroConfidenceBecomesDefault(question: string, reply: Value, chunkCount: nat, opts: AskOptions,
                                     documentId: string, path: string)
    ensures !Truthy(Get(reply, "confidence")) ==>
      Get(AnsweredRecord(question, reply, chunkCount, opts, documentId, path), "confidence") == Num(0.8)
    ensures Truthy(Get(reply, "confidence")) ==>
      Get(AnsweredRecord(question, reply, chunkCount, opts, documentId, path), "confidence") == Get(reply, "confidence")
  {
  }
}
