/** backend/server.js: the `/api/ask` handler (validation, document path
    resolution, option defaults, the response), the CORS origin decision and
    three self-contained helpers the file defines but never calls: a simpler
    chunker, a simpler search and a canned reply. */
module Server {
  import opened JsValues
  import opened Text
  import opened Chunker
  import opened SearchIndex
  import opened Orchestrator

  // ---------------------------------------------------------------------------
  // The legacy chunker

  /** `chunkText` of the server: the same windows as the document chunker,
      neither trimmed nor filtered. */
  method LegacyChunkText(text: string, chunkSize: int, overlap: int) returns (chunks: seq<string>)
    requires ValidWindow(chunkSize, overlap)
    ensures chunks == Windows(text, chunkSize, overlap)
  {
    ghost var ws := Windows(text, chunkSize, overlap);
    ghost var k: nat := 0;
    LastWindowIsFirstToReachEnd(|text|, chunkSize, overlap);
    chunks := [];
    var start := 0;
    while start < |text|
      invariant |text| > 0 ==> k <= LastWindow(|text|, chunkSize, overlap)
      invariant k <= |ws| && (start < |text| || |text| == 0)
      invariant start == WindowStart(k, chunkSize, overlap)
      invariant chunks == ws[..k]
      decreases |text| - start
    {
      WindowStartsInside(|text|, k, chunkSize, overlap);
      var end := Min(start + chunkSize, |text|);
      assert text[start..end] == ws[k];
      chunks := chunks + [text[start..end]];
      assert chunks == ws[..k + 1];
      start := end - overlap;
      if start >= |text| - overlap {
        assert k == LastWindow(|text|, chunkSize, overlap);
        assert ws[..k + 1] == ws;
        break;
      }
      k := k + 1;
    }
  }

  /** The legacy chunks cover the text: none is empty, none is longer than
      `chunkSize`, and only the empty text has none. Trimming them and
      dropping the blank ones gives the document chunker's chunks. */
  lemma LegacyChunksShape(text: string, chunkSize: int, overlap: int)
    requires ValidWindow(chunkSize, overlap)
    ensures Windows(text, chunkSize, overlap) == [] <==> text == []
    ensures forall w :: w in Windows(text, chunkSize, overlap) ==> 0 < |w| <= chunkSize
    ensures KeepNonEmpty(TrimAll(Windows(text, chunkSize, overlap))) == Chunks(text, chunkSize, overlap)
  {
    WindowsTileText(|text|, chunkSize, overlap);
    var ws := Windows(text, chunkSize, overlap);
    forall w | w in ws
      ensures 0 < |w| <= chunkSize
    {
      var k :| 0 <= k < |ws| && ws[k] == w;
      WindowStartsInside(|text|, k, chunkSize, overlap);
    }
  }

  // ---------------------------------------------------------------------------
  // The legacy search

  /** `{ chunk, score, index }` */
  datatype LegacyItem = LegacyItem(chunk: string, score: nat, index: nat)

  /** Two points per occurrence of each query word, counted as a global
      regular expression whose source is the word. */
  function OccurrenceScore(chunkLower: string, words: seq<string>): nat
    requires forall w :: w in words ==> w != []
  {
    if words == [] then 0
    else
      assert words[0] in words;
      assert forall w :: w in words[1..] ==> w in words;
      2 * CountOccurrences(chunkLower, words[0]) + OccurrenceScore(chunkLower, words[1..])
  }

  /** Ten points for the whole query, two per word occurrence. */
  function LegacyScore(query: string, chunk: string): nat {
    var queryLower := ToLower(query);
    var chunkLower := ToLower(chunk);
    (if Contains(chunkLower, queryLower) then 10 else 0) + OccurrenceScore(chunkLower, QueryWords(queryLower))
  }

  function LegacyScoreAll(query: string, chunks: seq<string>): (items: seq<LegacyItem>)
    ensures |items| == |chunks|
  {
    seq(|chunks|, i requires 0 <= i < |chunks| => LegacyItem(chunks[i], LegacyScore(query, chunks[i]), i))
  }

  /** `filter(item => item.score > 0)` */
  function LegacyRelevant(items: seq<LegacyItem>): (r: seq<LegacyItem>)
    ensures forall y :: y in r <==> y in items && y.score > 0
  {
    if items == [] then []
    else (if items[0].score > 0 then [items[0]] else []) + LegacyRelevant(items[1..])
  }

  /** The order the legacy comparator and a stable sort produce together:
      higher score first, and on equal scores the original order. */
  predicate RanksBefore(a: LegacyItem, b: LegacyItem) {
    a.score > b.score || (a.score == b.score && a.index < b.index)
  }

  predicate Ranked(s: seq<LegacyItem>) {
    forall i, j :: 0 <= i < j < |s| ==> RanksBefore(s[i], s[j])
  }

  predicate IndexAscending(s: seq<LegacyItem>) {
    forall i, j :: 0 <= i < j < |s| ==> s[i].index < s[j].index
  }

  /** Puts `x` before the first element that does not score more. */
  function Insert(x: LegacyItem, t: seq<LegacyItem>): (r: seq<LegacyItem>)
    ensures multiset(r) == multiset(t) + multiset{x}
  {
    if t == [] then [x]
    else if x.score >= t[0].score then [x] + t
    else
      assert t == [t[0]] + t[1..];
      [t[0]] + Insert(x, t[1..])
  }

  /** `sort((a, b) => b.score - a.score)`, stable as the language requires. */
  function SortByScore(s: seq<LegacyItem>): (r: seq<LegacyItem>)
    ensures multiset(r) == multiset(s)
  {
    if s == [] then []
    else
      assert s == [s[0]] + s[1..];
      Insert(s[0], SortByScore(s[1..]))
  }

  lemma {:induction false} InsertRanked(x: LegacyItem, t: seq<LegacyItem>)
    requires Ranked(t)
    requires forall y :: y in t ==> x.index < y.index
    ensures Ranked(Insert(x, t))
  {
    if t == [] {
    } else if x.score >= t[0].score {
      forall j | 0 <= j < |t|
        ensures RanksBefore(x, t[j])
      {
        if j > 0 {
          assert RanksBefore(t[0], t[j]);
        }
        assert t[j] in t;
      }
      var r := [x] + t;
      forall i, j | 0 <= i < j < |r|
        ensures RanksBefore(r[i], r[j])
      {
        assert r[j] == t[j - 1];
        if i > 0 {
          assert r[i] == t[i - 1];
        }
      }
    } else {
      var tail := t[1..];
      forall y | y in tail
        ensures x.index < y.index
      {
        assert y in t;
      }
      InsertRanked(x, tail);
      var rest := Insert(x, tail);
      forall j | 0 <= j < |rest|
        ensures RanksBefore(t[0], rest[j])
      {
        assert rest[j] in multiset(rest);
        if rest[j] != x {
          assert rest[j] in multiset(tail);
          var k :| 0 <= k < |tail| && tail[k] == rest[j];
          assert RanksBefore(t[0], t[k + 1]);
        }
      }
      var r := [t[0]] + rest;
      forall i, j | 0 <= i < j < |r|
        ensures RanksBefore(r[i], r[j])
      {
        assert r[j] == rest[j - 1];
        if i > 0 {
          assert r[i] == rest[i - 1];
        }
      }
    }
  }

  /** A list in original order is its first item followed by later ones. */
  lemma IndexAscendingTail(s: seq<LegacyItem>)
    requires IndexAscending(s) && s != []
    ensures IndexAscending(s[1..])
    ensures forall y :: y in s[1..] ==> s[0].index < y.index
  {
    forall y | y in s[1..]
      ensures s[0].index < y.index
    {
      var k :| 0 <= k < |s[1..]| && s[1..][k] == y;
      assert s[k + 1] == y;
    }
  }

  lemma IndexAscendingCons(x: LegacyItem, rest: seq<LegacyItem>)
    requires IndexAscending(rest)
    requires forall y :: y in rest ==> x.index < y.index
    ensures IndexAscending([x] + rest)
  {
    var r := [x] + rest;
    forall i, j | 0 <= i < j < |r|
      ensures r[i].index < r[j].index
    {
      assert r[j] == rest[j - 1];
      assert r[j] in rest;
      if i > 0 {
        assert r[i] == rest[i - 1];
      }
    }
  }

  /** Sorting items listed in their original order ranks them. */
  lemma {:induction false} SortByScoreRanks(s: seq<LegacyItem>)
    requires IndexAscending(s)
    ensures Ranked(SortByScore(s))
  {
    if s != [] {
      var tail := s[1..];
      IndexAscendingTail(s);
      SortByScoreRanks(tail);
      forall y | y in SortByScore(tail)
        ensures s[0].index < y.index
      {
        assert y in multiset(SortByScore(tail));
        assert y in multiset(tail);
      }
      InsertRanked(s[0], SortByScore(tail));
    }
  }

  /** Filtering keeps the original order. */
  lemma {:induction false} RelevantKeepsOrder(items: seq<LegacyItem>)
    requires IndexAscending(items)
    ensures IndexAscending(LegacyRelevant(items))
  {
    if items != [] {
      IndexAscendingTail(items);
      RelevantKeepsOrder(items[1..]);
      if items[0].score > 0 {
        IndexAscendingCons(items[0], LegacyRelevant(items[1..]));
      }
    }
  }

  /** A chunk scores exactly when its lower-cased text contains the whole
      lower-cased query or one of the query's long words. */
  lemma LegacyScorePositive(query: string, chunk: string)
    ensures LegacyScore(query, chunk) > 0 <==>
      || Contains(ToLower(chunk), ToLower(query))
      || exists w :: w in QueryWords(ToLower(query)) && Contains(ToLower(chunk), w)
  {
    OccurrenceScorePositive(ToLower(chunk), QueryWords(ToLower(query)));
  }

  /** The relevant items, best first. */
  function LegacyRanking(query: string, chunks: seq<string>): seq<LegacyItem> {
    SortByScore(LegacyRelevant(LegacyScoreAll(query, chunks)))
  }

  /** The legacy `searchChunks`: the first `topK` of the ranking, as bare
      strings. */
  function LegacySearch(chunks: seq<string>, query: string, topK: int): seq<string> {
    var ranked := LegacyRanking(query, chunks);
    seq(SliceEnd(|ranked|, topK), i requires 0 <= i < SliceEnd(|ranked|, topK) => ranked[i].chunk)
  }

  /** A chunk scores exactly when it contains the whole query or one of its
      long words. */
  lemma {:induction false} OccurrenceScorePositive(chunkLower: string, words: seq<string>)
    requires forall w :: w in words ==> w != []
    ensures OccurrenceScore(chunkLower, words) > 0 <==> exists w :: w in words && Contains(chunkLower, w)
  {
    if words != [] {
      assert words[0] in words;
      assert forall w :: w in words[1..] ==> w in words;
      CountOccurrencesPositive(chunkLower, words[0]);
      OccurrenceScorePositive(chunkLower, words[1..]);
      assert forall w :: w in words <==> w == words[0] || w in words[1..];
    }
  }

  /** The ranking is best first, with ties in document order. */
  lemma LegacyRankingOrdered(chunks: seq<string>, query: string)
    ensures Ranked(LegacyRanking(query, chunks))
  {
    var items := LegacyScoreAll(query, chunks);
    RelevantKeepsOrder(items);
    SortByScoreRanks(LegacyRelevant(items));
  }

  /** The ranking holds exactly the chunks that score, each with its own
      score and position. */
  lemma LegacyRankingMembers(chunks: seq<string>, query: string)
    ensures forall y :: y in LegacyRanking(query, chunks) ==>
      && y.index < |chunks|
      && y.chunk == chunks[y.index]
      && y.score == LegacyScore(query, chunks[y.index])
      && y.score > 0
    ensures forall i :: 0 <= i < |chunks| && LegacyScore(query, chunks[i]) > 0 ==>
      LegacyItem(chunks[i], LegacyScore(query, chunks[i]), i) in LegacyRanking(query, chunks)
  {
    var items := LegacyScoreAll(query, chunks);
    var ranked := LegacyRanking(query, chunks);
    forall y | y in ranked
      ensures y in items && y.score > 0
    {
      assert y in multiset(ranked);
    }
    forall i | 0 <= i < |chunks| && LegacyScore(query, chunks[i]) > 0
      ensures LegacyItem(chunks[i], LegacyScore(query, chunks[i]), i) in ranked
    {
      assert items[i] in items;
      assert items[i] in multiset(LegacyRelevant(items));
    }
  }

  /** What the legacy search returns are chunks of the document that score,
      at most `topK` of them (when `topK` is not negative). */
  lemma LegacySearchReturnsScoring(chunks: seq<string>, query: string, topK: int)
    ensures forall c :: c in LegacySearch(chunks, query, topK) ==> c in chunks && LegacyScore(query, c) > 0
    ensures topK >= 0 ==> |LegacySearch(chunks, query, topK)| <= topK
  {
    LegacyRankingMembers(chunks, query);
    var ranked := LegacyRanking(query, chunks);
    var r := LegacySearch(chunks, query, topK);
    forall c | c in r
      ensures c in chunks && LegacyScore(query, c) > 0
    {
      var i :| 0 <= i < |r| && r[i] == c;
      assert ranked[i] in ranked;
    }
  }

  /** Whatever is returned scores at least as much as anything left out. */
  lemma LegacySearchKeepsBest(chunks: seq<string>, query: string, topK: int, i: nat, j: nat)
    requires i < |LegacySearch(chunks, query, topK)| <= j < |LegacyRanking(query, chunks)|
    ensures LegacyRanking(query, chunks)[i].score >= LegacyRanking(query, chunks)[j].score
  {
    LegacyRankingOrdered(chunks, query);
  }

  // ---------------------------------------------------------------------------
  // The legacy canned reply

  const MockHead := "Mock AI Response"

  function MockTail(question: string): string {
    ":" + (" Based on the document context, here's an analysis of \"" + (question
      + "\". The document contains relevant information that would be processed by the AI model to provide a comprehensive answer."))
  }

  /** The legacy `generateMockResponse`. */
  function LegacyMockResponse(question: string, concepts: seq<string>): string {
    if concepts == [] then MockHead + MockTail(question)
    else MockHead + (" using " + (Join(concepts, ", ") + (" approach" + MockTail(question))))
  }

  /** Without concepts the reply names no approach. */
  lemma LegacyMockWithoutConcepts(question: string)
    ensures !StartsWith(LegacyMockResponse(question, []), MockHead + " using ")
  {
    NotPrefixWhenNextDiffers(MockHead, MockTail(question), " using ");
  }

  /** With concepts the reply names the approach and lists all of them. */
  lemma LegacyMockWithConcepts(question: string, concepts: seq<string>)
    requires concepts != []
    ensures StartsWith(LegacyMockResponse(question, concepts), MockHead + " using ")
    ensures StartsWith(LegacyMockResponse(question, concepts), MockHead + " using " + Join(concepts, ", ") + " approach")
  {
    var j := Join(concepts, ", ");
    var tail := " approach" + MockTail(question);
    PrefixOfNested(MockHead, " using ", j + tail);
    ConcatAssociates(MockHead, " using ", j, tail);
    PrefixOfNested(MockHead + " using " + j, " approach", MockTail(question));
  }

  // ---------------------------------------------------------------------------
  // CORS

  const AllowedOrigins := ["http://localhost:5173", "http://localhost:5174"]
  const CorsMessage := "The CORS policy for this site does not allow access from the specified Origin."

  /** The origin callback: a request without an origin header (or with an
      empty one) is let through, and so is one from an allowed origin. */
  function CorsDecision(origin: Option<string>): (r: Result<bool, string>)
    ensures r.Ok? ==> r.value
  {
    if origin == None || origin == Some("") then Ok(true)
    else if origin.value in AllowedOrigins then Ok(true)
    else Err(CorsMessage)
  }

  /** Exactly the two development front ends may call with an origin. */
  lemma CorsAllowsOnlyTheFrontEnds(origin: string)
    ensures origin != "" ==>
      (CorsDecision(Some(origin)).Ok? <==> origin == "http://localhost:5173" || origin == "http://localhost:5174")
    ensures CorsDecision(Some(origin)).Err? ==> CorsDecision(Some(origin)).error == CorsMessage
  {
  }

  // ---------------------------------------------------------------------------
  // /api/ask

  const InvalidRequestMessage := "Invalid request format: documentPath and questions array are required"
  const PathTypeMessage := "The \"path\" argument must be of type string"
  const DefaultModel := "llama3-70b-8192"

  /** The options handed to the pipeline: the defaults for `model` and
      `concepts`, then the request's own options spread over them. */
  function MergeOptions(options: map<string, Value>): (merged: map<string, Value>)
    ensures options.Keys <= merged.Keys
  {
    map["model" := Or(Get(Obj(options), "model"), Str(DefaultModel)),
        "concepts" := Or(Get(Obj(options), "concepts"), Arr([Str("dynamic"), Str("chain-thought")]))] + options
  }

  /** The spread wins: a `model` or `concepts` the request sends is kept even
      when it is falsy, and the default applies only when it is absent. */
  lemma MergeOptionsSpreadWins(options: map<string, Value>)
    ensures forall k :: k in options ==> MergeOptions(options)[k] == options[k]
    ensures "model" !in options ==> MergeOptions(options)["model"] == Str(DefaultModel)
    ensures "concepts" !in options ==> MergeOptions(options)["concepts"] == Arr([Str("dynamic"), Str("chain-thought")])
  {
  }

  /** Where the handler looks for the document: absolute paths as given,
      `uploads/...` under the working directory, anything else under the
      server's own directory, and failing that the upload directory. */
  function ResolveAskPath(cwd: string, dirname: string, p: string, fileExists: string -> bool): (r: Result<string, string>)
  {
    var primary := if IsAbsolute(p) then p else if StartsWith(p, "uploads/") then cwd + "/" + p else dirname + "/" + p;
    if fileExists(primary) then Ok(primary)
    else
      var alt := cwd + "/uploads/" + Basename(p);
      if fileExists(alt) then Ok(alt)
      else Err("Document not found at path: " + primary + " or " + alt)
  }

  /** The resolved path exists, and is absolute when both directories are;
      resolution fails only when neither candidate exists. */
  lemma ResolveAskPathFinds(cwd: string, dirname: string, p: string, fileExists: string -> bool)
    ensures ResolveAskPath(cwd, dirname, p, fileExists).Ok? ==> fileExists(ResolveAskPath(cwd, dirname, p, fileExists).value)
    ensures ResolveAskPath(cwd, dirname, p, fileExists).Ok? && IsAbsolute(cwd) && IsAbsolute(dirname) ==>
      IsAbsolute(ResolveAskPath(cwd, dirname, p, fileExists).value)
    ensures ResolveAskPath(cwd, dirname, p, fileExists).Err? ==>
      !fileExists(cwd + "/uploads/" + Basename(p)) && (IsAbsolute(p) ==> !fileExists(p))
    ensures IsAbsolute(p) && fileExists(p) ==> ResolveAskPath(cwd, dirname, p, fileExists) == Ok(p)
  {
  }

  /** The path the pipeline receives is kept as it is. */
  lemma AbsolutePathKept(cwd: string, p: string)
    requires IsAbsolute(p)
    ensures ResolvePath(cwd, p) == p
  {
  }

  /** `error.status || 500` */
  function ErrorStatus(status: Value): Value {
    Or(status, Num(500.0))
  }

  /** `{ success: false, error: error.message || "Internal server error" }` */
  function ErrorBody(message: string): Value {
    Obj(map["success" := Bool(false), "error" := Or(Str(message), Str("Internal server error"))])
  }

  function SuccessBody(results: seq<Value>, timestamp: string): Value {
    Obj(map["success" := Bool(true), "results" := Arr(results), "timestamp" := Str(timestamp)])
  }

  /** The questions of a request, once it passed validation. */
  function QuestionTexts(items: seq<Value>): (qs: seq<string>)
    requires forall i :: 0 <= i < |items| ==> items[i].Str?
    ensures |qs| == |items| && forall i :: 0 <= i < |items| ==> items[i] == Str(qs[i])
  {
    seq(|items|, i requires 0 <= i < |items| => items[i].s)
  }

  /** The `/api/ask` handler: 400 for a request without a document path or
      without a question array, 500 when the path is not a string or the
      document is nowhere to be found, and otherwise 200 with one record per
      question, in order. */
  method HandleAsk(store: DocumentStore, dirname: string, documentPath: Value, questions: Value,
                   opts: AskOptions, env: Environment, timestamp: string)
    returns (status: Value, body: Value, eviction: Option<string>, ghost retrieved: seq<seq<Fields>>)
    requires ValidWindow(ChunkSizeOf(opts.settings), OverlapOf(opts.settings))
    requires questions.Arr? ==> forall i :: 0 <= i < |questions.items| ==> questions.items[i].Str?
    modifies store
    ensures !Truthy(documentPath) || !questions.Arr? ==>
      status == Num(400.0) && body == ErrorBody(InvalidRequestMessage) && eviction == None
      && store.entries == old(store.entries)
    ensures Truthy(documentPath) && questions.Arr? && !documentPath.Str? ==>
      status == Num(500.0) && body == ErrorBody(PathTypeMessage) && eviction == None
      && store.entries == old(store.entries)
    ensures Truthy(documentPath) && questions.Arr? && documentPath.Str? ==>
      match ResolveAskPath(env.cwd, dirname, documentPath.s, env.fileExists)
      case Err(message) =>
        status == Num(500.0) && body == ErrorBody(message) && eviction == None
        && store.entries == old(store.entries)
      case Ok(p) =>
        && status == Num(200.0)
        && Get(body, "success") == Bool(true)
        && Get(body, "timestamp") == Str(timestamp)
        && Get(body, "results").Arr?
        && |Get(body, "results").items| == |questions.items|
        && (forall i :: 0 <= i < |questions.items| ==> Get(Get(body, "results").items[i], "question") == questions.items[i])
        && (eviction.Some? <==> Prepared(p, opts.settings, env).Ok?)
        && (Prepared(p, opts.settings, env).Err? ==>
              && store.entries == old(store.entries)
              && forall i :: 0 <= i < |questions.items| ==>
                   Get(body, "results").items[i]
                   == BatchFailure(questions.items[i].s, Prepared(p, opts.settings, env).error))
        && (Prepared(p, opts.settings, env).Ok? ==>
              var raw := Prepared(p, opts.settings, env).value;
              var objs := ChunkObjects(env.documentId, raw);
              var topK := TopK(opts.settings, |raw|);
              var results := Get(body, "results").items;
              && eviction == Some(env.documentId)
              && store.entries == old(store.entries)[env.documentId := objs]
              && |retrieved| == |questions.items|
              && forall i :: 0 <= i < |questions.items| ==>
                   && Retrieval(questions.items[i].s, topK, objs, retrieved[i])
                   && results[i] == QuestionRecord(i, questions.items[i].s, |questions.items|, retrieved[i],
                                                   results[0], topK, opts, env, ResolvePath(env.cwd, p)))
  {
    if !Truthy(documentPath) || !questions.Arr? {
      return ErrorStatus(Num(400.0)), ErrorBody(InvalidRequestMessage), None, [];
    }
    if !documentPath.Str? {
      return ErrorStatus(Undefined), ErrorBody(PathTypeMessage), None, [];
    }
    var resolved := ResolveAskPath(env.cwd, dirname, documentPath.s, env.fileExists);
    if resolved.Err? {
      return ErrorStatus(Undefined), ErrorBody(resolved.error), None, [];
    }
    var qs := QuestionTexts(questions.items);
    var records, ev, r := AnswerQuestions(store, resolved.value, qs, opts, env);
    return Num(200.0), SuccessBody(records, timestamp), ev, r;
  }
}
