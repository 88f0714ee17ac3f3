# DocuQuery question answering, modelled in Dafny

DocuQuery answers questions about an uploaded document. The backend turns the
document into overlapping text chunks and stores them under a fresh document
id in an in-memory index. For each question it ranks the chunks by a lexical
relevance score, builds a system and a user prompt from the best ones, and
asks a Groq chat model, retrying up to three times. It falls back to a canned
reply when no model is reachable, and post-processes whatever comes back. One
record per question goes back through the `/api/ask` endpoint, and the React
page turns the reply into an answer card.

The model follows the program file by file:

- `js_values.dfy` (`JsValues`): the JavaScript values the code passes around
  (`undefined`, `null`, booleans, numbers, strings, arrays, objects). It also
  holds truthiness and `||`, property reads, and how many elements
  `slice(0, end)` keeps.
- `text.dfy` (`Text`): string operations.
  - `trim` with JavaScript's white-space set.
  - ASCII lower-casing.
  - `includes`, `split(/\s+/)` and `\b`-delimited word tokens.
  - Counting the matches of a global regular expression whose source is a
    plain word.
- `chunker.dfy` (`Chunker`): `chunkText` and `extractAndChunk` of
  `backend/utils/pdf.utils.js`.
  - The window loop is a method.
  - It is proved equal to a closed-form description of the windows.
- `search_index.dfy` (`SearchIndex`): `backend/utils/simple-search.utils.js`.
  - The module-level map is a class `DocumentStore` whose methods update its
    `entries`.
  - The per-chunk score is a method with loops, proved equal to a score
    function.
  - The pipeline is score, filter, sort with the source's comparator, then
    slice.
- `synthesis.dfy` (`Synthesis`): `backend/services/prompt.service.js`.
  - The prompt builders, the temperature and the reply post-processing.
  - The canned reply.
  - The retry loop of `answerWithGroq` as a method.
- `orchestrator.dfy` (`Orchestrator`): `answerQuestions` of
  `backend/services/rag.service.js`, as a method over the store. It shows one
  record per question.
- `server.dfy` (`Server`): from `backend/server.js`:
  - the `/api/ask` handler;
  - the CORS origin decision;
  - the file's unused chunker, search and canned reply.
- `home.dfy` (`Home`): the reply normaliser and the page state of
  `frontend/src/pages/Home/Home.jsx`.

### The answer-variety step

For every question after the first, `answerQuestions` tries to skip chunks
that earlier answers used. It takes this step when the search returned more
hits than `topK`. The step reads `result.metadata.chunks.includes` on the
earlier records, but `chunks` there is a number, and error records have no
`metadata` at all. So the step always throws, and the question is recorded as
an error. The search asks for `min(4·topK, n)` hits and always returns that
many. So with `0 < topK < n`, every question after the first fails this way.
With the default `topK` of 4, that means any document of more than four
chunks. The model keeps this behaviour as written:

- `Orchestrator.IncludesFailure` gives the exact TypeError message.
- `Orchestrator.VarietyFilterAlwaysThrows` and
  `Orchestrator.LaterQuestionsFail` prove the consequence.

## Model

| member | source | states |
|---|---|---|
| JsValues.SliceEnd | backend/utils/simple-search.utils.js:77 | `slice(0, end)` keeps `min(end, len)` elements for a non-negative end and counts a negative end from the back, never more than the list holds |
| Text.TrimBlank | backend/utils/pdf.utils.js:16-17 | a window trims to the empty string exactly when it is all white space, and a trimmed non-empty string starts and ends with a non-space |
| Text.TrimStartRemovesLeadingSpace | backend/utils/pdf.utils.js:16 | `trimStart` removes a prefix made only of white space and stops at the first non-space |
| Text.TrimEndRemovesTrailingSpace | backend/utils/pdf.utils.js:16 | `trimEnd` removes a suffix made only of white space and stops at the last non-space |
| Text.CountOccurrencesPositive | backend/server.js:223 | a global match of a word finds something exactly when the text contains the word |
| Chunker.ChunkText | backend/utils/pdf.utils.js:11-23 | the loop returns, in order, the trimmed non-blank windows `text[i, min(i+chunkSize, n))` with `i` advancing by `chunkSize - overlap` |
| Chunker.LastWindowIsFirstToReachEnd | backend/utils/pdf.utils.js:14-20 | the loop stops at the first window whose end reaches the end of the text; every earlier window ends before it |
| Chunker.WindowsTileText | backend/utils/pdf.utils.js:14-20 | the first window starts at 0, each next one starts `overlap` before the previous end, only the last reaches the end of the text, and an empty text has no window |
| Chunker.ChunksAreTrimmedWindows | backend/utils/pdf.utils.js:15-17 | every chunk is a trimmed window, non-empty and at most `chunkSize` long |
| Chunker.BlankTextHasNoChunks | backend/utils/pdf.utils.js:14-17 | a text of white space only gives no chunk |
| Chunker.ChunkExample | backend/utils/pdf.utils.js:11-23 | `"abcdefghij"` with size 4 and overlap 2 gives `abcd`, `cdef`, `efgh`, `ghij` |
| Chunker.ExtractAndChunk | backend/utils/pdf.utils.js:42-62 | a failed read re-raises its error; `.txt`/`.md` sources are chunked as read, others after removing every carriage return, so no chunk holds one |
| SearchIndex.ContentFirst | backend/utils/simple-search.utils.js:23 | a chunk with a non-empty string `content` is scored on that string |
| SearchIndex.ContentFallback | backend/utils/simple-search.utils.js:23 | a chunk with no truthy `content`, `text` or `chunk` is scored on `"[object Object]"` |
| SearchIndex.WordsScoreBounds | backend/utils/simple-search.utils.js:33-44 | each query word adds between 0 and 30 points (20 for exact matches, 10 for stem matches) |
| SearchIndex.ContextScoreBounds | backend/utils/simple-search.utils.js:47-52 | the context words add 3 points each, at most 18 in all |
| SearchIndex.ScoreBounds | backend/utils/simple-search.utils.js:25-61 | every score is at least 0.1 (the diversity bonus of the one piece a split always gives) and at most `73 + 30·(query words)` |
| SearchIndex.PhraseMatchScoresHigh | backend/utils/simple-search.utils.js:28-57 | a chunk containing the whole query scores at least 40.1, even after the short-chunk penalty |
| SearchIndex.UnrelatedScoresLow | backend/utils/simple-search.utils.js:28-61 | a chunk without the query, its words or a context word scores at most 5, the diversity bonus alone |
| SearchIndex.ScoreChunk | backend/utils/simple-search.utils.js:24-61 | the accumulating loops compute the score function, which is at least 0.1 |
| SearchIndex.ScoreStored | backend/utils/simple-search.utils.js:21-64 | one chunk is scored exactly when its content resolves to a string, and then gets its score and position |
| SearchIndex.ScoreChunks | backend/utils/simple-search.utils.js:21-64 | scoring succeeds exactly when every chunk's content resolves to a string, and then yields one item per chunk in order |
| SearchIndex.FilterKeepsAll | backend/utils/simple-search.utils.js:68 | since every score is positive, the `score > 0` filter keeps every chunk |
| SearchIndex.CompareAntisymmetric | backend/utils/simple-search.utils.js:69-76 | swapping the two items negates the comparator, and an item ties with itself |
| SearchIndex.CompareNotTransitive | backend/utils/simple-search.utils.js:69-76 | three items (scores 1, 5, 9; lengths 300, 200, 100) each rank before the next in a cycle, so the comparator is no order and the result of the sort is left to the engine |
| SearchIndex.PhraseMatchRanksFirst | backend/utils/simple-search.utils.js:28-73 | the comparator orders a chunk containing the query before one with no query word and no context word (a negative comparison; where the pair ends up after the sort is not promised, see `SearchIndex.CompareNotTransitive`) |
| SearchIndex.SortByComparator | backend/utils/simple-search.utils.js:69-76 | sorting rearranges the items without adding or losing any |
| SearchIndex.Rank | backend/utils/simple-search.utils.js:67-89 | ranking returns as many hits as `slice(0, end)` keeps of the relevant items, each the hit of a distinct relevant item |
| SearchIndex.HitsOfPermutation | backend/utils/simple-search.utils.js:69-89 | any order of the items yields the same hits up to order |
| SearchIndex.HitsCarryTextAndScore | backend/utils/simple-search.utils.js:85-89 | every hit is a stored chunk with its resolved content as `text` and its relevance (at least 0.1) as `score` |
| SearchIndex.DocumentStore.AddChunks | backend/utils/simple-search.utils.js:4-7 | the id's chunk list is replaced, other ids are untouched |
| SearchIndex.DocumentStore.ClearChunks | backend/utils/simple-search.utils.js:92-100 | `"all"` empties the store, any other id removes just that id |
| SearchIndex.DocumentStore.SearchChunks | backend/utils/simple-search.utils.js:9-90 | an unknown or empty id gives `[]`; otherwise the search fails with the `toLowerCase` TypeError exactly when some content is not a string, and else returns `min(topK, n)` (as `slice` counts) hits drawn from the scored chunks |
| Synthesis.SystemPromptSentences | backend/services/prompt.service.js:227-263 | exactly one positional sentence comes first (first, last or middle question), and each concept sentence is appended iff its concept is selected, once and in a fixed order |
| Synthesis.ContextKeepsEveryBlock | backend/services/prompt.service.js:267-274 | every chunk gets a block, numbered from 1 with its score or `N/A`, and none is dropped as blank |
| Synthesis.UserPromptAnalysis | backend/services/prompt.service.js:280-286 | the analysis steps follow the introduction iff chain-of-thought is selected |
| Synthesis.UserPromptFormat | backend/services/prompt.service.js:300-308 | the prompt ends with the JSON format iff structured output is selected, and with the template otherwise |
| Synthesis.TemperatureCycle | backend/services/prompt.service.js:315-324 | the per-question variation `(i·0.05) % 0.3` is `0.05·(i mod 6)`, between 0 and 0.25 |
| Synthesis.CalculateTemperature | backend/services/prompt.service.js:315-324 | the temperature always lies in [0, 1] |
| Synthesis.TemperatureDefaults | backend/services/prompt.service.js:315-324 | without a setting it is 0.1, plus the variation when `temperature` or `dynamic` is selected; a setting in [0, 1] is kept otherwise |
| Synthesis.StripLabelRemovesOneLabel | backend/services/prompt.service.js:330-332 | stripping removes one leading label of 7, 9, 20 or 21 characters, or nothing exactly when there is no label |
| Synthesis.PostProcessPlain | backend/services/prompt.service.js:335-377 | a plain reply is the cleaned text with confidence 0.1 iff it admits missing information, else 0.8, and no sources |
| Synthesis.PostProcessStructured | backend/services/prompt.service.js:352-369 | parsed JSON objects keep their confidence or get the default; unparsable replies are wrapped with the matching reasoning |
| Synthesis.PostProcessEmpty | backend/services/prompt.service.js:327 | an empty reply becomes "No response generated" with confidence 0 |
| Synthesis.MockReplyShape | backend/services/prompt.service.js:380-423 | the canned reply is marked as mock, has confidence 0.2 without chunks and in [0.6, 1) with them, and lists `min(3, n)` sources, each an excerpt of at most 203 characters with a page from 1 to 10 |
| Synthesis.ExcerptShape | backend/services/prompt.service.js:412 | an excerpt is the text itself up to 200 characters, else its first 200 followed by `...` |
| Synthesis.MockAnswerCycles | backend/services/prompt.service.js:383-401 | the canned answer repeats every four questions |
| Synthesis.AssembleReportsRetries | backend/services/prompt.service.js:173-188 | a completed attempt's reply reports the model and `attempt - 1` retries |
| Synthesis.ExhaustedReportsFailure | backend/services/prompt.service.js:212-224 | the exhausted reply keeps the canned answer and is marked mock and failed, with three retries and the last error message or "Unknown error" |
| Synthesis.FirstCompletedMeans | backend/services/prompt.service.js:152-209 | the attempt that ends the loop is the first that completes, and all earlier ones failed; if none completes, all three failed |
| Synthesis.RetryContract | backend/services/prompt.service.js:152-224 | a completed attempt reports `attempt - 1` retries; after three failures the canned reply is returned marked as failed and mock, with three retries and the last error |
| Synthesis.AnswerWithGroq | backend/services/prompt.service.js:106-225 | without a client the canned reply comes back with no call; otherwise the reply is the first completed attempt's (or the exhausted fallback), and the pauses double from one second between attempts |
| Orchestrator.BasenameOfJoin | backend/services/rag.service.js:145 | the reported document name is the last component of the path |
| Orchestrator.ChunkObjectsResolvable | backend/services/rag.service.js:50-55 | the stored chunk objects all carry their text as `content`, so searching them never fails |
| Orchestrator.Prepare | backend/services/rag.service.js:27-47 | preparation fails with "Document not found", with the extraction error or with "No text content…", and otherwise yields a non-empty chunk list |
| Orchestrator.AnswerOne | backend/services/rag.service.js:72-146 | one question's record is built from what the search returned for `min(4·topK, n)` hits |
| Orchestrator.AnswerAll | backend/services/rag.service.js:65-164 | one record per question, in order, each naming its question and built from its own retrieval and the batch's first record |
| Orchestrator.AnswerQuestions | backend/services/rag.service.js:13-187 | a batch that cannot be prepared leaves the store alone and gives every question the same failure record; otherwise the chunks are stored under the batch id, each question's record follows from its retrieval, and the id's removal is left pending |
| Orchestrator.BatchFailures | backend/services/rag.service.js:173-186 | every question gets the failure record carrying the error message |
| Orchestrator.RecordNamesQuestion | backend/services/rag.service.js:78-163 | every kind of per-question record names its question |
| Orchestrator.NoContextMeansZero | backend/services/rag.service.js:78-93 | a question with nothing retrieved is recorded with confidence 0, zero chunks and the fixed apology |
| Orchestrator.AnsweredFromFirstHits | backend/services/rag.service.js:104-146 | the first question, or one with at most `topK` hits, is answered from the first `topK` hits, and its record counts them |
| Orchestrator.VarietyFilterAlwaysThrows | backend/services/rag.service.js:104-163 | a later question with more than `topK` hits is recorded as an error with confidence 0 |
| Orchestrator.LaterQuestionsFail | backend/services/rag.service.js:73-117 | with `0 < topK < n` the search returns more than `topK` hits, so every later question errors |
| Orchestrator.DefaultTopKIsFour | backend/services/rag.service.js:73 | without a setting `topK` is 4, below the chunk count of any document over four chunks |
| Orchestrator.ZeroConfidenceBecomesDefault | backend/services/rag.service.js:133-137 | a reported confidence of 0 or none is recorded as 0.8, any other is kept |
| Server.LegacyChunkText | backend/server.js:195-207 | the loop returns exactly the untrimmed windows of the document chunker and stops at the window that reaches the end |
| Server.LegacyChunksShape | backend/server.js:195-207 | the windows are non-empty and at most `chunkSize` long, only the empty text has none, and trimming them and dropping blanks gives the document chunker's chunks |
| Server.LegacyScorePositive | backend/server.js:214-228 | a chunk scores iff it contains the whole query or one of the query's long words |
| Server.SortByScoreRanks | backend/server.js:232 | the stable sort by descending score puts higher scores first and keeps document order on ties |
| Server.LegacyRankingOrdered | backend/server.js:230-232 | the filtered and sorted list is best first, with ties in document order |
| Server.LegacyRankingMembers | backend/server.js:214-231 | it holds exactly the chunks that score, each with its own score and position |
| Server.LegacySearchReturnsScoring | backend/server.js:230-234 | the search returns bare chunk strings that score, at most `topK` of them |
| Server.LegacySearchKeepsBest | backend/server.js:230-234 | nothing left out scores more than anything returned |
| Server.LegacyMockWithoutConcepts | backend/server.js:238-241 | without concepts the reply names no approach |
| Server.LegacyMockWithConcepts | backend/server.js:238-241 | with concepts the reply names the approach and lists all of them |
| Server.CorsAllowsOnlyTheFrontEnds | backend/server.js:35-46 | a request with an origin is allowed exactly from the two development front ends, and refused with the policy message otherwise |
| Server.MergeOptionsSpreadWins | backend/server.js:167-171 | options the request sends are kept even when falsy; `model` and `concepts` get their defaults only when absent |
| Server.ResolveAskPathFinds | backend/server.js:136-163 | the resolved path exists and stays absolute, an existing absolute path is kept, and resolution fails only when the fallback under `uploads/` is missing too |
| Server.AbsolutePathKept | backend/services/rag.service.js:28-31 | an absolute document path is used as given |
| Server.HandleAsk | backend/server.js:127-188 | 400 without a document path or a question array, 500 for a non-string path or a missing document, else 200 with `answerQuestions`' records in question order: when the batch cannot be prepared the store is unchanged and every result is the failure record with the error; otherwise the chunk objects are stored under the batch id, the eviction of that id is pending, and result `i` is the record of question `i` built from its own retrieval |
| Home.EmptyReplyIsReported | frontend/src/pages/Home/Home.jsx:171-173 | only a falsy reply is reported as an empty response |
| Home.NoInfoShowsZero | frontend/src/pages/Home/Home.jsx:76-92 | an answer admitting missing information shows 0 % whatever was reported |
| Home.NumericConfidenceIsPercentage | frontend/src/pages/Home/Home.jsx:86-144 | a reported number is clamped to [0, 1] and shown as a percentage between 0 and 100 |
| Home.StringConfidenceIsNotClamped | frontend/src/pages/Home/Home.jsx:90-91 | a numeric string is not clamped: "1.5" shows as 150 % |
| Home.FallbackConfidence | frontend/src/pages/Home/Home.jsx:92-166 | without a reported confidence the card shows 80 % for direct and plain replies and the score (or 0) for the others |
| Home.DispatchPrecedence | frontend/src/pages/Home/Home.jsx:72-125 | a reply with a question and an answer is shown as it is even with a results list; a results list shows its first result under the asked question |
| Home.PlainStringIsTheAnswer | frontend/src/pages/Home/Home.jsx:154-170 | a non-empty string reply is the answer itself, with no sources |
| Home.UploadPathIsUsable | frontend/src/pages/Home/Home.jsx:33 | after an upload there is always a path a query can be sent for |
| Home.HomePage.constructor | frontend/src/pages/Home/Home.jsx:13-18 | the page starts with no file, path or name, no answers and no processing |
| Home.HomePage.HandleFileUpload | frontend/src/pages/Home/Home.jsx:22-49 | an upload without a file changes nothing and raises the "Failed to process uploaded file" alert; any other replaces the document, clears the answers and marks processing, with no alert |
| Home.HomePage.HandleQuery | frontend/src/pages/Home/Home.jsx:51-188 | without a document path nothing is sent; otherwise the card goes in front of the earlier ones, which keep their order, or the failure becomes an alert |

## Left out

- File reading, PDF parsing and HTTP downloads (`loadPdfBuffer`, `pdf-parse`, `fs`). Which files exist and what reading a source gives are parameters.
- The Groq client: acquiring it, its network calls and its shared in-flight initialisation. Whether a client is available is a parameter, and each attempt's outcome is an abstract function of the request and the attempt number.
- Randomness and clocks: the document id, the canned reply's confidence and page draws, timestamps and `processingTime` are parameters or left out. The five-second timer that evicts the batch's chunks is returned as a pending eviction. The two-second processing timer and the loading flags of the page are left out.
- The vector search and embedding utilities, the route wrappers, the upload endpoint, logging, and the React rendering. None of them is on the question-answering path.
- `SearchIndex.ScoreChunk` (and `SearchIndex.WordsScoreBounds`, `SearchIndex.ScoreBounds`): the source builds a regular expression `\bword\b` from each query word, while the model compares the word with the text's `\w`-run tokens. So a query word holding any non-word character scores no exact match in the model, and no stem match when its stem holds one too. That covers the trailing `?` of most questions, hyphens and apostrophes: the source's `\bpolicy?\b` counts `policy`, and `\bwell-known\b` matches `well-known`. A word that is not a valid pattern, such as `(refund`, makes the source's `new RegExp` throw a SyntaxError that turns the question into an error record; the model never raises it.
- `Server.LegacyScorePositive`: the source counts the matches of `new RegExp(word, 'g')`, while the model counts the literal occurrences of the word. The two agree on words without regular-expression metacharacters. For others they differ: `policy?` as a pattern also matches `polic`, and a word such as `(refund` makes the constructor throw, which the model never does.
- Lower-casing covers ASCII letters only.
- `Chunker.ChunkText`: requires `0 <= overlap < chunkSize`, and so do `Server.LegacyChunkText`, `Chunker.ExtractAndChunk`, `Orchestrator.Prepare`, `Orchestrator.AnswerQuestions` and `Server.HandleAsk`, which take the sizes from the request settings. Both source loops run forever when `0 < chunkSize <= overlap` and the text is longer than `chunkSize`. They do end in the other cases outside that range, which the model does not describe: a negative overlap (the windows then skip `-overlap` characters between them), any overlap on a text no longer than `chunkSize`, and some non-positive chunk sizes, where `slice` counts a negative end from the back. So a request with `chunkOverlap: -10`, or with `chunkOverlap: 1500` on a document of at most 1200 characters, is answered by the server but lies outside the model.
- `Chunker.ChunkText`: lengths and slice positions count Unicode code points, while JavaScript's `length`, `slice` and `substring` count UTF-16 code units. Text outside the Basic Multilingual Plane is therefore chunked differently; for example, "😀😀😀" with size 2 and overlap 0 gives three chunks in the source and two in the model. Lone surrogates, which a window can cut off in the source, cannot be represented. The same holds for `Server.LegacyChunkText`, for the short-chunk penalty and the `|w| > 2` word filter in `SearchIndex.ScoreChunk`, for the length tie-break of `SearchIndex.CompareAntisymmetric` / `SearchIndex.Compare`, and for the 200-character cut of `Synthesis.ExcerptShape`.
- `SearchIndex.DocumentStore.SearchChunks`: promises the count and the sub-multiset of hits, not their order. The comparator is not a consistent order (`SearchIndex.CompareNotTransitive`), so the order depends on the engine's sort algorithm.
- Only object chunks are stored. Bare string chunks in the store are not modelled.
- `Number.prototype.toFixed` rounding and the printing of numbers: `show` functions stand for the engine's number formatting.
- JSON arrays returned by `JSON.parse` in post-processing keep no `confidence` property, since an array in the model has no fields.
- `Synthesis.AssembleReportsRetries` / `Synthesis.Assemble`: when a completed structured reply carries a string or array `metadata`, the model drops it. The source spreads such a value into index keys (`"ab"` becomes `{"0": "a", "1": "b"}`) before adding the model, token and retry fields. The exhausted-retries reply is not affected, since the canned reply's `metadata` is always an object.
- `path.join` normalisation (`..`, `.`, doubled separators) is not modelled. Joins are plain concatenation with `/`.
- `Server.HandleAsk`: requires every question to be a string. Per-question TypeErrors for other values are not modelled. The pipeline options are given already decoded, with absent numbers as 0.
- `Server.HandleAsk`: the message of Node's path TypeError stops before its "Received …" suffix. The `stack` field of development builds is left out.
- The `GROQ_MODEL` environment variable is the backend's `model` parameter.
- `CONCEPT_PROMPTS` in the prompt service is never read, so it is left out.
- `Home.HomePage.HandleQuery`: the server call is a parameter, either its reply or the message to display. The card's `id` and `timestamp` clock readings are left out.
- NaN is not a value of the model. A `parseFloat` that gives NaN is `None`.
