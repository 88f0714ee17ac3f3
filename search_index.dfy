/** The per-session lexical index of backend/utils/simple-search.utils.js: a
    store from document id to chunk list, and a search that scores every chunk
    of one document against a query, orders them with a score-then-length
    comparator and keeps the first `topK`. */
module SearchIndex {
  import opened JsValues
  import opened Text

  /** A chunk object as the index stores it: its own enumerable properties. */
  type Fields = map<string, Value>

  /** `chunk[key]` */
  function Field(chunk: Fields, key: string): Value {
    if key in chunk then chunk[key] else Undefined
  }

  /** What `toString` gives for a plain object. */
  const ObjectString := "[object Object]"

  /** The TypeError raised when the resolved content has no `toLowerCase`. */
  const NotAStringMessage := "chunkContent.toLowerCase is not a function"

  /** `chunk.content || chunk.text || chunk.chunk || chunk.toString()`, when it is
      a string; `None` when the first truthy property is some other value, on
      which lower-casing throws. */
  function ContentOf(chunk: Fields): Option<string> {
    var v := Or(Or(Field(chunk, "content"), Field(chunk, "text")), Field(chunk, "chunk"));
    if !Truthy(v) then Some(ObjectString)
    else if v.Str? then Some(v.s)
    else None
  }

  /** A chunk whose `content` is a non-empty string is scored on that string. */
  lemma ContentFirst(chunk: Fields, c: string)
    requires Field(chunk, "content") == Str(c) && c != ""
    ensures ContentOf(chunk) == Some(c)
  {
  }

  /** A chunk without any truthy `content`, `text` or `chunk` is scored on the
      text `[object Object]`. */
  lemma ContentFallback(chunk: Fields)
    requires !Truthy(Field(chunk, "content")) && !Truthy(Field(chunk, "text")) && !Truthy(Field(chunk, "chunk"))
    ensures ContentOf(chunk) == Some(ObjectString)
  {
  }

  predicate Resolvable(chunks: seq<Fields>) {
    forall i :: 0 <= i < |chunks| ==> ContentOf(chunks[i]).Some?
  }

  // ---------------------------------------------------------------------------
  // Scoring

  /** The pieces of the lower-cased query longer than two characters, in order
      and with repetitions. */
  function LongWords(ws: seq<string>): (r: seq<string>)
    ensures forall w :: w in r ==> |w| > 2 && w in ws
  {
    if ws == [] then []
    else (if |ws[0]| > 2 then [ws[0]] else []) + LongWords(ws[1..])
  }

  function QueryWords(queryLower: string): seq<string> {
    LongWords(SplitWs(queryLower))
  }

  /** `word.slice(0, -1)` */
  function Stem(word: string): string {
    if word == [] then [] else word[..|word| - 1]
  }

  /** Exact matches of the word, capped at 20, plus words starting with its
      stem, capped at 10. */
  function WordScore(word: string, tokens: seq<string>): real {
    RMin(5.0 * CountEqual(tokens, word) as real, 20.0)
      + RMin(2.0 * CountPrefixed(tokens, Stem(word)) as real, 10.0)
  }

  /** The contributions of the query words, summed in order. */
  function WordsScore(words: seq<string>, tokens: seq<string>): real {
    if words == [] then 0.0
    else WordsScore(words[..|words| - 1], tokens) + WordScore(words[|words| - 1], tokens)
  }

  const ContextWords: seq<string> :=
    ["definition", "explanation", "description", "meaning", "refers", "indicates"]

  /** Three points for each listed context word the chunk contains. */
  function ContextScore(contextWords: seq<string>, chunkLower: string): real {
    if contextWords == [] then 0.0
    else
      var last := contextWords[|contextWords| - 1];
      ContextScore(contextWords[..|contextWords| - 1], chunkLower) + (if Contains(chunkLower, last) then 3.0 else 0.0)
  }

  lemma {:induction false} ContextScoreZero(contextWords: seq<string>, chunkLower: string)
    requires forall w :: w in contextWords ==> !Contains(chunkLower, w)
    ensures ContextScore(contextWords, chunkLower) == 0.0
  {
    if contextWords != [] {
      ContextScoreZero(contextWords[..|contextWords| - 1], chunkLower);
    }
  }

  function PhraseScore(chunkLower: string, queryLower: string): real {
    if Contains(chunkLower, queryLower) then 50.0 else 0.0
  }

  /** A tenth of a point per distinct white-space separated piece, capped at 5. */
  function Diversity(chunkLower: string): real {
    RMin(0.1 * |ToSet(SplitWs(chunkLower))| as real, 5.0)
  }

  /** The relevance of a chunk's content: phrase, word and context points,
      reduced by a fifth for content under 100 characters, plus diversity. */
  function Score(queryLower: string, queryWords: seq<string>, content: string): real {
    var chunkLower := ToLower(content);
    var raw := PhraseScore(chunkLower, queryLower) + WordsScore(queryWords, Words(chunkLower))
      + ContextScore(ContextWords, chunkLower);
    (if |content| < 100 then raw * 0.8 else raw) + Diversity(chunkLower)
  }

  function Relevance(query: string, content: string): real {
    Score(ToLower(query), QueryWords(ToLower(query)), content)
  }

  lemma {:induction false} WordsScoreBounds(words: seq<string>, tokens: seq<string>)
    ensures 0.0 <= WordsScore(words, tokens) <= 30.0 * |words| as real
  {
    if words != [] {
      WordsScoreBounds(words[..|words| - 1], tokens);
    }
  }

  lemma {:induction false} ContextScoreBounds(contextWords: seq<string>, chunkLower: string)
    ensures 0.0 <= ContextScore(contextWords, chunkLower) <= 3.0 * |contextWords| as real
  {
    if contextWords != [] {
      ContextScoreBounds(contextWords[..|contextWords| - 1], chunkLower);
    }
  }

  /** Every score is at least 0.1, because splitting on white space gives at
      least one piece; and at most 73 plus 30 per query word. */
  lemma ScoreBounds(queryLower: string, queryWords: seq<string>, content: string)
    ensures 0.1 <= Score(queryLower, queryWords, content) <= 73.0 + 30.0 * |queryWords| as real
  {
    var chunkLower := ToLower(content);
    WordsScoreBounds(queryWords, Words(chunkLower));
    ContextScoreBounds(ContextWords, chunkLower);
    DistinctCountPositive(SplitWs(chunkLower));
  }

  /** A chunk that contains the whole query keeps at least 40 points of the
      phrase bonus, even when it is short. */
  lemma PhraseMatchScoresHigh(queryLower: string, queryWords: seq<string>, content: string)
    requires Contains(ToLower(content), queryLower)
    ensures Score(queryLower, queryWords, content) >= 40.1
  {
    var chunkLower := ToLower(content);
    WordsScoreBounds(queryWords, Words(chunkLower));
    ContextScoreBounds(ContextWords, chunkLower);
    DistinctCountPositive(SplitWs(chunkLower));
  }

  /** A chunk that shares nothing with the query and no context word scores
      only its diversity bonus. */
  lemma UnrelatedScoresLow(queryLower: string, queryWords: seq<string>, content: string)
    requires !Contains(ToLower(content), queryLower)
    requires WordsScore(queryWords, Words(ToLower(content))) == 0.0
    requires forall w :: w in ContextWords ==> !Contains(ToLower(content), w)
    ensures Score(queryLower, queryWords, content) <= 5.0
  {
    ContextScoreZero(ContextWords, ToLower(content));
  }

  /** The per-chunk scoring of `searchChunks`: the phrase test, a pass over the
      query words, a pass over the context words, the length penalty and the
      diversity bonus. */
  method ScoreChunk(queryLower: string, queryWords: seq<string>, content: string) returns (score: real)
    ensures score == Score(queryLower, queryWords, content)
    ensures 0.1 <= score
  {
    var chunkLower := ToLower(content);
    var tokens := Words(chunkLower);
    score := 0.0;
    if Contains(chunkLower, queryLower) {
      score := score + 50.0;
    }
    var k := 0;
    while k < |queryWords|
      invariant k <= |queryWords|
      invariant score == PhraseScore(chunkLower, queryLower) + WordsScore(queryWords[..k], tokens)
    {
      var word := queryWords[k];
      assert queryWords[..k + 1][..k] == queryWords[..k];
      score := score + RMin(5.0 * CountEqual(tokens, word) as real, 20.0);
      score := score + RMin(2.0 * CountPrefixed(tokens, Stem(word)) as real, 10.0);
      k := k + 1;
    }
    assert queryWords[..k] == queryWords;
    var c := 0;
    while c < |ContextWords|
      invariant c <= |ContextWords|
      invariant score == PhraseScore(chunkLower, queryLower) + WordsScore(queryWords, tokens)
        + ContextScore(ContextWords[..c], chunkLower)
    {
      assert ContextWords[..c + 1][..c] == ContextWords[..c];
      if Contains(chunkLower, ContextWords[c]) {
        score := score + 3.0;
      }
      c := c + 1;
    }
    assert ContextWords[..c] == ContextWords;
    if |content| < 100 {
      score := score * 0.8;
    }
    var uniqueWords := |ToSet(SplitWs(chunkLower))|;
    score := score + RMin(uniqueWords as real * 0.1, 5.0);
    ScoreBounds(queryLower, queryWords, content);
  }

  // ---------------------------------------------------------------------------
  // Ranking

  /** `{ chunk, score, index, length, content }` */
  datatype Scored = Scored(chunk: Fields, score: real, index: nat, length: nat, content: string)

  function ScoreItem(query: string, chunk: Fields, index: nat): Scored
    requires ContentOf(chunk).Some?
  {
    var content := ContentOf(chunk).value;
    Scored(chunk, Relevance(query, content), index, |content|, content)
  }

  /** The scored list of a document's chunks, in stored order. */
  function ScoreAll(query: string, chunks: seq<Fields>): (items: seq<Scored>)
    requires Resolvable(chunks)
    ensures |items| == |chunks|
  {
    seq(|chunks|, i requires 0 <= i < |chunks| => ScoreItem(query, chunks[i], i))
  }

  /** The body of the `map` over the stored chunks: resolve the content (which
      throws when it is not a string) and score it. */
  method ScoreStored(query: string, queryLower: string, queryWords: seq<string>, chunk: Fields, index: nat)
    returns (item: Option<Scored>)
    requires queryLower == ToLower(query) && queryWords == QueryWords(queryLower)
    ensures item.Some? <==> ContentOf(chunk).Some?
    ensures item.Some? ==> item.value == ScoreItem(query, chunk, index)
  {
    var content := ContentOf(chunk);
    if content.None? {
      return None;
    }
    var score := ScoreChunk(queryLower, queryWords, content.value);
    item := Some(Scored(chunk, score, index, |content.value|, content.value));
  }

  /** Appending the next chunk's item keeps the scored prefix in step with
      the stored chunks. */
  lemma ScoredExtend(query: string, chunks: seq<Fields>, scored: seq<Scored>, item: Scored)
    requires |scored| < |chunks|
    requires forall j :: 0 <= j < |scored| ==> ContentOf(chunks[j]).Some? && scored[j] == ScoreItem(query, chunks[j], j)
    requires ContentOf(chunks[|scored|]).Some? && item == ScoreItem(query, chunks[|scored|], |scored|)
    ensures forall j :: 0 <= j < |scored| + 1 ==>
      ContentOf(chunks[j]).Some? && (scored + [item])[j] == ScoreItem(query, chunks[j], j)
  {
    forall j | 0 <= j < |scored| + 1
      ensures ContentOf(chunks[j]).Some? && (scored + [item])[j] == ScoreItem(query, chunks[j], j)
    {
      if j < |scored| {
        assert (scored + [item])[j] == scored[j];
      }
    }
  }

  /** `documentChunks.map(...)`: the scored list, or `None` when some chunk's
      content is not a string. */
  method ScoreChunks(query: string, chunks: seq<Fields>) returns (r: Option<seq<Scored>>)
    ensures r.Some? <==> Resolvable(chunks)
    ensures r.Some? ==> Resolvable(chunks) && r.value == ScoreAll(query, chunks)
  {
    var queryLower := ToLower(query);
    var queryWords := QueryWords(queryLower);
    var scored: seq<Scored> := [];
    var i := 0;
    while i < |chunks|
      invariant i <= |chunks| && |scored| == i
      invariant forall j :: 0 <= j < i ==> ContentOf(chunks[j]).Some? && scored[j] == ScoreItem(query, chunks[j], j)
    {
      var item := ScoreStored(query, queryLower, queryWords, chunks[i], i);
      if item.None? {
        return None;
      }
      ScoredExtend(query, chunks, scored, item.value);
      scored := scored + [item.value];
      i := i + 1;
    }
    assert Resolvable(chunks);
    assert scored == ScoreAll(query, chunks);
    return Some(scored);
  }

  /** `items.filter(item => item.score > 0)` */
  function Relevant(items: seq<Scored>): (r: seq<Scored>)
    ensures |r| <= |items|
  {
    if items == [] then []
    else (if items[0].score > 0.0 then [items[0]] else []) + Relevant(items[1..])
  }

  lemma {:induction false} RelevantKeepsPositive(items: seq<Scored>)
    requires forall i :: 0 <= i < |items| ==> items[i].score > 0.0
    ensures Relevant(items) == items
  {
    if items != [] {
      RelevantKeepsPositive(items[1..]);
    }
  }

  /** The `score > 0` filter never removes a scored chunk. */
  lemma FilterKeepsAll(query: string, chunks: seq<Fields>)
    requires Resolvable(chunks)
    ensures Relevant(ScoreAll(query, chunks)) == ScoreAll(query, chunks)
  {
    var items := ScoreAll(query, chunks);
    forall i | 0 <= i < |items|
      ensures items[i].score > 0.0
    {
      var lower := ToLower(query);
      ScoreBounds(lower, QueryWords(lower), items[i].content);
    }
    RelevantKeepsPositive(items);
  }

  function Abs(x: real): real {
    if x < 0.0 then -x else x
  }

  /** The sort comparator: by score, highest first, when the scores are more
      than 5 apart, and otherwise by content length, longest first. A negative
      value puts `a` first. */
  function Compare(a: Scored, b: Scored): real {
    if Abs(a.score - b.score) > 5.0 then b.score - a.score
    else (b.length - a.length) as real
  }

  /** Swapping the arguments negates the comparison. */
  lemma CompareAntisymmetric(a: Scored, b: Scored)
    ensures Compare(a, b) == -Compare(b, a)
    ensures Compare(a, a) == 0.0
  {
  }

  /** The comparator is not transitive: three items whose scores are 4 apart
      pairwise but 8 apart at the ends are ordered in a cycle, so no order of
      them agrees with every comparison. */
  lemma CompareNotTransitive()
    ensures var a, b, c := Scored(map[], 1.0, 0, 300, ""), Scored(map[], 5.0, 1, 200, ""),
                           Scored(map[], 9.0, 2, 100, "");
            Compare(a, b) < 0.0 && Compare(b, c) < 0.0 && Compare(c, a) < 0.0
  {
  }

  /** A chunk containing the whole query comes before one that matches
      nothing, whatever their lengths. */
  lemma PhraseMatchRanksFirst(query: string, a: Fields, b: Fields, i: nat, j: nat)
    requires ContentOf(a).Some? && ContentOf(b).Some?
    requires Contains(ToLower(ContentOf(a).value), ToLower(query))
    requires !Contains(ToLower(ContentOf(b).value), ToLower(query))
    requires WordsScore(QueryWords(ToLower(query)), Words(ToLower(ContentOf(b).value))) == 0.0
    requires forall w :: w in ContextWords ==> !Contains(ToLower(ContentOf(b).value), w)
    ensures Compare(ScoreItem(query, a, i), ScoreItem(query, b, j)) < 0.0
  {
    var lower := ToLower(query);
    PhraseMatchScoresHigh(lower, QueryWords(lower), ContentOf(a).value);
    UnrelatedScoresLow(lower, QueryWords(lower), ContentOf(b).value);
  }

  /** `Array.prototype.sort` with the comparator. The comparator is not
      transitive, so the order the engine produces is not determined by it;
      this insertion sort is one possible outcome, and only the permutation is
      promised. */
  method SortByComparator(items: seq<Scored>) returns (sorted: seq<Scored>)
    ensures multiset(sorted) == multiset(items)
    ensures |sorted| == |items|
  {
    sorted := [];
    var k := 0;
    while k < |items|
      invariant k <= |items| && |sorted| == k
      invariant multiset(sorted) == multiset(items[..k])
    {
      var x := items[k];
      var j := 0;
      while j < |sorted| && Compare(sorted[j], x) <= 0.0
        invariant j <= |sorted|
      {
        j := j + 1;
      }
      assert sorted == sorted[..j] + sorted[j..];
      sorted := sorted[..j] + [x] + sorted[j..];
      assert items[..k + 1] == items[..k] + [x];
      k := k + 1;
    }
    assert items[..k] == items;
  }

  /** The `filter`, `sort`, `slice(0, end)` and `map` steps of the pipeline:
      as many hits as the slice keeps of the positive-scored items, each the
      hit of a distinct one of them. */
  method Rank(scored: seq<Scored>, end: int) returns (hits: seq<Fields>)
    ensures |hits| == SliceEnd(|Relevant(scored)|, end)
    ensures multiset(hits) <= multiset(HitsOf(Relevant(scored)))
  {
    var relevant := Relevant(scored);
    var sorted := SortByComparator(relevant);
    var keep := SliceEnd(|sorted|, end);
    hits := HitsOf(sorted[..keep]);
    assert sorted == sorted[..keep] + sorted[keep..];
    HitsOfConcat(sorted[..keep], sorted[keep..]);
    HitsOfPermutation(sorted, relevant);
  }

  /** `{ ...item.chunk, text: item.content, score: item.score }` */
  function HitOf(item: Scored): Fields {
    item.chunk["text" := Str(item.content)]["score" := Num(item.score)]
  }

  function HitsOf(items: seq<Scored>): (hits: seq<Fields>)
    ensures |hits| == |items|
  {
    seq(|items|, i requires 0 <= i < |items| => HitOf(items[i]))
  }

  lemma HitsOfConcat(s: seq<Scored>, t: seq<Scored>)
    ensures HitsOf(s + t) == HitsOf(s) + HitsOf(t)
  {
  }

  /** Taking one item out of a list takes exactly that item out of its
      multiset. */
  lemma RemoveOne(t: seq<Scored>, i: nat)
    requires i < |t|
    ensures multiset(t[..i] + t[i + 1..]) == multiset(t) - multiset{t[i]}
  {
    assert t == t[..i] + [t[i]] + t[i + 1..];
  }

  /** Taking one item out takes its hit out of the hits. */
  lemma HitsOfRemove(t: seq<Scored>, i: nat)
    requires i < |t|
    ensures multiset(HitsOf(t)) == multiset{HitOf(t[i])} + multiset(HitsOf(t[..i] + t[i + 1..]))
  {
    assert t == t[..i] + [t[i]] + t[i + 1..];
    HitsOfConcat(t[..i] + [t[i]], t[i + 1..]);
    HitsOfConcat(t[..i], [t[i]]);
    HitsOfConcat(t[..i], t[i + 1..]);
  }

  /** Rearranging the scored items rearranges their hits the same way. */
  lemma {:induction false} HitsOfPermutation(s: seq<Scored>, t: seq<Scored>)
    requires multiset(s) == multiset(t)
    ensures multiset(HitsOf(s)) == multiset(HitsOf(t))
    decreases |s|
  {
    if s == [] {
      assert |t| == |multiset(t)| == 0;
    } else {
      var x := s[0];
      assert x in multiset(s);
      var i :| 0 <= i < |t| && t[i] == x;
      var rest := t[..i] + t[i + 1..];
      RemoveOne(t, i);
      assert s == [x] + s[1..];
      assert multiset(s[1..]) == multiset(s) - multiset{x};
      HitsOfPermutation(s[1..], rest);
      HitsOfCons(x, s[1..]);
      HitsOfRemove(t, i);
      calc {
        multiset(HitsOf(s));
        multiset{HitOf(x)} + multiset(HitsOf(s[1..]));
        multiset{HitOf(x)} + multiset(HitsOf(rest));
        multiset(HitsOf(t));
      }
    }
  }

  lemma HitsOfCons(x: Scored, rest: seq<Scored>)
    ensures multiset(HitsOf([x] + rest)) == multiset{HitOf(x)} + multiset(HitsOf(rest))
  {
    HitsOfConcat([x], rest);
    assert HitsOf([x]) == [HitOf(x)];
  }

  /** Every hit is a stored chunk with `text` set to its content and `score`
      to its relevance, which is at least 0.1. */
  lemma HitsCarryTextAndScore(query: string, chunks: seq<Fields>, h: Fields)
    requires Resolvable(chunks)
    requires h in HitsOf(ScoreAll(query, chunks))
    ensures exists i :: 0 <= i < |chunks| && HitIs(query, chunks[i], h)
  {
    var hits := HitsOf(ScoreAll(query, chunks));
    var i :| 0 <= i < |hits| && hits[i] == h;
    var lower := ToLower(query);
    ScoreBounds(lower, QueryWords(lower), ContentOf(chunks[i]).value);
    assert HitIs(query, chunks[i], h);
  }

  /** `h` is `chunk` with `text` set to its content and `score` to its
      relevance, at least 0.1. */
  predicate HitIs(query: string, chunk: Fields, h: Fields) {
    && ContentOf(chunk).Some?
    && var content := ContentOf(chunk).value;
    && h == chunk["text" := Str(content)]["score" := Num(Relevance(query, content))]
    && Relevance(query, content) >= 0.1
  }

  // ---------------------------------------------------------------------------
  // The store

  /** The module-level `documentStore` map with its three operations. */
  class DocumentStore {
    var entries: map<string, seq<Fields>>

    constructor ()
      ensures entries == map[]
    {
      entries := map[];
    }

    /** `addChunks`: stores a copy of the list under the id, replacing what
        was there and leaving every other id alone. */
    method AddChunks(chunks: seq<Fields>, documentId: string)
      modifies this
      ensures entries == old(entries)[documentId := chunks]
    {
      entries := entries[documentId := chunks];
    }

    /** `clearChunks`: `'all'` empties the store; any other id loses its entry,
        if it had one. */
    method ClearChunks(documentId: string)
      modifies this
      ensures documentId == "all" ==> entries == map[]
      ensures documentId != "all" ==> entries == old(entries) - {documentId}
      ensures documentId != "all" ==> documentId !in entries
    {
      if documentId == "all" {
        entries := map[];
      } else {
        entries := entries - {documentId};
      }
    }

    /** The chunks stored under the id, `[]` when there are none. */
    function ChunksOf(documentId: string): seq<Fields>
      reads this
    {
      if documentId in entries then entries[documentId] else []
    }

    /** `searchChunks`: the first `min(topK, n)` of the document's scored chunks
        after sorting, each returned as the chunk with its content and score;
        only the document's own chunks are looked at. */
    method SearchChunks(query: string, topK: int, documentId: string) returns (r: Result<seq<Fields>, string>)
      ensures ChunksOf(documentId) == [] ==> r == Ok([])
      ensures ChunksOf(documentId) != [] ==> (r.Ok? <==> Resolvable(ChunksOf(documentId)))
      ensures r.Err? ==> r.error == NotAStringMessage
      ensures r.Ok? && ChunksOf(documentId) != [] ==>
        |r.value| == SliceEnd(|ChunksOf(documentId)|, Min(topK, |ChunksOf(documentId)|)) &&
        multiset(r.value) <= multiset(HitsOf(ScoreAll(query, ChunksOf(documentId))))
    {
      var documentChunks := ChunksOf(documentId);
      if |documentChunks| == 0 {
        return Ok([]);
      }
      var all := ScoreChunks(query, documentChunks);
      if all.None? {
        return Err(NotAStringMessage);
      }
      var scored := all.value;
      FilterKeepsAll(query, documentChunks);
      var hits := Rank(scored, Min(topK, |documentChunks|));
      r := Ok(hits);
    }
  }
}
