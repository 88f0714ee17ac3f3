/** The extractor of backend/utils/pdf.utils.js: a character window of
    `chunkSize` characters that moves forward by `chunkSize - overlap`, trims
    every slice, drops the blank ones and stops at the window that reaches the
    end of the text; and `extractAndChunk`, which routes plain-text sources
    straight to the chunker and cleans extracted PDF text first. */
module Chunker {
  import opened JsValues
  import opened Text

  const DefaultChunkSize := 1200
  const DefaultOverlap := 200

  /** What the window loop needs to move forward at every step. */
  predicate ValidWindow(chunkSize: int, overlap: int) {
    0 <= overlap < chunkSize
  }

  function Step(chunkSize: int, overlap: int): (d: nat)
    requires ValidWindow(chunkSize, overlap)
    ensures 0 < d <= chunkSize
  {
    chunkSize - overlap
  }

  /** Where the `k`-th window starts: the loop's `i` after `k` steps. */
  function WindowStart(k: nat, chunkSize: int, overlap: int): nat
    requires ValidWindow(chunkSize, overlap)
  {
    if k == 0 then 0 else WindowStart(k - 1, chunkSize, overlap) + Step(chunkSize, overlap)
  }

  function WindowEnd(n: nat, k: nat, chunkSize: int, overlap: int): nat
    requires ValidWindow(chunkSize, overlap)
  {
    Min(WindowStart(k, chunkSize, overlap) + chunkSize, n)
  }

  /** Index of the window that reaches the end of a text of length `n`. */
  function LastWindow(n: int, chunkSize: int, overlap: int): nat
    requires ValidWindow(chunkSize, overlap)
    decreases n
  {
    if n <= chunkSize then 0 else 1 + LastWindow(n - Step(chunkSize, overlap), chunkSize, overlap)
  }

  /** Shifting the text by one step shifts every window start by one step. */
  lemma {:induction false} WindowStartShift(k: nat, chunkSize: int, overlap: int)
    requires ValidWindow(chunkSize, overlap)
    ensures WindowStart(k + 1, chunkSize, overlap) == Step(chunkSize, overlap) + WindowStart(k, chunkSize, overlap)
  {
  }

  /** `LastWindow` is the first window whose end reaches `n`. */
  lemma {:induction false} LastWindowIsFirstToReachEnd(n: int, chunkSize: int, overlap: int)
    requires ValidWindow(chunkSize, overlap)
    ensures WindowStart(LastWindow(n, chunkSize, overlap), chunkSize, overlap) + chunkSize >= n
    ensures forall j: nat :: j < LastWindow(n, chunkSize, overlap) ==>
              WindowStart(j, chunkSize, overlap) + chunkSize < n
    decreases n
  {
    if n > chunkSize {
      var d := Step(chunkSize, overlap);
      var m := n - d;
      LastWindowIsFirstToReachEnd(m, chunkSize, overlap);
      var l := LastWindow(m, chunkSize, overlap);
      WindowStartShift(l, chunkSize, overlap);
      forall j: nat | j < l + 1
        ensures WindowStart(j, chunkSize, overlap) + chunkSize < n
      {
        if j > 0 {
          assert WindowStart(j - 1, chunkSize, overlap) + chunkSize < m;
        }
      }
    }
  }

  /** Number of windows the loop visits on a text of length `n`. */
  function WindowCount(n: nat, chunkSize: int, overlap: int): nat
    requires ValidWindow(chunkSize, overlap)
  {
    if n == 0 then 0 else LastWindow(n, chunkSize, overlap) + 1
  }

  /** Every window the loop visits starts inside the text. */
  lemma WindowStartsInside(n: nat, k: nat, chunkSize: int, overlap: int)
    requires ValidWindow(chunkSize, overlap)
    requires k < WindowCount(n, chunkSize, overlap)
    ensures WindowStart(k, chunkSize, overlap) < n
  {
    LastWindowIsFirstToReachEnd(n, chunkSize, overlap);
    if k > 0 {
      assert WindowStart(k - 1, chunkSize, overlap) + chunkSize < n;
    }
  }

  /** The `k`-th window, `text.slice(i, end)` for the `k`-th value of `i`. */
  function Window(text: string, k: nat, chunkSize: int, overlap: int): (w: string)
    requires ValidWindow(chunkSize, overlap)
    requires k < WindowCount(|text|, chunkSize, overlap)
    ensures |w| <= chunkSize
  {
    WindowStartsInside(|text|, k, chunkSize, overlap);
    text[WindowStart(k, chunkSize, overlap)..WindowEnd(|text|, k, chunkSize, overlap)]
  }

  /** The `k`-th window is the piece of `text` that starts at `WindowStart(k)`. */
  lemma WindowIsPiece(text: string, k: nat, chunkSize: int, overlap: int)
    requires ValidWindow(chunkSize, overlap)
    requires k < WindowCount(|text|, chunkSize, overlap)
    ensures WindowStart(k, chunkSize, overlap) + |Window(text, k, chunkSize, overlap)| <= |text|
    ensures forall j :: 0 <= j < |Window(text, k, chunkSize, overlap)| ==>
              Window(text, k, chunkSize, overlap)[j] == text[WindowStart(k, chunkSize, overlap) + j]
  {
    WindowStartsInside(|text|, k, chunkSize, overlap);
  }

  /** The windows of `text`, in order, untrimmed. */
  function Windows(text: string, chunkSize: int, overlap: int): (ws: seq<string>)
    requires ValidWindow(chunkSize, overlap)
    ensures |ws| == WindowCount(|text|, chunkSize, overlap)
  {
    seq(WindowCount(|text|, chunkSize, overlap),
        k requires 0 <= k < WindowCount(|text|, chunkSize, overlap) => Window(text, k, chunkSize, overlap))
  }

  function TrimAll(xs: seq<string>): (r: seq<string>)
    ensures |r| == |xs|
    ensures forall k :: 0 <= k < |xs| ==> r[k] == Trim(xs[k])
  {
    seq(|xs|, k requires 0 <= k < |xs| => Trim(xs[k]))
  }

  /** The elements of `xs` that are not empty, in order. */
  function KeepNonEmpty(xs: seq<string>): (r: seq<string>)
    ensures |r| <= |xs|
    ensures forall c :: c in r ==> c != [] && c in xs
  {
    if xs == [] then []
    else
      var last := xs[|xs| - 1];
      KeepNonEmpty(xs[..|xs| - 1]) + (if last == [] then [] else [last])
  }

  /** What `chunkText(text, chunkSize, overlap)` returns: the trimmed windows
      that are not blank. */
  function Chunks(text: string, chunkSize: int, overlap: int): seq<string>
    requires ValidWindow(chunkSize, overlap)
  {
    KeepNonEmpty(TrimAll(Windows(text, chunkSize, overlap)))
  }

  /** `chunkText` (pdf.utils.js): the window loop, with `i` the start of the
      current window and `chunks` what has been pushed so far. */
  method ChunkText(text: string, chunkSize: int, overlap: int) returns (chunks: seq<string>)
    requires ValidWindow(chunkSize, overlap)
    ensures chunks == Chunks(text, chunkSize, overlap)
  {
    ghost var trimmed := TrimAll(Windows(text, chunkSize, overlap));
    ghost var k: nat := 0;
    LastWindowIsFirstToReachEnd(|text|, chunkSize, overlap);
    chunks := [];
    var i := 0;
    while i < |text|
      invariant |text| > 0 ==> k <= LastWindow(|text|, chunkSize, overlap)
      invariant k <= |trimmed| && (i < |text| || |text| == 0)
      invariant i == WindowStart(k, chunkSize, overlap)
      invariant chunks == KeepNonEmpty(trimmed[..k])
      decreases |text| - i
    {
      WindowStartsInside(|text|, k, chunkSize, overlap);
      var end := Min(i + chunkSize, |text|);
      var slice := Trim(text[i..end]);
      assert slice == trimmed[k];
      if slice != "" {
        chunks := chunks + [slice];
      }
      assert trimmed[..k + 1][..k] == trimmed[..k];
      if end == |text| {
        assert k == LastWindow(|text|, chunkSize, overlap);
        assert trimmed[..k + 1] == trimmed;
        break;
      }
      i := end - overlap;
      if i < 0 {
        i := 0;
      }
      k := k + 1;
      WindowStartsInside(|text|, k, chunkSize, overlap);
    }
  }

  /** Every chunk is a non-blank trimmed window, so it is not empty and holds
      at most `chunkSize` characters. */
  lemma ChunksAreTrimmedWindows(text: string, chunkSize: int, overlap: int)
    requires ValidWindow(chunkSize, overlap)
    ensures forall c :: c in Chunks(text, chunkSize, overlap) ==>
              c != [] && |c| <= chunkSize &&
              exists k :: 0 <= k < WindowCount(|text|, chunkSize, overlap) &&
                          c == Trim(Window(text, k, chunkSize, overlap))
  {
    var ws := Windows(text, chunkSize, overlap);
    var trimmed := TrimAll(ws);
    forall c | c in Chunks(text, chunkSize, overlap)
      ensures c != [] && |c| <= chunkSize
      ensures exists k :: 0 <= k < WindowCount(|text|, chunkSize, overlap) &&
                          c == Trim(Window(text, k, chunkSize, overlap))
    {
      assert c in trimmed;
      var k :| 0 <= k < |trimmed| && trimmed[k] == c;
      assert |ws[k]| <= chunkSize;
    }
  }

  /** The windows tile the text: each starts `chunkSize - overlap` after the
      previous one, which is its predecessor's end minus `overlap`; every
      window but the last ends before the end of the text and the last one
      ends exactly there. An empty text has no window at all. */
  lemma WindowsTileText(n: nat, chunkSize: int, overlap: int)
    requires ValidWindow(chunkSize, overlap)
    ensures n == 0 <==> WindowCount(n, chunkSize, overlap) == 0
    ensures WindowCount(n, chunkSize, overlap) > 0 ==>
              WindowStart(0, chunkSize, overlap) == 0 &&
              WindowEnd(n, WindowCount(n, chunkSize, overlap) - 1, chunkSize, overlap) == n
    ensures forall k: nat :: k + 1 < WindowCount(n, chunkSize, overlap) ==>
              WindowEnd(n, k, chunkSize, overlap) < n &&
              WindowStart(k + 1, chunkSize, overlap) == WindowEnd(n, k, chunkSize, overlap) - overlap &&
              WindowStart(k + 1, chunkSize, overlap) == WindowStart(k, chunkSize, overlap) + chunkSize - overlap
  {
    LastWindowIsFirstToReachEnd(n, chunkSize, overlap);
  }

  /** A text that is all white space gives no chunk: every window of it is
      blank. */
  lemma BlankTextHasNoChunks(text: string, chunkSize: int, overlap: int)
    requires AllSpace(text)
    requires ValidWindow(chunkSize, overlap)
    ensures Chunks(text, chunkSize, overlap) == []
  {
    var trimmed := TrimAll(Windows(text, chunkSize, overlap));
    forall k | 0 <= k < |trimmed|
      ensures trimmed[k] == []
    {
      var w := Window(text, k, chunkSize, overlap);
      WindowIsPiece(text, k, chunkSize, overlap);
      assert AllSpace(w);
      TrimBlank(w);
    }
    AllBlankKeepsNothing(trimmed);
  }

  lemma {:induction false} AllBlankKeepsNothing(xs: seq<string>)
    requires forall k :: 0 <= k < |xs| ==> xs[k] == []
    ensures KeepNonEmpty(xs) == []
  {
    if xs != [] {
      AllBlankKeepsNothing(xs[..|xs| - 1]);
    }
  }

  /** The example of windows of 4 characters overlapping by 2: they start
      at 0, 2, 4 and 6. */
  lemma ChunkExample()
    ensures Chunks("abcdefghij", 4, 2) == ["abcd", "cdef", "efgh", "ghij"]
  {
    var ws := ["abcd", "cdef", "efgh", "ghij"];
    ExampleWindows();
    forall k | 0 <= k < 4
      ensures Trim(ws[k]) == ws[k]
    {
      TrimOfSolid(ws[k]);
    }
    assert TrimAll(ws) == ws;
    ExampleKeepsAll(ws);
  }

  lemma ExampleWindows()
    ensures Windows("abcdefghij", 4, 2) == ["abcd", "cdef", "efgh", "ghij"]
  {
    var text := "abcdefghij";
    ExampleStarts();
    var ws := Windows(text, 4, 2);
    assert |ws| == 4;
    ExampleWindow(0, "abcd");
    ExampleWindow(1, "cdef");
    ExampleWindow(2, "efgh");
    ExampleWindow(3, "ghij");
  }

  lemma ExampleStarts()
    ensures WindowCount(10, 4, 2) == 4
    ensures WindowStart(1, 4, 2) == 2 && WindowStart(2, 4, 2) == 4 && WindowStart(3, 4, 2) == 6
  {
    assert LastWindow(10, 4, 2) == 3;
  }

  lemma ExampleWindow(k: nat, w: string)
    requires k < 4 && w == "abcdefghij"[2 * k..2 * k + 4]
    ensures WindowCount(10, 4, 2) == 4
    ensures Window("abcdefghij", k, 4, 2) == w
  {
    ExampleStarts();
  }

  lemma ExampleKeepsAll(ws: seq<string>)
    requires ws == ["abcd", "cdef", "efgh", "ghij"]
    ensures KeepNonEmpty(ws) == ws
  {
    var one, two, three := ["abcd"], ["abcd", "cdef"], ["abcd", "cdef", "efgh"];
    assert one[..0] == [] && two[..1] == one && three[..2] == two && ws[..3] == three;
    assert KeepNonEmpty(one) == one;
    assert KeepNonEmpty(two) == two;
    assert KeepNonEmpty(three) == three;
  }

  /** What reading a document source gave: its text, or the message of the
      error the read, the download or the PDF parser threw. */
  datatype Loaded = Read(text: string) | Failed(message: string)

  /** Sources `extractAndChunk` reads as text files rather than as PDFs. */
  predicate IsTextSource(source: string) {
    EndsWith(source, ".txt") || EndsWith(source, ".md")
  }

  /** `text.replace(/\r/g, "")` */
  function RemoveCarriageReturns(s: string): (r: string)
    ensures '\r' !in r
  {
    if s == [] then []
    else (if s[0] == '\r' then [] else [s[0]]) + RemoveCarriageReturns(s[1..])
  }

  /** What `extractAndChunk` yields for a source: the read's error, or the
      chunks of the text (with carriage returns removed unless it is a text
      or markdown file). */
  function Extracted(source: string, loaded: Loaded, chunkSize: int, overlap: int): Result<seq<string>, string>
    requires ValidWindow(chunkSize, overlap)
  {
    match loaded
    case Failed(message) => Err(message)
    case Read(text) =>
      if IsTextSource(source) then Ok(Chunks(text, chunkSize, overlap))
      else Ok(Chunks(RemoveCarriageReturns(text), chunkSize, overlap))
  }

  /** `extractAndChunk` (pdf.utils.js) with the file read, the download and the
      PDF parser abstracted into `loaded`: text and markdown sources are
      chunked as read; other sources lose their carriage returns first, and a
      blank extracted text gives no chunk through the early return, which
      is exactly what chunking it would give. A failure is rethrown. */
  method ExtractAndChunk(source: string, loaded: Loaded, chunkSize: int, overlap: int)
    returns (r: Result<seq<string>, string>)
    requires ValidWindow(chunkSize, overlap)
    ensures r == Extracted(source, loaded, chunkSize, overlap)
    ensures loaded.Failed? ==> r == Err(loaded.message)
    ensures loaded.Read? && IsTextSource(source) ==> r == Ok(Chunks(loaded.text, chunkSize, overlap))
    ensures loaded.Read? && !IsTextSource(source) ==>
              r == Ok(Chunks(RemoveCarriageReturns(loaded.text), chunkSize, overlap))
    ensures r.Ok? && !IsTextSource(source) ==> forall c :: c in r.value ==> '\r' !in c
  {
    if loaded.Failed? {
      return Err(loaded.message);
    }
    if IsTextSource(source) {
      var chunks := ChunkText(loaded.text, chunkSize, overlap);
      return Ok(chunks);
    }
    var text := RemoveCarriageReturns(loaded.text);
    if Trim(text) == "" {
      TrimBlank(text);
      BlankTextHasNoChunks(text, chunkSize, overlap);
      return Ok([]);
    }
    var chunks := ChunkText(text, chunkSize, overlap);
    ChunksAreTrimmedWindows(text, chunkSize, overlap);
    forall c | c in chunks
      ensures '\r' !in c
    {
      var k :| 0 <= k < WindowCount(|text|, chunkSize, overlap) && c == Trim(Window(text, k, chunkSize, overlap));
      var w := Window(text, k, chunkSize, overlap);
      TrimKeepsCharacters(w);
      assert forall x :: x in w ==> x in text;
    }
    return Ok(chunks);
  }
}
