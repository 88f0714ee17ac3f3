/** String operations the core relies on, with JavaScript's meaning:
    the whitespace class shared by `\s` and `String.prototype.trim`, `trim`,
    lower-casing, `includes`, `startsWith`/`endsWith`, `split(/\s+/)`, the word
    tokens that `\b` delimits, and occurrence counts. */
module Text {

  /** The characters JavaScript treats as white space (WhiteSpace and
      LineTerminator): those `\s` matches and `trim` removes. */
  predicate IsSpace(c: char) {
    || c == ' ' || c == '\t' || c == '\n' || c == '\r'
    || c == '\U{000B}' || c == '\U{000C}' || c == '\U{00A0}' || c == '\U{1680}'
    || ('\U{2000}' <= c <= '\U{200A}')
    || c == '\U{2028}' || c == '\U{2029}' || c == '\U{202F}' || c == '\U{205F}'
    || c == '\U{3000}' || c == '\U{FEFF}'
  }

  predicate AllSpace(s: string) {
    forall i :: 0 <= i < |s| ==> IsSpace(s[i])
  }

  /** `s.trimStart()` */
  function TrimStart(s: string): (r: string)
    ensures |r| <= |s|
  {
    if s != [] && IsSpace(s[0]) then TrimStart(s[1..]) else s
  }

  /** `s.trimEnd()` */
  function TrimEnd(s: string): (r: string)
    ensures |r| <= |s|
  {
    if s != [] && IsSpace(s[|s| - 1]) then TrimEnd(s[..|s| - 1]) else s
  }

  /** `s.trim()` */
  function Trim(s: string): (r: string)
    ensures |r| <= |s|
  {
    TrimEnd(TrimStart(s))
  }

  /** `trimStart` removes exactly the leading run of white space. */
  lemma {:induction false} TrimStartRemovesLeadingSpace(s: string)
    ensures TrimStart(s) == s[|s| - |TrimStart(s)|..]
    ensures TrimStart(s) == [] || !IsSpace(TrimStart(s)[0])
    ensures AllSpace(s[..|s| - |TrimStart(s)|])
  {
    if s != [] && IsSpace(s[0]) {
      TrimStartRemovesLeadingSpace(s[1..]);
      var r := TrimStart(s[1..]);
      assert s[..|s| - |r|] == [s[0]] + s[1..][..|s| - 1 - |r|];
    }
  }

  /** `trimEnd` removes exactly the trailing run of white space. */
  lemma {:induction false} TrimEndRemovesTrailingSpace(s: string)
    ensures TrimEnd(s) == s[..|TrimEnd(s)|]
    ensures TrimEnd(s) == [] || !IsSpace(TrimEnd(s)[|TrimEnd(s)| - 1])
    ensures AllSpace(s[|TrimEnd(s)|..])
  {
    if s != [] && IsSpace(s[|s| - 1]) {
      TrimEndRemovesTrailingSpace(s[..|s| - 1]);
      var r := TrimEnd(s[..|s| - 1]);
      assert s[|r|..] == s[..|s| - 1][|r|..] + [s[|s| - 1]];
    }
  }

  /** The trim of a string is empty exactly when the string is all white
      space, and otherwise starts and ends with a character that is not. */
  lemma TrimBlank(s: string)
    ensures Trim(s) == [] <==> AllSpace(s)
    ensures Trim(s) != [] ==> !IsSpace(Trim(s)[0]) && !IsSpace(Trim(s)[|Trim(s)| - 1])
  {
    var t := TrimStart(s);
    var r := TrimEnd(t);
    TrimStartRemovesLeadingSpace(s);
    TrimEndRemovesTrailingSpace(t);
    if r == [] {
      assert AllSpace(t);
      assert s == s[..|s| - |t|] + t;
    } else {
      assert r[0] == t[0];
    }
  }

  /** Trimming keeps only characters of the trimmed string. */
  lemma TrimKeepsCharacters(s: string)
    ensures forall x :: x in Trim(s) ==> x in s
  {
    var t := TrimStart(s);
    TrimStartRemovesLeadingSpace(s);
    TrimEndRemovesTrailingSpace(t);
    assert forall x :: x in TrimEnd(t) ==> x in t;
    assert forall x :: x in t ==> x in s[|s| - |t|..];
  }

  /** A string without white space at its ends is its own trim. */
  lemma TrimOfSolid(s: string)
    requires s == [] || (!IsSpace(s[0]) && !IsSpace(s[|s| - 1]))
    ensures Trim(s) == s
  {
  }

  function LowerChar(c: char): char {
    if 'A' <= c <= 'Z' then (c as int + 32) as char else c
  }

  /** `s.toLowerCase()` on the ASCII letters. */
  function ToLower(s: string): (r: string)
    ensures |r| == |s|
    ensures forall i :: 0 <= i < |s| ==> r[i] == LowerChar(s[i])
  {
    seq(|s|, i requires 0 <= i < |s| => LowerChar(s[i]))
  }

  predicate StartsWith(s: string, prefix: string) {
    |prefix| <= |s| && s[..|prefix|] == prefix
  }

  predicate EndsWith(s: string, suffix: string) {
    |suffix| <= |s| && s[|s| - |suffix|..] == suffix
  }

  lemma PrefixOfConcat(a: string, b: string)
    ensures StartsWith(a + b, a)
  {
    assert (a + b)[..|a|] == a;
  }

  lemma SuffixOfConcat(a: string, b: string)
    ensures EndsWith(a + b, b)
  {
    assert (a + b)[|a|..] == b;
  }

  /** `a + r` does not start with `a + b` when `r` and `b` differ at their
      first character. */
  lemma NotPrefixWhenNextDiffers(a: string, r: string, b: string)
    requires r != [] && b != [] && r[0] != b[0]
    ensures !StartsWith(a + r, a + b)
  {
    assert (a + r)[|a|] == r[0];
    assert (a + b)[|a|] == b[0];
  }

  lemma ConcatAssociates(a: string, b: string, c: string, d: string)
    ensures a + (b + (c + d)) == ((a + b) + c) + d
  {
  }

  lemma PrefixOfNested(a: string, b: string, c: string)
    ensures StartsWith(a + (b + c), a + b)
  {
    assert a + (b + c) == (a + b) + c;
    PrefixOfConcat(a + b, c);
  }

  /** A text ends with the last character of any non-empty suffix of it. */
  lemma LastOfSuffix(s: string, suffix: string)
    requires EndsWith(s, suffix) && suffix != []
    ensures s[|s| - 1] == suffix[|suffix| - 1]
  {
    assert s[|s| - |suffix|..][|suffix| - 1] == s[|s| - 1];
  }

  /** `s` does not end with `b` when their last characters differ. */
  lemma NotSuffixWhenLastDiffers(s: string, b: string)
    requires s != [] && b != [] && s[|s| - 1] != b[|b| - 1]
    ensures !EndsWith(s, b)
  {
  }

  /** `s.includes(sub)` */
  predicate Contains(s: string, sub: string) {
    exists i :: 0 <= i <= |s| - |sub| && StartsWith(s[i..], sub)
  }

  /** `xs.join(sep)` */
  function Join(xs: seq<string>, sep: string): string {
    if xs == [] then []
    else if |xs| == 1 then xs[0]
    else xs[0] + sep + Join(xs[1..], sep)
  }

  /** Index of the first white-space character of `s`, or `|s|`. */
  function FirstSpace(s: string): (i: nat)
    ensures i <= |s|
    ensures i < |s| ==> IsSpace(s[i])
    ensures forall j :: 0 <= j < i ==> !IsSpace(s[j])
  {
    if s == [] || IsSpace(s[0]) then 0 else 1 + FirstSpace(s[1..])
  }

  /** `s.split(/\s+/)`: the pieces between runs of white space, keeping the
      empty piece before leading and after trailing white space. */
  function SplitWs(s: string): (r: seq<string>)
    ensures |r| >= 1
    decreases |s|
  {
    var i := FirstSpace(s);
    if i == |s| then [s]
    else
      var rest := TrimStart(s[i..]);
      [s[..i]] + SplitWs(rest)
  }

  function ToSet(xs: seq<string>): set<string> {
    set x | x in xs
  }

  /** `new Set(xs).size` is at least one for a list that is not empty. */
  lemma DistinctCountPositive(xs: seq<string>)
    requires |xs| >= 1
    ensures |ToSet(xs)| >= 1
  {
    assert xs[0] in ToSet(xs);
  }

  /** Characters of `\w`. */
  predicate WordChar(c: char) {
    ('a' <= c <= 'z') || ('A' <= c <= 'Z') || ('0' <= c <= '9') || c == '_'
  }

  function FirstWordChar(s: string): (i: nat)
    ensures i <= |s|
    ensures i < |s| ==> WordChar(s[i])
  {
    if s == [] || WordChar(s[0]) then 0 else 1 + FirstWordChar(s[1..])
  }

  function WordRunEnd(s: string): (j: nat)
    ensures j <= |s|
    ensures forall k :: 0 <= k < j ==> WordChar(s[k])
  {
    if s != [] && WordChar(s[0]) then 1 + WordRunEnd(s[1..]) else 0
  }

  /** The maximal runs of `\w` characters of `s`: the words `\b` delimits. */
  function Words(s: string): (r: seq<string>)
    ensures forall w :: w in r ==> w != []
    decreases |s|
  {
    var i := FirstWordChar(s);
    if i == |s| then []
    else
      var j := i + WordRunEnd(s[i..]);
      [s[i..j]] + Words(s[j..])
  }

  /** How many of `ws` equal `w`: the matches of `\bw\b` for a word `w` made of
      word characters. */
  function CountEqual(ws: seq<string>, w: string): (n: nat)
    ensures n <= |ws|
  {
    if ws == [] then 0 else (if ws[0] == w then 1 else 0) + CountEqual(ws[1..], w)
  }

  /** How many of `ws` start with `stem`: the matches of `\bstem\w*\b`. */
  function CountPrefixed(ws: seq<string>, stem: string): (n: nat)
    ensures n <= |ws|
  {
    if ws == [] then 0 else (if StartsWith(ws[0], stem) then 1 else 0) + CountPrefixed(ws[1..], stem)
  }

  /** Non-overlapping occurrences of `w` in `s` scanned left to right: the
      matches of a global regular expression whose source is the literal `w`. */
  function CountOccurrences(s: string, w: string): nat
    requires w != []
    decreases |s|
  {
    if |s| < |w| then 0
    else if s[..|w|] == w then 1 + CountOccurrences(s[|w|..], w)
    else CountOccurrences(s[1..], w)
  }

  /** The scan finds an occurrence exactly when `s` contains `w`. */
  lemma {:induction false} CountOccurrencesPositive(s: string, w: string)
    requires w != []
    ensures CountOccurrences(s, w) > 0 <==> Contains(s, w)
    decreases |s|
  {
    if |s| < |w| {
    } else if s[..|w|] == w {
      assert StartsWith(s[0..], w);
    } else {
      CountOccurrencesPositive(s[1..], w);
      if Contains(s, w) {
        var i :| 0 <= i <= |s| - |w| && StartsWith(s[i..], w);
        assert i != 0;
        assert s[1..][i - 1..] == s[i..];
      }
      if Contains(s[1..], w) {
        var i :| 0 <= i <= |s| - 1 - |w| && StartsWith(s[1..][i..], w);
        assert s[1..][i..] == s[i + 1..];
      }
    }
  }
}
